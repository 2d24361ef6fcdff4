# Animal counting, counting-accuracy evaluation and the live detection loop

This project is a verified Dafny model of the counting logic of an animal-detection pipeline.
A pretrained COCO detector finds boxes in each video frame. `SimpleAnimalDetector` keeps the
boxes whose class id and class name are on the configured allow-list. It counts them per class
for the frame and raises a running per-class maximum. `CountingEvaluator` reduces each video to
the per-class maxima over its frames and scores them against a ground-truth map:

- mean absolute error (MAE);
- mean absolute percentage error (MAPE) over classes with positive ground truth;
- exact-match accuracy.

It averages the per-video scores without weights. `COCOAnimalDetectionApp.run` is the live
loop. It keeps a window of the last 30 frame rates and writes frame counts to the database at
most once every 15 seconds. It counts the frames that finish the loop body, and it stops when
the stream ends or 'q' is pressed.

Files and modules:

- `aggregates.dfy`, module `Aggregates`: count dictionaries as `map<string, nat>`, lookups with
  a default of 0, sums of dictionary values and of lists, and the guarded mean.
- `detector.dfy`, module `Detector`: the allow-list, per-frame counts, detection records, the
  pointwise maximum update, its fold over frames, and the class `AnimalDetector` with fields
  `currentCounts` and `maxCounts` updated in place. A ghost `history` of frame counts carries
  the invariant that `maxCounts` is the maximum over every frame seen.
- `evaluate_counting.dfy`, module `Evaluation`: reference definitions of the three scores and
  the `calculate_metrics` loop, proved against them. It also holds the averages of
  `print_summary` and the class `CountingEvaluator` with `evaluate_video` and `evaluate_all`.
  A video that cannot be opened, or a path that does not exist, adds no result.
- `main_loop.dfy`, module `App`: the class `DetectionApp`, with the frame counter, the save
  gate's clock and a log of database writes. Its methods are the save gate, one pass of the
  loop body, and `run`. `run` is proved against fold functions over the frames it reads.

Inputs that come from the outside world are parameters:

- the detector's boxes for each frame;
- a video as `Option<seq<frame>>`, where `None` means it cannot be opened and the end of the
  sequence is the failed read;
- the files that exist, as a map from path to video;
- for each frame of the live loop: its frame rate, the clock reading (integer seconds) and the
  key pressed.

Ratios are exact rationals (`real`).

The score definitions follow the code. MAPE averages over every class whose ground truth is
positive, including classes predicted exactly. For ground truth `{horse: 2, cow: 1}` and
prediction `{horse: 2, cow: 0}` the MAPE is therefore 50, not the 100 one gets by averaging only
the classes with an error (`Evaluation.ExactClassEntersMapeExample`).

## Model

| member | source | states |
|---|---|---|
| Aggregates.Max | src/detector.py:69 | the larger of two counts: at least both, and equal to one of them (also `max` at evaluate_counting.py:37) |
| Aggregates.Total | src/detector.py:135-136 | definition: `sum(d.values())` over a count dictionary, taking its keys one at a time |
| Aggregates.RealTotal | evaluate_counting.py:83 | definition: the sum of the values of a dictionary of real percentage errors, taking its keys one at a time |
| Aggregates.Sum | evaluate_counting.py:82 | definition: `sum(errors)` over a list of integers, in list order |
| Aggregates.RealSum | evaluate_counting.py:83 | definition: `sum(...)` over a list of reals, in list order, as for `percentage_errors` and the per-video averages (151-153) |
| Aggregates.Mean | evaluate_counting.py:82-83 | definition: the sum divided by the number of items, or 0 when there are none, as the `… if errors else 0` guard does |
| Aggregates.Lookup | evaluate_counting.py:65 | definition of a dictionary read with default 0 (`get(c, 0)`); its two postconditions only repeat the two cases of the body |
| Aggregates.TotalIncrement | src/detector.py:55 | incrementing one class's entry, present or missing, raises the sum of the counts by exactly one |
| Aggregates.TotalMonotone | src/detector.py:135-136 | a count map dominated key by key by another has a total no larger |
| Aggregates.SumValues | src/detector.py:135-136 | the key-by-key summing loop returns the sum of all values of the map |
| Aggregates.MeanZero | evaluate_counting.py:82-83 | a guarded mean is zero exactly when there is nothing to average or the sum is zero |
| Aggregates.MeanBounds | evaluate_counting.py:151-153 | the mean of a non-empty list whose entries lie in [lo, hi] lies in [lo, hi] |
| Detector.Accepts | src/detector.py:53 | definition: the allow-list test, the class id is configured and the class name is a configured animal |
| Detector.FrameCounts | src/detector.py:53-55 | definition: box by box, each box passing both allow-list tests increments its class's count, starting from no counts |
| Detector.Detections | src/detector.py:53-65 | definition: box by box, each box passing both allow-list tests appends a record of its class, display name and id |
| Detector.MaxUpdate | src/detector.py:67-69 | definition: each class of the frame gets the larger of its old maximum (0 when missing) and its frame count; other classes keep their maximum |
| Detector.MaxOverFrames | src/detector.py:34-69 | definition: starting from empty maxima, the maximum update applied to every frame's counts in turn |
| Detector.FrameCountsDomain | src/detector.py:53-55 | a frame's counts have keys only among the configured animals, and every present count is positive |
| Detector.FrameCountsCountBoxes | src/detector.py:53-55 | a frame's count of class c equals the number of boxes with a configured id and class name c; every other box is ignored |
| Detector.DetectionsConfigured | src/detector.py:53-65 | at most one record per box, each with a configured class, its display name and a configured id |
| Detector.DetectionsMatchCounts | src/detector.py:53-65 | a record is added exactly when a count is incremented: the number of records equals the sum of the frame's counts |
| Detector.MaxUpdateBounds | src/detector.py:67-69 | the raised maxima cover both maps, never go below the old maximum or the frame's count, take each value from one of the two, and leave classes absent from the frame unchanged |
| Detector.MaxOverFramesIsMaximum | src/detector.py:67-69 | from empty maps, after any frames a class has a maximum exactly when it appeared in a frame; that maximum bounds its count in every frame and equals its count in some frame |
| Detector.MaxOverFramesDomain | src/detector.py:67-69 | a class has a running maximum exactly when some frame counted it |
| Detector.MaxOverFramesBound | src/detector.py:67-69 | the running maximum of a class is at least its count in every frame |
| Detector.MaxOverFramesAttained | src/detector.py:67-69 | the running maximum of a present class equals its count in some frame |
| Detector.RaiseMaxima | src/detector.py:67-69 | the in-place loop over the frame's counts produces the pointwise maximum update |
| Detector.AnimalDetector.constructor | src/detector.py:19-35 | the class names are exactly the configured names, each mapped to itself; the ids are exactly the configured ids; both count maps start empty |
| Detector.AnimalDetector.DetectFrame | src/detector.py:37-72 | the returned counts and records are those of the allow-listed boxes; current counts are replaced by the frame's counts; the maxima are raised pointwise; the maxima stay the maximum over all frames seen |
| Detector.AnimalDetector.GetSummary | src/detector.py:130-138 | the summary holds both maps, their sums and the number of configured classes, changes nothing, and has a current total no larger than the maximum total |
| Detector.CurrentBoundedByMaximum | src/detector.py:67-71 | after any frames, every current count is at most that class's running maximum, so the current total never exceeds the maximum total |
| Evaluation.Basename | evaluate_counting.py:87 | definition: the characters after the last '/' of the path |
| Evaluation.PercentageErrors | evaluate_counting.py:72-74 | definition: for each ground-truth class with a positive count, its absolute error over that count times 100 |
| Evaluation.Percent | evaluate_counting.py:84 | definition: part over whole times 100, or 0 when the whole is 0 |
| Evaluation.MeanAbsoluteError | evaluate_counting.py:64-82 | definition: the sum of the per-class absolute errors over the number of ground-truth classes, or 0 when there are none |
| Evaluation.MeanPercentageError | evaluate_counting.py:72-83 | definition: the sum of the percentage errors over their number, or 0 when no class has a positive ground truth |
| Evaluation.Accuracy | evaluate_counting.py:76-84 | definition: the exactly matched ground-truth classes as a percentage of all ground-truth classes, or 0 when there are none |
| Evaluation.Metrics | evaluate_counting.py:82-95 | definition: the result record: the base name of the video path, both maps, the three scores (unrounded), the exact-match count and the number of ground-truth classes |
| Evaluation.BasenameIsLastSegment | evaluate_counting.py:87 | the video name is the suffix of the path after its last '/' and contains no '/' |
| Evaluation.Abs | evaluate_counting.py:69 | the absolute error is the difference or its negation, and is non-negative |
| Evaluation.Errors | evaluate_counting.py:64-70 | the per-class errors are defined for exactly the ground-truth classes |
| Evaluation.ErrorsZeroIffMatch | evaluate_counting.py:69-78 | a class's error is zero if and only if its prediction (0 when missing) equals its ground truth |
| Evaluation.PercentageErrorsDomain | evaluate_counting.py:72-74 | percentage errors exist for exactly the classes with positive ground truth, are non-negative, and are zero exactly for the predicted-exactly classes |
| Evaluation.PercentageError | evaluate_counting.py:74 | a percentage error of a positive expected count is non-negative |
| Evaluation.PercentageErrorZero | evaluate_counting.py:74 | a percentage error is zero if and only if the prediction equals the expected count |
| Evaluation.Matched | evaluate_counting.py:77-78 | the exactly predicted classes are ground-truth classes |
| Evaluation.CalculateMetrics | evaluate_counting.py:53-95 | the loop over the ground-truth classes, in whatever order the set yields them, returns the reference metrics: MAE, MAPE and accuracy of the whole ground truth, the exact-match count and the number of ground-truth classes |
| Evaluation.LoopDone | evaluate_counting.py:82-95 | once every ground-truth class has been visited once, the means of the accumulated lists, the match counter and the visit count make up exactly the reference result |
| Evaluation.ErrorList | evaluate_counting.py:59-70 | definition: the `errors` list after visiting some classes, one absolute error per visited class in visiting order |
| Evaluation.PercentageErrorList | evaluate_counting.py:60-74 | definition: the `percentage_errors` list after visiting some classes, one entry per visited class with a positive ground truth |
| Evaluation.MatchCount | evaluate_counting.py:61-78 | definition: the `correct` counter after visiting some classes, one per class predicted exactly |
| Evaluation.VisitStep | evaluate_counting.py:64-79 | visiting one more class appends its error, appends its percentage error only when its ground truth is positive, and counts it as correct only when it matches |
| Evaluation.MetricsFromItems | evaluate_counting.py:82-84 | the means of the accumulated lists, in visiting order, equal the reference MAE, MAPE and accuracy of the visited classes |
| Evaluation.ErrorListTotal | evaluate_counting.py:82 | the sum of the accumulated errors equals the sum of the per-class errors, one per distinct visited class |
| Evaluation.PercentageErrorListTotal | evaluate_counting.py:83 | the accumulated percentage errors have as many entries and the same sum as the per-class percentage errors |
| Evaluation.MatchCountMatched | evaluate_counting.py:77-79 | the correct counter equals the number of exactly matched classes |
| Evaluation.ErrorsStep | evaluate_counting.py:64-70 | adding a fresh class adds its absolute error to the error total |
| Evaluation.PercentageErrorsStep | evaluate_counting.py:72-74 | adding a fresh class adds its percentage error when its ground truth is positive and leaves the percentage errors unchanged otherwise |
| Evaluation.MatchedStep | evaluate_counting.py:76-78 | adding a fresh class raises the match count by one exactly when it is predicted exactly |
| Evaluation.MatchedAll | evaluate_counting.py:77-79 | the correct count is at most the total, and equals it if and only if every ground-truth class is matched |
| Evaluation.PercentBounds | evaluate_counting.py:84 | a percentage of a part of a whole lies in [0, 100], and is 100 exactly when the whole is positive and the part is all of it |
| Evaluation.ScoreBounds | evaluate_counting.py:82-84 | correct <= total, MAE >= 0, MAPE >= 0, and 0 <= accuracy <= 100 |
| Evaluation.MaeNonNegative | evaluate_counting.py:82 | MAE is non-negative |
| Evaluation.MapeNonNegative | evaluate_counting.py:83 | MAPE is non-negative |
| Evaluation.AccuracyBounds | evaluate_counting.py:84 | accuracy lies in [0, 100] |
| Evaluation.AccuracyFullIffAllMatch | evaluate_counting.py:77-84 | accuracy is 100 if and only if the ground truth is non-empty and every ground-truth class is predicted exactly |
| Evaluation.MaeZeroIffAllMatch | evaluate_counting.py:69-82 | MAE is 0 if and only if every ground-truth class is predicted exactly, that is, if and only if correct equals total |
| Evaluation.MetricsIgnorePredictedOnly | evaluate_counting.py:57-65 | predictions that agree on the ground-truth classes get the same MAE, MAPE, accuracy and match count, so predicted-only classes are ignored |
| Evaluation.SameErrorsOnGroundTruth | evaluate_counting.py:57-78 | predictions that agree on the ground-truth classes have the same errors, percentage errors and matches |
| Evaluation.ZeroGroundTruthExample | evaluate_counting.py:64-84 | for ground truth {a: 0, b: 10} and prediction {a: 5, b: 8}: MAE 3.5, MAPE 20 (class a is left out of MAPE), accuracy 0 |
| Evaluation.ZeroGroundTruthMae | evaluate_counting.py:82 | the MAE of that example is 3.5 |
| Evaluation.ZeroGroundTruthMape | evaluate_counting.py:83 | the MAPE of that example is 20 |
| Evaluation.ZeroGroundTruthAccuracy | evaluate_counting.py:84 | the accuracy of that example is 0 |
| Evaluation.ExactClassEntersMapeExample | evaluate_counting.py:64-84 | for ground truth {horse: 2, cow: 1} and prediction {horse: 2, cow: 0}: MAE 0.5, MAPE 50 (the exactly predicted horse enters with 0), accuracy 50 |
| Evaluation.ExactClassMae | evaluate_counting.py:82 | the MAE of that example is 0.5 |
| Evaluation.ExactClassMape | evaluate_counting.py:83 | the MAPE of that example is 50 |
| Evaluation.ExactClassAccuracy | evaluate_counting.py:84 | the accuracy of that example is 50 |
| Evaluation.Maes | evaluate_counting.py:151 | definition: the generator expression listing each result's MAE, in result order |
| Evaluation.Mapes | evaluate_counting.py:152 | definition: the generator expression listing each result's MAPE, in result order |
| Evaluation.Accuracies | evaluate_counting.py:153 | definition: the generator expression listing each result's accuracy, in result order |
| Evaluation.Averages | evaluate_counting.py:126-153 | there are no averages exactly when there are no results |
| Evaluation.AveragesBetweenExtremes | evaluate_counting.py:151-153 | each video weighs the same: the overall accuracy lies between any bounds that hold for every per-video accuracy |
| Evaluation.MetricsWellScored | evaluate_counting.py:82-95 | every computed result carries the reference scores of its own predicted and ground-truth maps |
| Evaluation.AveragesInRange | evaluate_counting.py:151-153 | over well-scored results, the average MAE and MAPE are non-negative and the average accuracy lies in [0, 100] |
| Evaluation.AllWellScoredAppend | evaluate_counting.py:50 | joining two lists of well-scored results gives a well-scored list |
| Evaluation.BatchWellScored | evaluate_counting.py:97-119 | every result `evaluate_all` appends carries the reference scores of its own maps |
| Evaluation.BatchOverallInRange | evaluate_counting.py:97-153 | appending the batch to well-scored results keeps them well scored, and the overall averages of the whole list are in range |
| Evaluation.OverallInRange | evaluate_counting.py:128-153 | over well-scored results, the averages exist exactly when there is a result, and then the average MAE and MAPE are non-negative and the average accuracy lies in [0, 100] |
| Evaluation.AverageMaeNonNegative | evaluate_counting.py:151 | the average MAE of well-scored results is non-negative |
| Evaluation.AverageMapeNonNegative | evaluate_counting.py:152 | the average MAPE of well-scored results is non-negative |
| Evaluation.AverageAccuracyInRange | evaluate_counting.py:153 | the average accuracy of well-scored results lies in [0, 100] |
| Evaluation.VideoCounts | evaluate_counting.py:27-39 | one count map per frame read |
| Evaluation.VideoStep | evaluate_counting.py:27-37 | one more frame appends its counts and raises the video's maxima by them |
| Evaluation.VideoResult | evaluate_counting.py:24-48 | definition: the metrics of the per-class maxima over the video's frame counts against its ground truth |
| Evaluation.Evaluable | evaluate_counting.py:114-118 | definition: the path exists and its video can be opened |
| Evaluation.BatchResults | evaluate_counting.py:109-118 | the batch yields at most one result per ground-truth entry |
| Evaluation.BatchStep | evaluate_counting.py:109-118 | one more entry adds its result and its frames exactly when its path exists and its video opens |
| Evaluation.BatchCountsEvaluable | evaluate_counting.py:109-118 | the number of results equals the number of entries whose video exists and opens, so skipped videos are not in the averages' denominator |
| Evaluation.BatchResultsStep | evaluate_counting.py:114-118 | one more entry adds one result if its video is evaluable and none otherwise |
| Evaluation.EvaluableIndicesStep | evaluate_counting.py:114-118 | one more entry adds one evaluable index if its video is evaluable and none otherwise |
| Evaluation.CountingEvaluator.constructor | evaluate_counting.py:9-12 | a fresh detector whose class names and ids are exactly the configured ones, and no results (so trivially all well scored) |
| Evaluation.CountingEvaluator.EvaluateVideo | evaluate_counting.py:14-51 | an unopenable video gives None and changes nothing; otherwise every frame goes through the detector and exactly one result is appended: the metrics of the per-class maxima over the video's frames; results that were all well scored stay so |
| Evaluation.CountingEvaluator.ScanFrames | evaluate_counting.py:24-39 | the frame loop returns, for each class, the maximum of its counts over the video's frames, and passes every frame through the detector |
| Evaluation.CountingEvaluator.EvaluateAll | evaluate_counting.py:97-121 | the results grow by one result per entry whose path exists and whose video opens, in entry order; the overall averages are those of all results and absent exactly when there are none; when the earlier results were well scored, the average MAE and MAPE are non-negative and the average accuracy lies in [0, 100] |
| App.Window | main.py:83-86 | definition: the last min(n, 30) rates of the history, oldest first |
| App.SaveStep | main.py:99-104 | definition: when at least 15 seconds have passed since the gate last fired, the frame's counts are written if non-empty and the gate's time becomes now; otherwise nothing changes |
| App.Throttle | main.py:99-104 | definition: the save gate applied to every frame in turn with that frame's clock reading and counts |
| App.FirstQuit | main.py:114-117 | definition: the index of the first frame on which 'q' is pressed, or the number of frames if there is none |
| App.Consumed | main.py:68-117 | definition: the number of frames whose body runs: up to and including the 'q' frame, or all frames when the stream ends first |
| App.FirstQuitIsFirst | main.py:114-117 | the quitting frame is the first on which 'q' is pressed: no earlier frame has it |
| App.ConsumedBounds | main.py:114-123 | the frames read exceed the frames counted by one exactly when 'q' ended the loop |
| App.QuitStep | main.py:114-117 | a frame no later than the first 'q' frame is a 'q' frame exactly when it is the first one |
| App.WindowPush | main.py:83-86 | appending a rate and dropping the oldest once over 30 yields exactly the last 30 rates of the longer history |
| App.WindowIsRecent | main.py:83-86 | the window holds min(n, 30) rates, namely the newest ones in arrival order |
| App.SaveStepMonotone | main.py:99-104 | the gate only appends writes, adds at most one per frame, never moves its time backwards, and moves it by at least 15 when it fires |
| App.SaveStepSpaced | main.py:99-104 | one pass of the gate keeps every write non-empty and consecutive writes at least 15 seconds apart |
| App.ThrottleSpaced | main.py:99-104 | over any frames, the writes stay non-empty and at least 15 seconds apart, only grow at the end, at most one per frame, and the gate's time never decreases |
| App.ThrottleWritesFrames | main.py:99-103 | every write stores some frame's counts under that frame's clock reading |
| App.TickStep | main.py:65-123 | one more frame extends the rates, the detector's counts and the gate's state by that frame |
| App.DetectionApp.constructor | main.py:15-30 | a fresh detector whose class names and ids are exactly the configured ones, frame counter 0, the gate's clock at the start time, and no writes |
| App.DetectionApp.SaveIfDue | main.py:99-104 | once 15 seconds have passed since the gate last fired, it stores the counts if they are non-empty and resets its clock to now either way; before that nothing changes |
| App.DetectionApp.ProcessFrame | main.py:66-123 | one loop pass runs the detector, applies the window's append-and-drop and the gate, and advances the frame counter unless 'q' was pressed |
| App.DetectionApp.Run | main.py:36-123 | an unopenable source changes nothing; otherwise the frames up to and including the first 'q' (or all frames) are detected and gated, the counter advances by the frames before the 'q', and the returned window is the last 30 rates |

## Left out

- Object detection, that is YOLO inference and box extraction. Each frame is the sequence of
  (class id, class name) pairs the model returns. Box corners, confidences and timestamps are
  floating-point or clock values and do not affect counting.
- Drawing, display, video capture and recording: `draw_detections`, `draw_statistics`,
  `imshow` and `VideoWriter`. They touch only pixels.
- `src/database.py` and `src/dashboard.py`. They wrap the InfluxDB client and a Streamlit UI.
  A `save_animal_counts` call is a `Write` record appended to `DetectionApp.written`. What
  the call then does is not modelled: it returns early when the client is disconnected and
  swallows write errors, so a record may stand for a call that stored nothing.
- Reading configuration and ground truth from YAML and JSON, and `save_results`. These are
  file I/O. Configured classes and ground truth are parameters.
- Console output: `print_summary`'s per-video listing, the `show_detection_info` key 'i', the
  messages of `run`, and the printing in `save_stats`. The 's' key reads the summary and
  discards it. Two of these printing steps can raise instead; they are listed under
  App.DetectionApp.Run below.
- `KeyboardInterrupt` handling in `run`. It is an external signal.
- Evaluation.CalculateMetrics: the scores are exact rationals. The source rounds MAE, MAPE and
  accuracy to two decimals.
- Evaluation.Averages: averages the unrounded per-video scores. The source averages the rounded
  values stored in each result.
- Evaluation.CountingEvaluator.EvaluateAll:
  - The ground-truth file is a sequence of (path, ground truth) entries.
  - Each path is looked up in the map of existing videos exactly as given. Joining a relative
    path onto `data/videos` (the `os.path.isabs` test) is not modelled, because it is path
    handling on the file system.
  - A missing path and an unopenable video both add no result.
  - The ranges of the averages are stated on condition that the results held beforehand were
    well scored (each carrying the reference scores of its own maps). The constructor starts
    with no results and `EvaluateVideo` keeps the property, so every evaluator that only goes
    through these methods meets the condition. The property is a postcondition of each method
    rather than a conjunct of `Valid()`.
- Evaluation.CountingEvaluator.EvaluateVideo: the frame counter of the frame loop is not
  modelled, because nothing reads it.
- App.DetectionApp.Run:
  - Frame rates are given per frame. The processing-time measurement and its reciprocal are
    not modelled, because they are floating-point clock arithmetic.
  - Timestamps are integer seconds, where the source uses floating-point seconds.
  - The rate window stays local to the method, as in the source. It is returned so that its
    contents can be stated.
  - Two exception paths of the source are not modelled; `Run` and `ProcessFrame` return
    normally in both cases.
    - The `finally` block of `run` (main.py:128-137) divides by the length of the rate
      window (main.py:136). When the source opens but its first read fails, the window is
      empty: `run` raises ZeroDivisionError there and never reaches `save_stats`. The model's
      `Run` on an empty frame sequence returns with an empty window.
    - `save_stats` prints its per-class line after its loop over the configured classes
      (main.py:149-156). With no configured class the loop variable is never bound and the
      print raises UnboundLocalError. Pressing 's' (main.py:118-119) then ends `run` with that
      exception, and the `save_stats` call in the `finally` block (main.py:137) raises it too.
      The model's 's' branch only reads the summary.
- Evaluation.Basename: splits only on '/', as POSIX `os.path.basename` does. On Windows the
  source's `os.path` also splits on '\\' and after a drive letter's ':'; that is not
  modelled, because path syntax is platform-dependent.
- Evaluation.GroundTruth: expected counts are any integers, as the JSON file is not
  validated. Detected counts are naturals.

