/** Per-frame animal counting and the running per-class maxima of `SimpleAnimalDetector`
    (src/detector.py). The detection model is abstracted as the sequence of boxes it
    returns for a frame, each reduced to its COCO class id and that id's class name. */
module Detector {
  import opened Aggregates

  /** One box of the model's output, as far as counting looks at it. */
  datatype Box = Box(classId: int, className: ClassName)

  /** One entry of the configured class list; its drawing colour is not modelled. */
  datatype AnimalConfig = AnimalConfig(name: ClassName, cocoId: int)

  /** The record kept for each accepted box (its confidence, box corners and timestamp are not modelled). */
  datatype DetectionRecord = DetectionRecord(className: ClassName, displayName: ClassName, cocoId: int)

  /** What `get_summary` returns. */
  datatype Summary = Summary(
    currentCounts: Counts,
    maxCounts: Counts,
    totalAnimals: nat,
    totalMax: nat,
    animalTypes: nat)

  /** The allow-list test: the class id is configured and the class name is a configured animal. */
  predicate Accepts(b: Box, cocoIds: set<int>, names: set<ClassName>)
  {
    b.classId in cocoIds && b.className in names
  }

  /** The counts of one frame: every accepted box increments its class's entry. */
  function FrameCounts(boxes: seq<Box>, cocoIds: set<int>, names: set<ClassName>): Counts
  {
    if boxes == [] then map[]
    else
      var prev := FrameCounts(boxes[..|boxes| - 1], cocoIds, names);
      var b := boxes[|boxes| - 1];
      if Accepts(b, cocoIds, names) then prev[b.className := Lookup(prev, b.className) + 1] else prev
  }

  /** Only configured animals are counted, and a class has an entry only once it has been seen. */
  lemma {:induction false} FrameCountsDomain(boxes: seq<Box>, cocoIds: set<int>, names: set<ClassName>)
    ensures FrameCounts(boxes, cocoIds, names).Keys <= names
    ensures forall c | c in FrameCounts(boxes, cocoIds, names) :: FrameCounts(boxes, cocoIds, names)[c] > 0
  {
    if boxes != [] {
      FrameCountsDomain(boxes[..|boxes| - 1], cocoIds, names);
    }
  }

  /** The detection records of one frame, one per accepted box, in box order. */
  function Detections(boxes: seq<Box>, cocoIds: set<int>, classes: map<ClassName, ClassName>): seq<DetectionRecord>
  {
    if boxes == [] then []
    else
      var prev := Detections(boxes[..|boxes| - 1], cocoIds, classes);
      var b := boxes[|boxes| - 1];
      if Accepts(b, cocoIds, classes.Keys) then prev + [DetectionRecord(b.className, classes[b.className], b.classId)]
      else prev
  }

  /** At most one record per box, each of a configured class with its display name and a configured id. */
  lemma {:induction false} DetectionsConfigured(boxes: seq<Box>, cocoIds: set<int>, classes: map<ClassName, ClassName>)
    ensures |Detections(boxes, cocoIds, classes)| <= |boxes|
    ensures forall k | 0 <= k < |Detections(boxes, cocoIds, classes)| ::
      var d := Detections(boxes, cocoIds, classes)[k];
      d.className in classes && d.displayName == classes[d.className] && d.cocoId in cocoIds
  {
    if boxes != [] {
      DetectionsConfigured(boxes[..|boxes| - 1], cocoIds, classes);
    }
  }

  /** The indices of the boxes that pass the allow-list with class name c. */
  function AcceptedIndices(boxes: seq<Box>, cocoIds: set<int>, names: set<ClassName>, c: ClassName): set<nat>
  {
    set i: nat | i < |boxes| && Accepts(boxes[i], cocoIds, names) && boxes[i].className == c
  }

  /** A frame's count for class c is the number of boxes accepted with class name c;
      boxes that fail the allow-list are not counted anywhere. */
  lemma {:induction false} FrameCountsCountBoxes(boxes: seq<Box>, cocoIds: set<int>, names: set<ClassName>, c: ClassName)
    ensures Lookup(FrameCounts(boxes, cocoIds, names), c) == |AcceptedIndices(boxes, cocoIds, names, c)|
  {
    if boxes != [] {
      var n := |boxes| - 1;
      var front := boxes[..n];
      FrameCountsCountBoxes(front, cocoIds, names, c);
      var before := AcceptedIndices(front, cocoIds, names, c);
      var after := AcceptedIndices(boxes, cocoIds, names, c);
      if Accepts(boxes[n], cocoIds, names) && boxes[n].className == c {
        assert after == before + {n};
        assert n !in before;
      } else {
        assert after == before;
      }
    }
  }

  /** One detection record is kept per count increment, so the number of records
      equals the sum of the frame's counts. */
  lemma {:induction false} DetectionsMatchCounts(boxes: seq<Box>, cocoIds: set<int>, classes: map<ClassName, ClassName>)
    ensures |Detections(boxes, cocoIds, classes)| == Total(FrameCounts(boxes, cocoIds, classes.Keys))
  {
    if boxes == [] {
      assert FrameCounts(boxes, cocoIds, classes.Keys) == map[];
    } else {
      var front := boxes[..|boxes| - 1];
      var b := boxes[|boxes| - 1];
      DetectionsMatchCounts(front, cocoIds, classes);
      if Accepts(b, cocoIds, classes.Keys) {
        TotalIncrement(FrameCounts(front, cocoIds, classes.Keys), b.className);
      }
    }
  }

  /** The pointwise raise of the running maxima by one frame's counts. */
  function MaxUpdate(m: Counts, f: Counts): Counts
  {
    map c | c in m.Keys + f.Keys :: if c in f then Max(Lookup(m, c), f[c]) else m[c]
  }

  /** The raised maxima cover both maps, dominate both, take each value from one of them,
      and leave classes absent from the frame unchanged. */
  lemma MaxUpdateBounds(m: Counts, f: Counts)
    ensures MaxUpdate(m, f).Keys == m.Keys + f.Keys
    ensures forall c | c in m :: MaxUpdate(m, f)[c] >= m[c]
    ensures forall c | c in f ::
      && MaxUpdate(m, f)[c] >= f[c]
      && (MaxUpdate(m, f)[c] == f[c] || (c in m && MaxUpdate(m, f)[c] == m[c]))
    ensures forall c | c in m && c !in f :: MaxUpdate(m, f)[c] == m[c]
  {
  }

  /** The running maxima after a sequence of frames, starting from no counts at all. */
  function MaxOverFrames(frames: seq<Counts>): Counts
  {
    if frames == [] then map[]
    else MaxUpdate(MaxOverFrames(frames[..|frames| - 1]), frames[|frames| - 1])
  }

  /** The running maximum of class c is the largest count of c in any frame; the class
      has an entry exactly when it appeared in some frame. */
  lemma MaxOverFramesIsMaximum(frames: seq<Counts>, c: ClassName)
    ensures c in MaxOverFrames(frames) <==> exists i | 0 <= i < |frames| :: c in frames[i]
    ensures forall i | 0 <= i < |frames| :: Lookup(frames[i], c) <= Lookup(MaxOverFrames(frames), c)
    ensures c in MaxOverFrames(frames) ==>
      exists i | 0 <= i < |frames| :: c in frames[i] && frames[i][c] == MaxOverFrames(frames)[c]
  {
    MaxOverFramesDomain(frames, c);
    MaxOverFramesBound(frames, c);
    MaxOverFramesAttained(frames, c);
  }

  lemma {:induction false} MaxOverFramesDomain(frames: seq<Counts>, c: ClassName)
    ensures c in MaxOverFrames(frames) <==> exists i | 0 <= i < |frames| :: c in frames[i]
  {
    if frames != [] {
      var n := |frames| - 1;
      var front := frames[..n];
      MaxOverFramesDomain(front, c);
      MaxUpdateBounds(MaxOverFrames(front), frames[n]);
      if c in MaxOverFrames(frames) && c !in frames[n] {
        var i :| 0 <= i < n && c in front[i];
        assert frames[i] == front[i];
      }
      if exists i | 0 <= i < |frames| :: c in frames[i] {
        var i :| 0 <= i < |frames| && c in frames[i];
        if i < n {
          assert front[i] == frames[i];
        }
      }
    }
  }

  lemma {:induction false} MaxOverFramesBound(frames: seq<Counts>, c: ClassName)
    ensures forall i | 0 <= i < |frames| :: Lookup(frames[i], c) <= Lookup(MaxOverFrames(frames), c)
  {
    if frames != [] {
      var n := |frames| - 1;
      var front := frames[..n];
      MaxOverFramesBound(front, c);
      MaxUpdateBounds(MaxOverFrames(front), frames[n]);
      forall i | 0 <= i < |frames|
        ensures Lookup(frames[i], c) <= Lookup(MaxOverFrames(frames), c)
      {
        if i < n {
          assert frames[i] == front[i];
        }
      }
    }
  }

  lemma {:induction false} MaxOverFramesAttained(frames: seq<Counts>, c: ClassName)
    ensures c in MaxOverFrames(frames) ==>
      exists i | 0 <= i < |frames| :: c in frames[i] && frames[i][c] == MaxOverFrames(frames)[c]
  {
    if frames != [] {
      var n := |frames| - 1;
      var front := frames[..n];
      MaxOverFramesAttained(front, c);
      var before := MaxOverFrames(front);
      var now := MaxOverFrames(frames);
      MaxUpdateBounds(before, frames[n]);
      if c in now && !(c in frames[n] && now[c] == frames[n][c]) {
        assert c in before && now[c] == before[c];
        var i :| 0 <= i < n && c in front[i] && front[i][c] == before[c];
        assert c in frames[i] && frames[i][c] == now[c];
      }
    }
  }

  /** The in-place loop that raises each running maximum to the frame's count where that is larger. */
  method RaiseMaxima(m: Counts, f: Counts) returns (r: Counts)
    ensures r == MaxUpdate(m, f)
  {
    r := m;
    var rest := f.Keys;
    while rest != {}
      invariant rest <= f.Keys
      invariant r.Keys == m.Keys + (f.Keys - rest)
      invariant forall c | c in r :: r[c] == if c in f && c !in rest then Max(Lookup(m, c), f[c]) else m[c]
      decreases rest
    {
      var c :| c in rest;
      r := r[c := Max(Lookup(r, c), f[c])];
      rest := rest - {c};
    }
  }

  /** `SimpleAnimalDetector`: the configured allow-list and the current and maximum counts. */
  class AnimalDetector {
    /** Configured class name to display name (the two are the same string). */
    const animalClasses: map<ClassName, ClassName>
    /** The configured COCO class ids. */
    const cocoIds: set<int>
    /** The counts of the most recent frame. */
    var currentCounts: Counts
    /** The running per-class maxima. */
    var maxCounts: Counts
    /** The counts of every frame processed so far, oldest first. */
    ghost var history: seq<Counts>

    ghost predicate Valid()
      reads this
    {
      && maxCounts == MaxOverFrames(history)
      && currentCounts == (if history == [] then map[] else history[|history| - 1])
      && maxCounts.Keys <= animalClasses.Keys
      && forall c | c in currentCounts :: c in maxCounts && currentCounts[c] <= maxCounts[c]
    }

    /** Builds the allow-list from the configured classes; both count maps start empty. */
    constructor (classes: seq<AnimalConfig>)
      ensures Valid()
      ensures animalClasses.Keys == set i | 0 <= i < |classes| :: classes[i].name
      ensures forall n | n in animalClasses :: animalClasses[n] == n
      ensures cocoIds == set i | 0 <= i < |classes| :: classes[i].cocoId
      ensures currentCounts == map[] && maxCounts == map[] && history == []
    {
      var names: map<ClassName, ClassName> := map[];
      var ids: set<int> := {};
      var i := 0;
      while i < |classes|
        invariant 0 <= i <= |classes|
        invariant names.Keys == set j | 0 <= j < i :: classes[j].name
        invariant forall n | n in names :: names[n] == n
        invariant ids == set j | 0 <= j < i :: classes[j].cocoId
      {
        names := names[classes[i].name := classes[i].name];
        ids := ids + {classes[i].cocoId};
        i := i + 1;
      }
      animalClasses := names;
      cocoIds := ids;
      currentCounts := map[];
      maxCounts := map[];
      history := [];
    }

    /** `detect_frame`: counts the accepted boxes, raises the maxima, and replaces the current counts. */
    method DetectFrame(boxes: seq<Box>) returns (detections: seq<DetectionRecord>, counts: Counts)
      requires Valid()
      modifies this
      ensures Valid()
      ensures counts == FrameCounts(boxes, cocoIds, animalClasses.Keys)
      ensures detections == Detections(boxes, cocoIds, animalClasses)
      ensures currentCounts == counts
      ensures maxCounts == MaxUpdate(old(maxCounts), counts)
      ensures history == old(history) + [counts]
    {
      detections := [];
      var frameCounts: Counts := map[];
      var i := 0;
      while i < |boxes|
        invariant 0 <= i <= |boxes|
        invariant frameCounts == FrameCounts(boxes[..i], cocoIds, animalClasses.Keys)
        invariant detections == Detections(boxes[..i], cocoIds, animalClasses)
      {
        var b := boxes[i];
        assert boxes[..i + 1][..i] == boxes[..i];
        if b.classId in cocoIds && b.className in animalClasses {
          frameCounts := frameCounts[b.className := Lookup(frameCounts, b.className) + 1];
          detections := detections + [DetectionRecord(b.className, animalClasses[b.className], b.classId)];
        }
        i := i + 1;
      }
      assert boxes[..|boxes|] == boxes;
      FrameCountsDomain(boxes, cocoIds, animalClasses.Keys);
      MaxUpdateBounds(maxCounts, frameCounts);
      maxCounts := RaiseMaxima(maxCounts, frameCounts);
      currentCounts := frameCounts;
      assert (history + [frameCounts])[..|history|] == history;
      history := history + [frameCounts];
      counts := frameCounts;
    }

    /** `get_summary`: the two count maps, their totals and the number of configured classes. */
    method GetSummary() returns (s: Summary)
      requires Valid()
      ensures s.currentCounts == currentCounts && s.maxCounts == maxCounts
      ensures s.totalAnimals == Total(currentCounts) && s.totalMax == Total(maxCounts)
      ensures s.animalTypes == |animalClasses|
      ensures s.totalAnimals <= s.totalMax
    {
      var totalAnimals := SumValues(currentCounts);
      var totalMax := SumValues(maxCounts);
      TotalMonotone(currentCounts, maxCounts);
      s := Summary(currentCounts, maxCounts, totalAnimals, totalMax, |animalClasses|);
    }
  }

  /** Over any run of frames from a fresh detector, every current count is bounded by the
      running maximum, and so the summary's current total never exceeds its maximum total. */
  lemma CurrentBoundedByMaximum(frames: seq<Counts>)
    requires frames != []
    ensures forall c | c in frames[|frames| - 1] ::
      c in MaxOverFrames(frames) && frames[|frames| - 1][c] <= MaxOverFrames(frames)[c]
    ensures Total(frames[|frames| - 1]) <= Total(MaxOverFrames(frames))
  {
    TotalMonotone(frames[|frames| - 1], MaxOverFrames(frames));
  }
}
