/** The bookkeeping of `COCOAnimalDetectionApp.run`: the window of recent frame rates, the
    time-gated writes of frame counts to the database, the frame counter and the two ways
    the loop ends. Frames, clock readings and keypresses arrive as one input per frame. */
module App {
  import opened Aggregates
  import opened Detector

  /** The keypress read after a frame: 'q', 's', 'i' or anything else (including none). */
  datatype Key = Quit | SaveStats | ShowInfo | OtherKey

  /** What one successful read delivers: the detector's boxes for the frame, the frame rate
      measured for it, the clock reading taken before the save gate, and the key pressed. */
  datatype Tick = Tick(boxes: seq<Box>, fps: real, now: int, key: Key)

  /** One call of `save_animal_counts`: when it happened and the counts it stored. */
  datatype Write = Write(time: int, counts: Counts)

  /** The save throttle's state: the last time the gate fired and every write so far. */
  datatype SaveLog = SaveLog(lastSave: int, writes: seq<Write>)

  /** The number of most recent frame rates kept. */
  const WindowSize: nat := 30

  /** The number of seconds that must pass between two firings of the save gate. */
  const SaveInterval: int := 15

  /** The last min(|s|, WindowSize) entries of s, oldest first. */
  function Window(s: seq<real>): seq<real>
  {
    if |s| <= WindowSize then s else s[|s| - WindowSize..]
  }

  /** The frame rates of the given frames, in arrival order. */
  function Rates(ticks: seq<Tick>): (r: seq<real>)
    ensures |r| == |ticks|
  {
    if ticks == [] then [] else Rates(ticks[..|ticks| - 1]) + [ticks[|ticks| - 1].fps]
  }

  /** The frame counts the detector produces for the given frames, in arrival order. */
  function StreamCounts(ticks: seq<Tick>, cocoIds: set<int>, names: set<ClassName>): (r: seq<Counts>)
    ensures |r| == |ticks|
  {
    if ticks == [] then []
    else StreamCounts(ticks[..|ticks| - 1], cocoIds, names) + [FrameCounts(ticks[|ticks| - 1].boxes, cocoIds, names)]
  }

  /** One pass of the save gate at time now with the frame's counts. */
  function SaveStep(s: SaveLog, now: int, counts: Counts): SaveLog
  {
    if now - s.lastSave >= SaveInterval then
      SaveLog(now, if counts != map[] then s.writes + [Write(now, counts)] else s.writes)
    else s
  }

  /** The save gate applied to every frame in turn. */
  function Throttle(s: SaveLog, ticks: seq<Tick>, cocoIds: set<int>, names: set<ClassName>): SaveLog
  {
    if ticks == [] then s
    else
      var t := ticks[|ticks| - 1];
      SaveStep(Throttle(s, ticks[..|ticks| - 1], cocoIds, names), t.now, FrameCounts(t.boxes, cocoIds, names))
  }

  /** The index of the first frame on which 'q' is pressed, or the number of frames if none. */
  function FirstQuit(ticks: seq<Tick>): nat
  {
    if ticks == [] then 0
    else if ticks[0].key == Quit then 0
    else 1 + FirstQuit(ticks[1..])
  }

  /** The number of frames whose body runs: up to and including the 'q' frame, or all of them. */
  function Consumed(ticks: seq<Tick>): nat
  {
    if FirstQuit(ticks) < |ticks| then FirstQuit(ticks) + 1 else |ticks|
  }

  /** Every write stored non-empty counts, consecutive writes are at least SaveInterval apart,
      and the last write happened no later than the last firing of the gate. */
  ghost predicate Spaced(writes: seq<Write>, lastSave: int)
  {
    && (forall i | 0 <= i < |writes| :: writes[i].counts != map[])
    && (forall i | 0 <= i < |writes| - 1 :: writes[i].time + SaveInterval <= writes[i + 1].time)
    && (writes != [] ==> writes[|writes| - 1].time <= lastSave)
  }

  /** FirstQuit is the first 'q' frame: no frame before it is one, and it is one unless it is
      past the end. */
  lemma {:induction false} FirstQuitIsFirst(ticks: seq<Tick>)
    ensures FirstQuit(ticks) <= |ticks|
    ensures forall j | 0 <= j < FirstQuit(ticks) :: ticks[j].key != Quit
    ensures FirstQuit(ticks) < |ticks| ==> ticks[FirstQuit(ticks)].key == Quit
  {
    if ticks != [] && ticks[0].key != Quit {
      FirstQuitIsFirst(ticks[1..]);
      forall j | 0 <= j < FirstQuit(ticks)
        ensures ticks[j].key != Quit
      {
        if j > 0 {
          assert ticks[j] == ticks[1..][j - 1];
        }
      }
    }
  }

  /** The frames whose body runs are at least one more than those that finish it exactly when
      'q' ends the loop early. */
  lemma ConsumedBounds(ticks: seq<Tick>)
    ensures FirstQuit(ticks) <= Consumed(ticks) <= |ticks|
    ensures Consumed(ticks) == FirstQuit(ticks) <==> FirstQuit(ticks) == |ticks|
  {
    FirstQuitIsFirst(ticks);
  }

  /** Before the first 'q' frame, a frame is the 'q' frame exactly when it is the first one. */
  lemma QuitStep(ticks: seq<Tick>, i: nat)
    requires i < |ticks| && i <= FirstQuit(ticks)
    ensures ticks[i].key == Quit <==> i == FirstQuit(ticks)
  {
    FirstQuitIsFirst(ticks);
  }

  /** Appending a rate and dropping the oldest once the list is over WindowSize long keeps
      exactly the window of the longer history. */
  lemma WindowPush(s: seq<real>, x: real)
    ensures var w := Window(s) + [x];
      Window(s + [x]) == if |w| > WindowSize then w[1..] else w
  {
    var w := Window(s) + [x];
    if |w| > WindowSize {
      assert w[1..] == (s + [x])[|s| + 1 - WindowSize..];
    }
  }

  /** The window never holds more than WindowSize rates and always ends with the newest ones. */
  lemma {:induction false} WindowIsRecent(s: seq<real>)
    ensures |Window(s)| == if |s| <= WindowSize then |s| else WindowSize
    ensures forall k | 0 <= k < |Window(s)| :: Window(s)[k] == s[|s| - |Window(s)| + k]
  {
  }

  /** Each write is appended at the end, the gate's time never moves backwards, and a fired
      gate leaves its time at least SaveInterval after the previous one. */
  lemma SaveStepMonotone(s: SaveLog, now: int, counts: Counts)
    ensures SaveStep(s, now, counts).lastSave >= s.lastSave
    ensures s.writes <= SaveStep(s, now, counts).writes
    ensures |SaveStep(s, now, counts).writes| <= |s.writes| + 1
    ensures SaveStep(s, now, counts).lastSave != s.lastSave ==>
      SaveStep(s, now, counts).lastSave >= s.lastSave + SaveInterval
  {
  }

  /** One pass of the gate keeps the writes well spaced. */
  lemma SaveStepSpaced(s: SaveLog, now: int, counts: Counts)
    requires Spaced(s.writes, s.lastSave)
    ensures Spaced(SaveStep(s, now, counts).writes, SaveStep(s, now, counts).lastSave)
  {
    if now - s.lastSave >= SaveInterval && counts != map[] {
      var w := s.writes + [Write(now, counts)];
      assert forall i | 0 <= i < |s.writes| :: w[i] == s.writes[i];
    }
  }

  /** Over any run of frames the writes stay well spaced and only ever grow at the end. */
  lemma {:induction false} ThrottleSpaced(s: SaveLog, ticks: seq<Tick>, cocoIds: set<int>, names: set<ClassName>)
    requires Spaced(s.writes, s.lastSave)
    ensures Spaced(Throttle(s, ticks, cocoIds, names).writes, Throttle(s, ticks, cocoIds, names).lastSave)
    ensures Throttle(s, ticks, cocoIds, names).lastSave >= s.lastSave
    ensures s.writes <= Throttle(s, ticks, cocoIds, names).writes
    ensures |Throttle(s, ticks, cocoIds, names).writes| <= |s.writes| + |ticks|
  {
    if ticks != [] {
      var front := ticks[..|ticks| - 1];
      var t := ticks[|ticks| - 1];
      var before := Throttle(s, front, cocoIds, names);
      ThrottleSpaced(s, front, cocoIds, names);
      SaveStepSpaced(before, t.now, FrameCounts(t.boxes, cocoIds, names));
      SaveStepMonotone(before, t.now, FrameCounts(t.boxes, cocoIds, names));
    }
  }

  /** Every write the gate adds over a run of frames stores some frame's counts under that
      frame's clock reading. */
  lemma {:induction false} ThrottleWritesFrames(s: SaveLog, ticks: seq<Tick>, cocoIds: set<int>, names: set<ClassName>)
    ensures s.writes <= Throttle(s, ticks, cocoIds, names).writes
    ensures forall k | |s.writes| <= k < |Throttle(s, ticks, cocoIds, names).writes| ::
      exists i | 0 <= i < |ticks| ::
        Throttle(s, ticks, cocoIds, names).writes[k] == Write(ticks[i].now, FrameCounts(ticks[i].boxes, cocoIds, names))
  {
    if ticks != [] {
      var n := |ticks| - 1;
      var front := ticks[..n];
      var before := Throttle(s, front, cocoIds, names);
      var after := Throttle(s, ticks, cocoIds, names);
      ThrottleWritesFrames(s, front, cocoIds, names);
      SaveStepMonotone(before, ticks[n].now, FrameCounts(ticks[n].boxes, cocoIds, names));
      forall k | |s.writes| <= k < |after.writes|
        ensures exists i | 0 <= i < |ticks| ::
          after.writes[k] == Write(ticks[i].now, FrameCounts(ticks[i].boxes, cocoIds, names))
      {
        if k < |before.writes| {
          var i :| 0 <= i < |front| &&
            before.writes[k] == Write(front[i].now, FrameCounts(front[i].boxes, cocoIds, names));
          assert after.writes[k] == before.writes[k];
          assert front[i] == ticks[i];
        } else {
          assert after.writes[k] == Write(ticks[n].now, FrameCounts(ticks[n].boxes, cocoIds, names));
        }
      }
    }
  }

  /** One more frame extends the rates, the counts and the throttle by that frame. */
  lemma TickStep(ticks: seq<Tick>, i: nat, s: SaveLog, cocoIds: set<int>, names: set<ClassName>)
    requires i < |ticks|
    ensures Rates(ticks[..i + 1]) == Rates(ticks[..i]) + [ticks[i].fps]
    ensures StreamCounts(ticks[..i + 1], cocoIds, names) ==
      StreamCounts(ticks[..i], cocoIds, names) + [FrameCounts(ticks[i].boxes, cocoIds, names)]
    ensures Throttle(s, ticks[..i + 1], cocoIds, names) ==
      SaveStep(Throttle(s, ticks[..i], cocoIds, names), ticks[i].now, FrameCounts(ticks[i].boxes, cocoIds, names))
  {
    assert ticks[..i + 1][..i] == ticks[..i];
  }

  /** `COCOAnimalDetectionApp`: the detector, the frame counter, the save gate's clock and
      the log of database writes. */
  class DetectionApp {
    const detector: AnimalDetector
    /** The number of frames that finished the loop body. */
    var frameCount: nat
    /** When the save gate last fired. */
    var lastSaveTime: int
    /** Every `save_animal_counts` call so far, oldest first. */
    var written: seq<Write>

    ghost predicate Valid()
      reads this, detector
    {
      detector.Valid() && Spaced(written, lastSaveTime)
    }

    /** Builds the detector from the configured classes; the gate's clock starts at startTime. */
    constructor (classes: seq<AnimalConfig>, startTime: int)
      ensures Valid()
      ensures fresh(detector)
      ensures detector.history == []
      ensures detector.animalClasses.Keys == set i | 0 <= i < |classes| :: classes[i].name
      ensures detector.cocoIds == set i | 0 <= i < |classes| :: classes[i].cocoId
      ensures frameCount == 0 && lastSaveTime == startTime && written == []
    {
      detector := new AnimalDetector(classes);
      frameCount := 0;
      lastSaveTime := startTime;
      written := [];
    }

    /** The save gate: once SaveInterval seconds have passed since it last fired, it stores the
        frame's counts if there are any and restarts its clock either way. */
    method SaveIfDue(now: int, counts: Counts)
      requires Valid()
      modifies this
      ensures Valid()
      ensures now - old(lastSaveTime) >= SaveInterval ==>
        lastSaveTime == now &&
        written == old(written) + (if counts != map[] then [Write(now, counts)] else [])
      ensures now - old(lastSaveTime) < SaveInterval ==>
        lastSaveTime == old(lastSaveTime) && written == old(written)
      ensures frameCount == old(frameCount)
    {
      SaveStepSpaced(SaveLog(lastSaveTime, written), now, counts);
      if now - lastSaveTime >= SaveInterval {
        if counts != map[] {
          written := written + [Write(now, counts)];
        }
        lastSaveTime := now;
      }
    }

    /** One pass of the loop body over a frame that was read: detection, the rate window's
        append and drop of the oldest, the save gate, and the frame counter, which advances
        unless 'q' was pressed. quit reports the 'q'. */
    method ProcessFrame(t: Tick, window: seq<real>, ghost rates: seq<real>) returns (next: seq<real>, quit: bool)
      requires Valid()
      requires window == Window(rates)
      modifies this, detector
      ensures Valid()
      ensures next == Window(rates + [t.fps])
      ensures quit <==> t.key == Quit
      ensures detector.history == old(detector.history) + [FrameCounts(t.boxes, detector.cocoIds, detector.animalClasses.Keys)]
      ensures SaveLog(lastSaveTime, written) ==
        SaveStep(SaveLog(old(lastSaveTime), old(written)), t.now, FrameCounts(t.boxes, detector.cocoIds, detector.animalClasses.Keys))
      ensures frameCount == old(frameCount) + (if quit then 0 else 1)
    {
      var detections, frameCounts := detector.DetectFrame(t.boxes);
      WindowPush(rates, t.fps);
      next := window + [t.fps];
      if |next| > WindowSize {
        next := next[1..];
      }
      SaveIfDue(t.now, frameCounts);
      quit := t.key == Quit;
      if !quit {
        if t.key == SaveStats {
          var summary := detector.GetSummary();
        }
        frameCount := frameCount + 1;
      }
    }

    /** `run`: nothing happens when the source cannot be opened; otherwise frames are processed
        until the source runs out or 'q' is pressed. Every frame that is read is detected,
        enters the rate window and passes the save gate; only frames that finish the body
        advance the frame counter, so the 'q' frame does not. Returns the final rate window. */
    method Run(source: Option<seq<Tick>>) returns (fpsHistory: seq<real>)
      requires Valid()
      modifies this, detector
      ensures Valid()
      ensures |fpsHistory| <= WindowSize
      ensures source.None? ==>
        && fpsHistory == []
        && frameCount == old(frameCount) && lastSaveTime == old(lastSaveTime) && written == old(written)
        && detector.history == old(detector.history)
      ensures source.Some? ==>
        var read := source.value[..Consumed(source.value)];
        && frameCount == old(frameCount) + FirstQuit(source.value)
        && fpsHistory == Window(Rates(read))
        && detector.history == old(detector.history) + StreamCounts(read, detector.cocoIds, detector.animalClasses.Keys)
        && SaveLog(lastSaveTime, written) ==
           Throttle(SaveLog(old(lastSaveTime), old(written)), read, detector.cocoIds, detector.animalClasses.Keys)
    {
      fpsHistory := [];
      if source.None? {
        return;
      }
      var ticks := source.value;
      ghost var start := SaveLog(lastSaveTime, written);
      ghost var names := detector.animalClasses.Keys;
      ghost var before := detector.history;
      ConsumedBounds(ticks);
      var i := 0;
      var quit := false;
      while i < |ticks| && !quit
        invariant 0 <= i <= |ticks|
        invariant Valid()
        invariant quit ==> FirstQuit(ticks) < |ticks| && i == FirstQuit(ticks) + 1
        invariant !quit ==> i <= FirstQuit(ticks)
        invariant frameCount == old(frameCount) + (if quit then i - 1 else i)
        invariant fpsHistory == Window(Rates(ticks[..i]))
        invariant detector.history == before + StreamCounts(ticks[..i], detector.cocoIds, names)
        invariant SaveLog(lastSaveTime, written) == Throttle(start, ticks[..i], detector.cocoIds, names)
      {
        QuitStep(ticks, i);
        TickStep(ticks, i, start, detector.cocoIds, names);
        AppendAssoc(before, StreamCounts(ticks[..i], detector.cocoIds, names),
                    [FrameCounts(ticks[i].boxes, detector.cocoIds, names)]);
        fpsHistory, quit := ProcessFrame(ticks[i], fpsHistory, Rates(ticks[..i]));
        i := i + 1;
      }
      WindowIsRecent(Rates(ticks[..i]));
    }
  }
}
