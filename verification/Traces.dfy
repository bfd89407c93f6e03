/** Runs together with the steps they take. */
module Traces {
  import opened Network
  import opened Invariants
  import opened Exclusion

  /** A run from the initial state, with its steps. */
  ghost predicate IsTrace(c: Config, run: seq<State>, steps: seq<Step>)
    requires ValidConfig(c)
  {
    Segment(c, run, steps) && run[0] == Init(c)
  }

  lemma TraceIsRun(c: Config, run: seq<State>, steps: seq<Step>)
    requires ValidConfig(c) && IsTrace(c, run, steps)
    ensures IsRun(c, run)
  {
    hide NextVia, Init, Shape;
    forall i ensures StepAt(c, run, i) {
      assert Via(c, run, steps, i);
      if 0 <= i < |run| - 1 {
        assert NextVia(c, run[i], steps[i], run[i + 1]);
      }
    }
  }

  /** Every run has steps. */
  lemma {:induction false} StepsOf(c: Config, run: seq<State>) returns (steps: seq<Step>)
    requires ValidConfig(c) && IsRun(c, run)
    ensures IsTrace(c, run, steps)
    decreases |run|
  {
    hide NextVia, Shape;
    if |run| == 1 {
      steps := [];
    } else {
      var pre := run[..|run| - 1];
      forall i ensures StepAt(c, pre, i) {
        assert StepAt(c, run, i);
      }
      var some := StepsOf(c, pre);
      assert StepAt(c, run, |run| - 2);
      var step :| NextVia(c, run[|run| - 2], step, run[|run| - 1]);
      steps := some + [step];
      forall i ensures Via(c, run, steps, i) {
        assert Via(c, pre, some, i);
        if 0 <= i < |some| {
          assert steps[i] == some[i];
        }
      }
    }
  }

  lemma ReachableTrace(c: Config, s: State) returns (run: seq<State>, steps: seq<Step>)
    requires ValidConfig(c) && Reachable(c, s)
    ensures IsTrace(c, run, steps) && run[|run| - 1] == s
  {
    hide StepAt, Init, Segment;
    run :| IsRun(c, run) && run[|run| - 1] == s;
    steps := StepsOf(c, run);
    SegmentEnds(c, run, steps);
  }

  lemma SegmentEnds(c: Config, run: seq<State>, steps: seq<Step>)
    requires ValidConfig(c) && Segment(c, run, steps)
    ensures |run| == |steps| + 1
  {
  }

  /** The basic facts at every state of a trace. */
  lemma BasicsAt(c: Config, run: seq<State>, steps: seq<Step>, i: nat)
    requires ValidConfig(c) && IsTrace(c, run, steps) && i < |run|
    ensures Basics(c, run[i]) && Shape(c, run[i])
  {
    hide Basics, Shape, StepAt, Segment, Init;
    TraceIsRun(c, run, steps);
    BasicsRun(c, run, i);
  }

  /** One step of a segment. */
  lemma StepOfSegment(c: Config, run: seq<State>, steps: seq<Step>, i: nat)
    requires ValidConfig(c) && Segment(c, run, steps) && i < |steps|
    ensures Shape(c, run[i]) && Enabled(c, run[i], steps[i]) && run[i + 1] == Apply(c, run[i], steps[i])
          && Shape(c, run[i + 1])
  {
    hide Enabled, Apply, Shape;
    assert Via(c, run, steps, i);
  }

  lemma StepOfTrace(c: Config, run: seq<State>, steps: seq<Step>, i: nat)
    requires ValidConfig(c) && IsTrace(c, run, steps) && i < |steps|
    ensures |run| == |steps| + 1 && Shape(c, run[i]) && Enabled(c, run[i], steps[i])
    ensures run[i + 1] == Apply(c, run[i], steps[i])
  {
    hide Shape, Enabled, Apply;
    StepOfSegment(c, run, steps, i);
  }

  // ---- going on from a reachable state ----

  lemma ReachableNext(c: Config, s: State, step: Step)
    requires ValidConfig(c) && Reachable(c, s) && Shape(c, s) && Enabled(c, s, step)
    ensures Reachable(c, Apply(c, s, step))
  {
    hide Apply, Enabled, Shape, Init, ValidConfig, IsRun;
    var s' := Apply(c, s, step);
    var run := RunTo(c, s);
    assert NextVia(c, s, step, s');
    assert Next(c, s, s');
    LongerRun(c, run, s');
    assert (run + [s'])[|run + [s']| - 1] == s';
  }

  lemma RunTo(c: Config, s: State) returns (run: seq<State>)
    requires ValidConfig(c) && Reachable(c, s)
    ensures IsRun(c, run) && |run| > 0 && run[|run| - 1] == s
  {
    hide Next, Init;
    run :| IsRun(c, run) && run[|run| - 1] == s;
  }

  lemma LongerRun(c: Config, run: seq<State>, s': State)
    requires ValidConfig(c) && IsRun(c, run) && Next(c, run[|run| - 1], s')
    ensures IsRun(c, run + [s'])
  {
    hide Next, Init, ValidConfig;
    var longer := run + [s'];
    forall i ensures StepAt(c, longer, i) {
      assert StepAt(c, run, i);
    }
  }

  /** A segment from a reachable state stays among the reachable states. */
  lemma {:induction false} SegmentReachable(c: Config, run: seq<State>, steps: seq<Step>, i: nat)
    requires ValidConfig(c) && Segment(c, run, steps) && Reachable(c, run[0]) && i < |run|
    ensures Reachable(c, run[i]) && Shape(c, run[i])
    decreases i
  {
    hide Reachable, Shape, Apply, Enabled, Via;
    if i > 0 {
      SegmentReachable(c, run, steps, i - 1);
      StepOfSegment(c, run, steps, i - 1);
      ReachableNext(c, run[i - 1], steps[i - 1]);
    }
  }

  /** A step followed by a segment. */
  lemma SegmentCons(c: Config, run: seq<State>, steps: seq<Step>)
    requires ValidConfig(c) && |run| == |steps| + 1 && |steps| > 0
    requires NextVia(c, run[0], steps[0], run[1]) && Segment(c, run[1..], steps[1..])
    ensures Segment(c, run, steps)
  {
    hide Enabled, Apply, Shape;
    forall i ensures Via(c, run, steps, i) {
      assert Via(c, run[1..], steps[1..], i - 1);
    }
  }
}
