/** The beacon thread of one resource, interleaved with the `setState` calls of the thread that
    acquires. Module Threaded puts such a thread behind every resource of the distributed system. */
module BeaconThread {
  import opened Protocol

  /** Where the beacon thread stands in its loop. */
  datatype Thread =
    | Unborn                 // the resource is not there yet
    | Ready                  // about to test the state
    | Parking(since: int)    // has seen IDLE, is not waiting for a wakeup yet
    | Parked                 // waits for a wakeup, however long
    | Sleeping(until: int)   // waits for one beacon interval
    | Stopped

  /** setAt: when the state was last set; due: one interval after the last announcement of a
      claim by `setState(ACQUIRING)` or by the beacon thread. */
  datatype Sys = Sys(now: int, state: LockState, setAt: int, due: int, thread: Thread)

  datatype Event = Tick | Start | Test | Park | Wake | SetState(st: LockState)

  /** parkTime: the longest a thread that has seen IDLE takes before it really waits. */
  datatype Timed = Timed(tm: Timing, parkTime: nat)

  const START := Sys(0, Idle, 0, 0, Unborn)

  /** The orders and delays in which the acquiring thread sets states. */
  predicate MaySet(z: Timed, s: Sys, st: LockState) {
    match st
    case Idle => s.state.Acquiring? || s.state.Acquired?
    case Starting => s.state.Idle? || s.state.Starting?
    case Acquiring => s.state.Starting? && s.now >= s.setAt + WindowTime(z.tm)
    case Acquired => s.state.Acquiring?
    case Released => true
    case Querying => s.state.Idle? || s.state.Starting?
  }

  predicate Can(z: Timed, s: Sys, e: Event) {
    match e
    case Tick =>
      && !s.thread.Ready?
      && (s.thread.Parking? ==> s.now < s.thread.since + z.parkTime)
      && (s.thread.Sleeping? ==> s.now < s.thread.until)
    case Start => s.thread.Unborn?
    case Test => s.thread.Ready?
    case Park => s.thread.Parking?
    case Wake => s.thread.Sleeping? && s.now >= s.thread.until
    case SetState(st) => !s.thread.Unborn? && MaySet(z, s, st)
  }

  /** The thread after `setState`: the wakeup reaches a thread that waits, and is lost on one that is
      only about to. */
  function Notified(z: Timed, s: Sys, st: LockState): Thread {
    if st.Released? && !s.thread.Parking? then Stopped
    else if s.thread.Parked? then Sleeping(s.now + z.tm.beacon)
    else s.thread
  }

  function Do(z: Timed, s: Sys, e: Event): Sys
    requires Can(z, s, e)
  {
    match e
    case Tick => s.(now := s.now + 1)
    case Start => s.(thread := Ready)
    case Test =>
      if s.state.Released? then s.(thread := Stopped)
      else if s.state.Idle? then s.(thread := Parking(s.now))
      else s.(thread := Sleeping(s.now + z.tm.beacon), due := s.now + z.tm.beacon)
    case Park => s.(thread := Parked)
    case Wake => s.(thread := Ready)
    case SetState(st) => Set(z, s, st)
  }

  /** One pass of the loop, up to its wait: the thread tests the state, and parks if it is IDLE. */
  function Pass(z: Timed, s: Sys): Sys
    requires s.thread.Ready?
  {
    var s1 := Do(z, s, Test);
    if s1.thread.Parking? then Do(z, s1, Park) else s1
  }

  /** What `setState` does to the state and to the thread, whoever calls it. */
  function Set(z: Timed, s: Sys, st: LockState): Sys {
    Sys(s.now, st, s.now, if st.Acquiring? then s.now + z.tm.beacon else s.due, Notified(z, s, st))
  }

  ghost predicate Next(z: Timed, s: Sys, s': Sys) {
    exists e :: Can(z, s, e) && s' == Do(z, s, e)
  }

  /** The step that the run takes at i. */
  ghost predicate StepAt(z: Timed, run: seq<Sys>, i: int) {
    0 <= i < |run| - 1 ==> Next(z, run[i], run[i + 1])
  }

  ghost predicate IsRun(z: Timed, run: seq<Sys>) {
    |run| > 0 && run[0] == START && forall i :: StepAt(z, run, i)
  }

  ghost predicate Reachable(z: Timed, s: Sys) {
    exists run :: IsRun(z, run) && run[|run| - 1] == s
  }

  /** While a resource is claimed, time never passes the due time of its next announcement. */
  predicate OnTime(s: Sys) {
    IsClaim(s.state) ==> s.now <= s.due
  }

  ghost predicate Inv(z: Timed, s: Sys) {
    && s.setAt <= s.now && (s.thread.Unborn? ==> s.state.Idle?)
    // a thread that parks saw IDLE before the state was last set to anything else than IDLE
    && (s.thread.Parking? ==>
         s.thread.since <= s.now <= s.thread.since + z.parkTime && (s.state.Starting? ==> s.thread.since <= s.setAt))
    && (s.thread.Sleeping? ==> s.now <= s.thread.until <= s.now + z.tm.beacon)
    && (IsClaim(s.state) ==>
         (s.thread.Ready? && s.now <= s.due) || (s.thread.Sleeping? && s.thread.until <= s.due))
    && (s.thread.Stopped? ==> s.state.Released?)
  }

  lemma StepInv(z: Timed, s: Sys, e: Event)
    requires z.parkTime < WindowTime(z.tm) && Inv(z, s) && Can(z, s, e)
    ensures Inv(z, Do(z, s, e))
  {
  }

  lemma {:induction false} RunInv(z: Timed, run: seq<Sys>, i: nat)
    requires z.parkTime < WindowTime(z.tm) && IsRun(z, run) && i < |run|
    ensures Inv(z, run[i])
  {
    if i > 0 {
      RunInv(z, run, i - 1);
      assert StepAt(z, run, i - 1);
      var e :| Can(z, run[i - 1], e) && run[i] == Do(z, run[i - 1], e);
      StepInv(z, run[i - 1], e);
    }
  }

  // ---- without the parking bound ----

  lemma Extend(z: Timed, s: Sys, e: Event) returns (s': Sys)
    requires Reachable(z, s) && Can(z, s, e)
    ensures s' == Do(z, s, e) && Reachable(z, s')
  {
    s' := Do(z, s, e);
    var run :| IsRun(z, run) && run[|run| - 1] == s;
    var longer := run + [s'];
    forall i ensures StepAt(z, longer, i) {
      assert StepAt(z, run, i);
    }
    assert IsRun(z, longer) && longer[|longer| - 1] == s';
  }

  /** Time passes while the thread parks or is parked. */
  lemma {:induction false} Sit(z: Timed, s: Sys, t: int) returns (s': Sys)
    requires Reachable(z, s) && s.now <= t
    requires s.thread.Parked? || (s.thread.Parking? && t <= s.thread.since + z.parkTime)
    ensures Reachable(z, s') && s' == s.(now := t)
    decreases t - s.now
  {
    if s.now == t {
      s' := s;
    } else {
      var s1 := Extend(z, s, Tick);
      s' := Sit(z, s1, t);
    }
  }

  /** A thread that parks too slowly loses both wakeups and sleeps through the claim. */
  lemma SleepsThroughClaim(z: Timed) returns (s: Sys)
    requires z.parkTime >= WindowTime(z.tm)
    ensures Reachable(z, s) && s.state.Acquiring? && s.thread.Parked? && s.now > s.due
  {
    assert IsRun(z, [START]) && [START][|[START]| - 1] == START;
    var s0 := Extend(z, START, Start);
    var s1 := Extend(z, s0, Test);
    var s2 := Extend(z, s1, SetState(Starting));
    var s3 := Sit(z, s2, WindowTime(z.tm));
    var s4 := Extend(z, s3, SetState(Acquiring));
    var s5 := Extend(z, s4, Park);
    s := Sit(z, s5, s5.due + 1);
  }

  /** The beacon thread keeps every claim announced on time, in every run, exactly when it
      parks faster than one window: then a lost wakeup is repaired by the next `setState`. */
  lemma BeaconsOnTimeIff(z: Timed)
    ensures (forall s :: Reachable(z, s) ==> OnTime(s)) <==> z.parkTime < WindowTime(z.tm)
  {
    if z.parkTime < WindowTime(z.tm) {
      forall s | Reachable(z, s) ensures OnTime(s) {
        var run :| IsRun(z, run) && run[|run| - 1] == s;
        RunInv(z, run, |run| - 1);
      }
    } else {
      var s := SleepsThroughClaim(z);
      assert !OnTime(s);
    }
  }
}
