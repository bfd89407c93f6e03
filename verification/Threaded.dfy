/** The distributed system with a beacon thread behind every resource, instead of the assumption that
    claimed resources are announced in time: the threads discharge that assumption. */
module Threaded {
  import opened Protocol
  import opened Network
  import opened Invariants
  import opened Exclusion
  import opened Traces
  import B = BeaconThread

  /** The system without duties to send beacons, and where each beacon thread stands. */
  datatype Joint = Joint(s: State, threads: map<(Id, Name), B.Thread>)

  datatype JointStep =
    | Pass                                         // one tick
    | Move(step: Step)                             // a step of the system; a beacon is its thread's
    | Inner(id: Id, name: Name, event: B.Event)    // a thread goes on without announcing anything

  /** What the beacon thread of r sees of process p. */
  function Seen(s: State, p: Id, r: Name, th: B.Thread): B.Sys
    requires p in s.nodes && r in s.nodes[p].res && p in s.clocks && r in s.clocks[p]
  {
    B.Sys(s.now, s.nodes[p].res[r].state, s.clocks[p][r].setAt, s.clocks[p][r].due, th)
  }

  ghost predicate JointShape(c: Config, j: Joint) {
    Shape(c, j.s) && forall p: Id, r: Name :: Has(c, p, r) ==> (p, r) in j.threads
  }

  ghost function SeenIn(c: Config, j: Joint, p: Id, r: Name): B.Sys
    requires JointShape(c, j) && Has(c, p, r)
  {
    Seen(j.s, p, r, j.threads[(p, r)])
  }

  /** A thread announces only when it is about to test the state, and finds it neither IDLE nor RELEASED. */
  predicate Announces(x: B.Sys) {
    x.thread.Ready? && !x.state.Idle? && !x.state.Released?
  }

  /** The resources rs of p exist, and their threads with them. */
  ghost predicate Born(c: Config, j: Joint, p: Id, rs: set<Name>)
    requires JointShape(c, j)
  {
    forall r :: r in rs && Has(c, p, r) ==> !j.threads[(p, r)].Unborn?
  }

  ghost predicate JointCan(c: Config, z: B.Timed, j: Joint, t: JointStep)
    requires ValidConfig(c) && JointShape(c, j)
  {
    match t
    case Pass =>
      && (forall pkt :: pkt in j.s.net ==> j.s.now < pkt.sentAt + c.delay)
      && (forall p, r :: p in j.s.alive && Has(c, p, r) ==> B.Can(z, SeenIn(c, j, p, r), B.Tick))
    case Move(step) =>
      && !step.Tick? && Enabled(c, j.s, step)
      && (step.Do? && step.act.Beacon? && Has(c, step.id, step.act.name)
          ==> Announces(SeenIn(c, j, step.id, step.act.name)))
      && (step.Do? ==> Born(c, j, step.id, Announced(c.specs[step.id], c.tm, j.s.nodes[step.id], step.act, j.s.now)))
    case Inner(p, r, e) =>
      && p in j.s.alive && Has(c, p, r) && (e.Start? || e.Test? || e.Park? || e.Wake?)
      && B.Can(z, SeenIn(c, j, p, r), e) && (e.Test? ==> !Announces(SeenIn(c, j, p, r)))
  }

  /** The thread behind r of p after a step of the system. */
  ghost function ThreadAfter(c: Config, z: B.Timed, j: Joint, step: Step, p: Id, r: Name): B.Thread
    requires ValidConfig(c) && JointShape(c, j) && Has(c, p, r) && Enabled(c, j.s, step)
  {
    var th := j.threads[(p, r)];
    if !step.Do? || step.id != p then th
    else if r !in Announced(c.specs[p], c.tm, j.s.nodes[p], step.act, j.s.now) then th
    else if step.act.Beacon? then B.Sleeping(j.s.now + z.tm.beacon)
    else B.Notified(z, SeenIn(c, j, p, r), Apply(c, j.s, step).nodes[p].res[r].state)
  }

  ghost function JointDo(c: Config, z: B.Timed, j: Joint, t: JointStep): (j': Joint)
    requires ValidConfig(c) && JointShape(c, j) && JointCan(c, z, j, t)
    ensures JointShape(c, j')
  {
    match t
    case Pass => j.(s := j.s.(now := j.s.now + 1))
    case Move(step) =>
      Joint(Apply(c, j.s, step),
            map k | k in j.threads && Has(c, k.0, k.1) :: ThreadAfter(c, z, j, step, k.0, k.1))
    case Inner(p, r, e) => j.(threads := j.threads[(p, r) := B.Do(z, SeenIn(c, j, p, r), e).thread])
  }

  ghost function Begin(c: Config): (j: Joint)
    ensures JointShape(c, j)
  {
    Joint(Init(c), map p, r | p in c.specs && r in c.specs[p].count :: (p, r) := B.Unborn)
  }

  ghost predicate JointNext(c: Config, z: B.Timed, j: Joint, j': Joint)
    requires ValidConfig(c)
  {
    JointShape(c, j) && exists t :: JointCan(c, z, j, t) && j' == JointDo(c, z, j, t)
  }

  ghost predicate JointAt(c: Config, z: B.Timed, run: seq<Joint>, i: int)
    requires ValidConfig(c)
  {
    0 <= i < |run| - 1 ==> JointNext(c, z, run[i], run[i + 1])
  }

  ghost predicate IsJointRun(c: Config, z: B.Timed, run: seq<Joint>)
    requires ValidConfig(c)
  {
    |run| > 0 && run[0] == Begin(c) && forall i :: JointAt(c, z, run, i)
  }

  // ---- the time of the last change ----

  /** Who listens has set its states when it began to. */
  ghost predicate SetOk(c: Config, s: State, p: Id, r: Name)
    requires Shape(c, s)
  {
    Has(c, p, r) && s.nodes[p].phase.Listening? ==> s.clocks[p][r].setAt <= s.nodes[p].phase.l
  }

  lemma SetActs(c: Config, s: State, a: Id, act: Act, lost: set<(Id, Name)>, p: Id, r: Name)
    requires ValidConfig(c) && Shape(c, s) && CanDo(c, s, a, act, lost) && SetOk(c, s, p, r)
    ensures SetOk(c, Acts(c, s, a, act, lost), p, r)
  {
    hide Acts, Perform, Announced, CanAct, ValidSpec;
    ActsNodes(c, s, a, act, lost);
    ActsClocks(c, s, a, act, lost);
    NamesIn(c, s, a);
    if p == a && Has(c, p, r) && Perform(c.specs[a], c.tm, s.nodes[a], act, s.now).phase.Listening? {
      ListensSet(c.specs[a], c.tm, s.nodes[a], act, s.now, r);
    }
  }

  lemma ListensSet(sp: Spec, tm: Timing, n: Node, act: Act, now: int, r: Name)
    requires (forall r :: r in sp.order ==> r in n.res) && CanAct(sp, tm, n, act, now) && r in n.res
    requires Perform(sp, tm, n, act, now).phase.Listening?
    ensures var n', rs := Perform(sp, tm, n, act, now), Announced(sp, tm, n, act, now);
            (n'.phase == Listening(now) && r in rs && !act.Beacon?) || (n' == n && act.Beacon?)
  {
  }

  lemma SetReceive(c: Config, s: State, pkt: Packet, keep: bool, p: Id, r: Name)
    requires Shape(c, s) && SetOk(c, s, p, r)
    ensures SetOk(c, Receive(c, s, pkt, keep), p, r)
  {
  }

  lemma SetStep(c: Config, s: State, step: Step, p: Id, r: Name)
    requires ValidConfig(c) && Shape(c, s) && Enabled(c, s, step) && SetOk(c, s, p, r)
    ensures SetOk(c, Apply(c, s, step), p, r)
  {
    hide Acts, Receive, SetOk, CanDo;
    match step
    case Tick => assert SetOk(c, s.(now := s.now + 1), p, r) by { SetSame(c, s, s.(now := s.now + 1), p, r); }
    case Crash(x) => SetSame(c, s, s.(alive := s.alive - {x}), p, r);
    case Deliver(pkt, keep) => SetReceive(c, s, pkt, keep, p, r);
    case Do(a, act, lost) => SetActs(c, s, a, act, lost, p, r);
  }

  lemma SetSame(c: Config, s: State, s': State, p: Id, r: Name)
    requires Shape(c, s) && Shape(c, s') && SetOk(c, s, p, r) && s'.nodes == s.nodes && s'.clocks == s.clocks
    ensures SetOk(c, s', p, r)
  {
  }

  // ---- one step of the system, as a thread sees it ----

  /** A step that sets the state of r sets it as the thread model allows. */
  lemma SetsAsAllowed(sp: Spec, z: B.Timed, n: Node, act: Act, now: int, r: Name, x: B.Sys)
    requires ValidSpec(sp) && NodeOk(sp, z.tm, n, now) && CanAct(sp, z.tm, n, act, now) && r in sp.count
    requires r in Announced(sp, z.tm, n, act, now) && !act.Beacon?
    requires x.now == now && x.state == n.res[r].state && (n.phase.Listening? ==> x.setAt <= n.phase.l)
    ensures var st := Perform(sp, z.tm, n, act, now).res[r].state;
            B.MaySet(z, x, st) && (st.Acquiring? <==> act.Announce?)
  {
    hide ShortTime, LongTime;
  }

  /** The thread of r sees the same, or one of its own events. */
  ghost predicate SeesEvent(z: B.Timed, x: B.Sys, x': B.Sys) {
    x' == x || exists e :: B.Can(z, x, e) && x' == B.Do(z, x, e)
  }

  lemma Moved(c: Config, z: B.Timed, j: Joint, step: Step, p: Id, r: Name)
    requires ValidConfig(c) && JointShape(c, j) && Has(c, p, r) && JointCan(c, z, j, Move(step))
    ensures var j' := JointDo(c, z, j, Move(step));
            j'.s == Apply(c, j.s, step) && j'.threads[(p, r)] == ThreadAfter(c, z, j, step, p, r)
  {
    hide Apply, Enabled, ThreadAfter, Shape, ValidConfig;
  }

  /** The fields a thread of p sees after a acted. */
  lemma SeenAfter(c: Config, z: B.Timed, j: Joint, a: Id, act: Act, lost: set<(Id, Name)>, p: Id, r: Name)
    requires ValidConfig(c) && JointShape(c, j) && Has(c, p, r) && JointCan(c, z, j, Move(Do(a, act, lost)))
    requires r in Perform(c.specs[a], c.tm, j.s.nodes[a], act, j.s.now).res || p != a
    ensures var x, x' := SeenIn(c, j, p, r), SeenIn(c, JointDo(c, z, j, Move(Do(a, act, lost))), p, r);
            x' == if p != a then x
                  else
                    var n', rs := Perform(c.specs[a], c.tm, j.s.nodes[a], act, j.s.now),
                        Announced(c.specs[a], c.tm, j.s.nodes[a], act, j.s.now);
                    var k := NewClock(c, j.s.clocks[a][r], r, act, rs, j.s.now);
                    B.Sys(x.now, n'.res[r].state, k.setAt, k.due,
                          if r !in rs then x.thread
                          else if act.Beacon? then B.Sleeping(x.now + z.tm.beacon)
                          else B.Notified(z, x, n'.res[r].state))
  {
    hide Acts, Announced, Perform, ValidConfig, CanAct, NewClock, B.Notified, JointDo;
    Moved(c, z, j, Do(a, act, lost), p, r);
    ActsNodes(c, j.s, a, act, lost);
    ActsClocks(c, j.s, a, act, lost);
  }

  lemma ActSeen(c: Config, z: B.Timed, j: Joint, a: Id, act: Act, lost: set<(Id, Name)>, p: Id, r: Name)
    requires ValidConfig(c) && JointShape(c, j) && z.tm == c.tm && Has(c, p, r)
    requires Local(c, j.s, a) && SetOk(c, j.s, p, r) && JointCan(c, z, j, Move(Do(a, act, lost)))
    ensures SeesEvent(z, SeenIn(c, j, p, r), SeenIn(c, JointDo(c, z, j, Move(Do(a, act, lost))), p, r))
  {
    hide Announced, Perform, NodeOk, ValidSpec, Local, B.MaySet, CanAct, JointDo, Apply, SeesEvent;
    if p == a {
      var s, x := j.s, SeenIn(c, j, p, r);
      NamesIn(c, s, a);
      var n', rs := Perform(c.specs[a], c.tm, s.nodes[a], act, s.now),
          Announced(c.specs[a], c.tm, s.nodes[a], act, s.now);
      NodeOkOf(c, s, a);
      SeenAfter(c, z, j, a, act, lost, p, r);
      ClaimFrame(c.specs[a], c.tm, s.nodes[a], act, s.now, r);
      if r !in rs {
        SeenSame(z, x);
      } else if act.Beacon? {
        BeaconNames(c.specs[a], c.tm, s.nodes[a], act, s.now, r);
        SeenTest(z, x);
      } else {
        assert Born(c, j, a, rs);
        SetsAsAllowed(c.specs[a], z, s.nodes[a], act, s.now, r, x);
        SeenSet(z, x, n'.res[r].state);
      }
    } else {
      SeenAfter(c, z, j, a, act, lost, p, r);
      SeenSame(z, SeenIn(c, j, p, r));
    }
  }

  lemma SeenSame(z: B.Timed, x: B.Sys)
    ensures SeesEvent(z, x, x)
  {
  }

  lemma SeenTest(z: B.Timed, x: B.Sys)
    requires Announces(x)
    ensures SeesEvent(z, x, x.(thread := B.Sleeping(x.now + z.tm.beacon), due := x.now + z.tm.beacon))
  {
    assert B.Can(z, x, B.Test);
  }

  lemma SeenSet(z: B.Timed, x: B.Sys, st: LockState)
    requires !x.thread.Unborn? && B.MaySet(z, x, st)
    ensures SeesEvent(z, x,
          B.Sys(x.now, st, x.now, if st.Acquiring? then x.now + z.tm.beacon else x.due, B.Notified(z, x, st)))
  {
    hide B.Notified, B.MaySet;
    assert B.Can(z, x, B.SetState(st));
  }

  lemma BeaconNames(sp: Spec, tm: Timing, n: Node, act: Act, now: int, r: Name)
    requires (forall r :: r in sp.order ==> r in n.res) && CanAct(sp, tm, n, act, now) && act.Beacon?
    requires r in Announced(sp, tm, n, act, now)
    ensures act.name == r
  {
  }

  lemma OtherSeen(c: Config, z: B.Timed, j: Joint, step: Step, p: Id, r: Name)
    requires ValidConfig(c) && JointShape(c, j) && Has(c, p, r) && Local(c, j.s, p)
    requires !step.Do? && JointCan(c, z, j, Move(step))
    ensures SeenIn(c, JointDo(c, z, j, Move(step)), p, r) == SeenIn(c, j, p, r)
  {
    hide Local, OnPacket, Receive, ValidConfig, Announced, Acts, CanDo, JointDo;
    Moved(c, z, j, step, p, r);
    if step.Deliver? {
      ReceiveFrame(c, j.s, step.pkt, step.keep, p);
      ReceiveSame(c, j.s, step.pkt, step.keep);
    }
  }

  // ---- all runs ----

  /** The system is where the model with the assumption may be, and every thread of a live process
      where the thread model may be. */
  ghost predicate Sound(c: Config, z: B.Timed, j: Joint)
    requires ValidConfig(c)
  {
    && JointShape(c, j) && Reachable(c, j.s)
    && (forall p, r :: Has(c, p, r) ==> SetOk(c, j.s, p, r))
    && (forall p, r :: p in j.s.alive && Has(c, p, r) ==> B.Reachable(z, SeenIn(c, j, p, r)))
  }

  lemma SeenReachable(z: B.Timed, x: B.Sys, x': B.Sys)
    requires B.Reachable(z, x) && SeesEvent(z, x, x')
    ensures B.Reachable(z, x')
  {
    if x' != x {
      var e :| B.Can(z, x, e) && x' == B.Do(z, x, e);
      var _ := B.Extend(z, x, e);
    }
  }

  lemma MoveSound(c: Config, z: B.Timed, j: Joint, step: Step)
    requires ValidConfig(c) && z.tm == c.tm && Sound(c, z, j) && JointCan(c, z, j, Move(step))
    ensures Sound(c, z, JointDo(c, z, j, Move(step)))
  {
    hide Reachable, SetOk, B.Reachable, Basics, Local, Apply, Enabled, SeenIn, SeesEvent, Shape;
    var j' := JointDo(c, z, j, Move(step));
    ReachableNext(c, j.s, step);
    ReachableBasics(c, j.s);
    forall p, r | Has(c, p, r) ensures SetOk(c, j'.s, p, r) {
      SetStep(c, j.s, step, p, r);
    }
    forall p, r | p in j'.s.alive && Has(c, p, r) ensures B.Reachable(z, SeenIn(c, j', p, r)) {
      StillAlive(c, j.s, step, p);
      MoveSeen(c, z, j, step, p, r);
      SeenReachable(z, SeenIn(c, j, p, r), SeenIn(c, j', p, r));
    }
  }

  lemma StillAlive(c: Config, s: State, step: Step, p: Id)
    requires ValidConfig(c) && Shape(c, s) && Enabled(c, s, step) && p in Apply(c, s, step).alive
    ensures p in s.alive
  {
    hide Acts, CanDo;
    if step.Do? {
      ActsNodes(c, s, step.id, step.act, step.lost);
    }
  }

  lemma MoveSeen(c: Config, z: B.Timed, j: Joint, step: Step, p: Id, r: Name)
    requires ValidConfig(c) && z.tm == c.tm && JointShape(c, j) && Basics(c, j.s) && Has(c, p, r)
    requires SetOk(c, j.s, p, r) && JointCan(c, z, j, Move(step))
    ensures SeesEvent(z, SeenIn(c, j, p, r), SeenIn(c, JointDo(c, z, j, Move(step)), p, r))
  {
    hide Local, DueOk, ClockOk, MissedOk, PacketOk, JointCan, JointDo, SeenIn, SetOk;
    assert Local(c, j.s, p);
    if step.Do? {
      assert Local(c, j.s, step.id);
      ActSeen(c, z, j, step.id, step.act, step.lost, p, r);
    } else {
      OtherSeen(c, z, j, step, p, r);
    }
  }

  lemma InnerSound(c: Config, z: B.Timed, j: Joint, p: Id, r: Name, e: B.Event)
    requires ValidConfig(c) && Sound(c, z, j) && JointCan(c, z, j, Inner(p, r, e))
    ensures Sound(c, z, JointDo(c, z, j, Inner(p, r, e)))
  {
    hide Reachable, B.Reachable;
    var j' := JointDo(c, z, j, Inner(p, r, e));
    assert SeenIn(c, j', p, r) == B.Do(z, SeenIn(c, j, p, r), e);
    SeenReachable(z, SeenIn(c, j, p, r), SeenIn(c, j', p, r));
    forall q, x | q in j'.s.alive && Has(c, q, x) ensures B.Reachable(z, SeenIn(c, j', q, x)) {
      if q != p || x != r {
        assert SeenIn(c, j', q, x) == SeenIn(c, j, q, x);
      }
    }
  }

  /** When all threads let time pass, no beacon is overdue: the system's own tick is allowed. */
  lemma PassSound(c: Config, z: B.Timed, j: Joint)
    requires ValidConfig(c) && z.parkTime < WindowTime(z.tm) && Sound(c, z, j) && JointCan(c, z, j, Pass)
    ensures CanTick(c, j.s) && Sound(c, z, JointDo(c, z, j, Pass))
  {
    hide Reachable, B.Reachable, B.Can, WindowTime;
    var j' := JointDo(c, z, j, Pass);
    B.BeaconsOnTimeIff(z);
    forall p, r | p in j.s.alive && Has(c, p, r)
      ensures B.Reachable(z, SeenIn(c, j', p, r))
            && (IsClaim(j.s.nodes[p].res[r].state) ==> j.s.now < j.s.clocks[p][r].due)
    {
      var x := B.Extend(z, SeenIn(c, j, p, r), B.Tick);
      assert x == SeenIn(c, j', p, r) && B.OnTime(x);
    }
    ReachableNext(c, j.s, Tick);
    forall p, r | Has(c, p, r) ensures SetOk(c, j'.s, p, r) {
      SetSame(c, j.s, j'.s, p, r);
    }
  }

  lemma BeginSound(c: Config, z: B.Timed)
    requires ValidConfig(c)
    ensures Sound(c, z, Begin(c))
  {
    hide B.Next, Next;
    assert IsRun(c, [Init(c)]);
    forall p, r | Has(c, p, r) ensures B.Reachable(z, SeenIn(c, Begin(c), p, r)) {
      assert B.IsRun(z, [B.START]);
      assert SeenIn(c, Begin(c), p, r) == [B.START][|[B.START]| - 1];
    }
  }

  lemma {:induction false} SoundRun(c: Config, z: B.Timed, run: seq<Joint>, i: nat)
    requires ValidConfig(c) && z.tm == c.tm && z.parkTime < WindowTime(z.tm) && IsJointRun(c, z, run) && i < |run|
    ensures Sound(c, z, run[i])
  {
    hide Sound, Begin, WindowTime, JointCan, JointDo;
    if i == 0 {
      BeginSound(c, z);
    } else {
      SoundRun(c, z, run, i - 1);
      assert JointAt(c, z, run, i - 1);
      var t :| JointCan(c, z, run[i - 1], t) && run[i] == JointDo(c, z, run[i - 1], t);
      match t
      case Pass => PassSound(c, z, run[i - 1]);
      case Move(step) => MoveSound(c, z, run[i - 1], step);
      case Inner(p, r, e) => InnerSound(c, z, run[i - 1], p, r, e);
    }
  }

  /** With a beacon thread behind every resource that parks faster than one window, and no assumption
      about beacons, the system reaches nothing that the model with the assumption does not reach. */
  lemma ThreadsDischarge(c: Config, z: B.Timed, run: seq<Joint>, i: nat)
    requires ValidConfig(c) && z.tm == c.tm && z.parkTime < WindowTime(z.tm) && IsJointRun(c, z, run) && i < |run|
    ensures Reachable(c, run[i].s)
  {
    hide Reachable, IsJointRun, WindowTime;
    SoundRun(c, z, run, i);
  }

  /** Counting mutual exclusion with beacon threads in place of the assumption. */
  lemma ThreadedExclusion(c: Config, z: B.Timed, run: seq<Joint>, i: nat, r: Name, count: nat)
    requires ValidConfig(c) && Timely(c) && z.tm == c.tm && z.parkTime < WindowTime(z.tm) && IsJointRun(c, z, run)
          && i < |run|
    ensures Shape(c, run[i].s) && |Holders(c, run[i].s, r, count)| <= count
  {
    hide Reachable, IsJointRun, WindowTime, Timely, Holders;
    ThreadsDischarge(c, z, run, i);
    CountingExclusion(c, run[i].s, r, count);
  }
}
