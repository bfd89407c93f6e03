/** The main results about runs of the distributed lock. */
module Exclusion {
  import opened Protocol
  import opened Network
  import opened Invariants
  import opened Preservation
  import opened Survivors

  // ---- what a process knows when it commits ----

  /** At the commit check of r, every other holder of the same group is recorded in the table. */
  lemma KnowledgeAtCommit(c: Config, s: State, q: Id, p: Id, r: Name)
    requires ValidConfig(c) && Timely(c) && Reachable(c, s) && Shape(c, s)
    requires q in s.alive && Has(c, q, r) && s.nodes[q].phase.Checking? && s.nodes[q].res[r].state.Acquiring?
    requires p in Holders(c, s, r, c.specs[q].count[r])
    ensures p != q && p in Busy(s.nodes[q].res[r].members)
  {
    ReachableInv(c, s);
    hide Basics, SurvivalOk, SurvivorOk, Apart, PairInv, Reachable, Holders, Busy, Shape;
    assert PairInv(c, s, p, q, r);
    HolderKnown(c, s, q, p, r);
  }

  lemma HolderKnown(c: Config, s: State, q: Id, p: Id, r: Name)
    requires ValidConfig(c) && Shape(c, s) && PairInv(c, s, p, q, r)
    requires q in s.alive && Has(c, q, r) && s.nodes[q].phase.Checking? && s.nodes[q].res[r].state.Acquiring?
    requires p in Holders(c, s, r, c.specs[q].count[r])
    ensures p != q && p in Busy(s.nodes[q].res[r].members)
  {
    hide PairA, PairB, PairX, LinkOf;
  }

  /** The local number of holders never falls short of the true number. */
  lemma TrueCountAtCommit(c: Config, s: State, q: Id, r: Name)
    requires ValidConfig(c) && Timely(c) && Reachable(c, s) && Shape(c, s)
    requires q in s.alive && Has(c, q, r) && s.nodes[q].phase.Checking? && s.nodes[q].res[r].state.Acquiring?
    ensures |Holders(c, s, r, c.specs[q].count[r])| <= |Busy(s.nodes[q].res[r].members)|
  {
    var h, b := Holders(c, s, r, c.specs[q].count[r]), Busy(s.nodes[q].res[r].members);
    forall p | p in h ensures p in b {
      KnowledgeAtCommit(c, s, q, p, r);
    }
    SubsetSize(h, b);
  }

  lemma {:induction false} SubsetSize<T>(a: set<T>, b: set<T>)
    requires a <= b
    ensures |a| <= |b|
  {
    if a != {} {
      var x :| x in a;
      SubsetSize(a - {x}, b - {x});
    }
  }

  // ---- counting mutual exclusion ----

  /** A step adds no holder, unless it is a commit check that finds room. */
  lemma HoldersStep(c: Config, s: State, step: Step, r: Name, count: nat)
    requires ValidConfig(c) && Shape(c, s) && Enabled(c, s, step) && (forall p :: Local(c, s, p))
    ensures var h, h' := Holders(c, s, r, count), Holders(c, Apply(c, s, step), r, count);
            || h' <= h
            || (&& step.Do? && Has(c, step.id, r) && c.specs[step.id].count[r] == count && step.id in s.alive
                && s.nodes[step.id].phase.Checking? && s.nodes[step.id].res[r].state.Acquiring?
                && Acquirable(s.nodes[step.id].res[r].members, count) && h' <= h + {step.id})
  {
    var s' := Apply(c, s, step);
    match step
    case Tick =>
    case Crash(x) =>
    case Deliver(pkt, keep) =>
      forall p | p in Holders(c, s', r, count) ensures p in Holders(c, s, r, count) {
        assert Local(c, s, p);
        ReceiveFrame(c, s, pkt, keep, p);
      }
    case Do(a, act, lost) =>
      HoldersActs(c, s, a, act, lost, r, count);
  }

  lemma HoldersActs(c: Config, s: State, a: Id, act: Act, lost: set<(Id, Name)>, r: Name, count: nat)
    requires ValidConfig(c) && Shape(c, s) && CanDo(c, s, a, act, lost) && (forall p :: Local(c, s, p))
    ensures var h, h' := Holders(c, s, r, count), Holders(c, Acts(c, s, a, act, lost), r, count);
            || h' <= h
            || (&& Has(c, a, r) && c.specs[a].count[r] == count
                && s.nodes[a].phase.Checking? && s.nodes[a].res[r].state.Acquiring?
                && Acquirable(s.nodes[a].res[r].members, count) && h' <= h + {a})
  {
    ActsNodes(c, s, a, act, lost);
    assert Local(c, s, a);
    NodeOkOf(c, s, a);
    hide Acts, Perform, CanAct, NodeOk, Local, ValidSpec, Announced, Acquirable;
    if Has(c, a, r) {
      NewHolder(c.specs[a], c.tm, s.nodes[a], act, s.now, r);
    }
    HoldersChange(c, s, Acts(c, s, a, act, lost), a, r, count);
  }

  lemma HoldersChange(c: Config, s: State, s': State, a: Id, r: Name, count: nat)
    requires Shape(c, s) && Shape(c, s') && a in c.specs && s'.alive == s.alive && s'.nodes == s.nodes[a := s'.nodes[a]]
    ensures var h, h' := Holders(c, s, r, count), Holders(c, s', r, count);
            h' <= h + {a} && (h' <= h || (Has(c, a, r) && c.specs[a].count[r] == count
                                          && s'.nodes[a].res[r].state.Acquired? && !s.nodes[a].res[r].state.Acquired?))
  {
  }

  lemma NewHolder(sp: Spec, tm: Timing, n: Node, act: Act, now: int, r: Name)
    requires ValidSpec(sp) && NodeOk(sp, tm, n, now) && CanAct(sp, tm, n, act, now) && r in sp.count
    ensures Perform(sp, tm, n, act, now).res[r].state.Acquired? ==>
              || n.res[r].state.Acquired?
              || (n.phase.Checking? && n.res[r].state.Acquiring? && Acquirable(n.res[r].members, sp.count[r]))
  {
  }

  ghost predicate Excludes(c: Config, s: State)
    requires Shape(c, s)
  {
    forall r, count :: |Holders(c, s, r, count)| <= count
  }

  lemma ExcludesStep(c: Config, s: State, step: Step)
    requires ValidConfig(c) && Timely(c) && Reachable(c, s) && Shape(c, s) && Enabled(c, s, step) && Excludes(c, s)
    ensures Excludes(c, Apply(c, s, step))
  {
    ReachableInv(c, s);
    hide Apply, Reachable, PairInv;
    forall r, count ensures |Holders(c, Apply(c, s, step), r, count)| <= count {
      var h, h' := Holders(c, s, r, count), Holders(c, Apply(c, s, step), r, count);
      HoldersStep(c, s, step, r, count);
      if h' <= h {
        SubsetSize(h', h);
      } else {
        TrueCountAtCommit(c, s, step.id, r);
        SubsetSize(h', h + {step.id});
      }
    }
  }

  lemma {:induction false} ExcludesRun(c: Config, run: seq<State>, i: nat)
    requires ValidConfig(c) && Timely(c) && IsRun(c, run) && i < |run|
    ensures Shape(c, run[i]) && Excludes(c, run[i])
  {
    RunInv(c, run, i);
    hide Inv;
    if i == 0 {
      forall r, count ensures |Holders(c, run[0], r, count)| <= count {
        InitHolders(c, r, count);
      }
    } else {
      ExcludesRun(c, run, i - 1);
      assert StepAt(c, run, i - 1);
      var step :| NextVia(c, run[i - 1], step, run[i]);
      PrefixReachable(c, run, i - 1);
      ExcludesStep(c, run[i - 1], step);
    }
  }

  lemma InitHolders(c: Config, r: Name, count: nat)
    requires ValidConfig(c)
    ensures Holders(c, Init(c), r, count) == {}
  {
  }

  lemma PrefixReachable(c: Config, run: seq<State>, i: nat)
    requires ValidConfig(c) && IsRun(c, run) && i < |run|
    ensures Reachable(c, run[i])
  {
    var pre := run[..i + 1];
    forall j ensures StepAt(c, pre, j) {
      assert StepAt(c, run, j);
    }
    assert IsRun(c, pre) && pre[|pre| - 1] == run[i];
  }

  /** Counting mutual exclusion: in every reachable state, for every resource and count, at
      most `count` live processes that declare `count` for the resource are ACQUIRED. */
  lemma CountingExclusion(c: Config, s: State, r: Name, count: nat)
    requires ValidConfig(c) && Timely(c) && Reachable(c, s)
    ensures Shape(c, s) && |Holders(c, s, r, count)| <= count
  {
    hide Inv;
    var run :| IsRun(c, run) && run[|run| - 1] == s;
    ExcludesRun(c, run, |run| - 1);
  }

  /** Without loss it is enough that packets are faster than a collision window. */
  lemma LosslessExclusion(c: Config, s: State, r: Name, count: nat)
    requires ValidConfig(c) && c.burst == 1 && c.delay < c.tm.sense * c.tm.beacon && Reachable(c, s)
    ensures Shape(c, s) && |Holders(c, s, r, count)| <= count
  {
    BeaconsProduct(c.tm.beacon, c.tm.sense);
    CountingExclusion(c, s, r, count);
  }

  /** If all but one of any `sense` consecutive packets of a link may be lost, it is enough
      that packets are faster than one beacon interval. */
  lemma LossyExclusion(c: Config, s: State, r: Name, count: nat)
    requires ValidConfig(c) && c.burst == c.tm.sense && c.delay < c.tm.beacon && Reachable(c, s)
    ensures Shape(c, s) && |Holders(c, s, r, count)| <= count
  {
    CountingExclusion(c, s, r, count);
  }

  // ---- separation of collision windows ----

  /** Two collision windows for a shared resource that both passed undisturbed do not even touch:
      processes whose windows overlap never both get to the commit check, released or not. */
  lemma CommitSeparation(c: Config, s: State, e1: Survival, e2: Survival, r: Name)
    requires ValidConfig(c) && Timely(c) && Reachable(c, s)
    requires e1 in s.survived && e2 in s.survived && Shared(c, e1.id, e2.id, r)
    ensures e1.t + WindowTime(c.tm) < e2.t || e2.t + WindowTime(c.tm) < e1.t
    ensures e1.at == e1.t + WindowTime(c.tm) && e2.at == e2.t + WindowTime(c.tm) ==>
              e1.at + WindowTime(c.tm) < e2.at || e2.at + WindowTime(c.tm) < e1.at
  {
    ReachableInv(c, s);
    assert Apart(c, e1, e2);
  }

  // ---- all or nothing ----

  /** The basic facts hold in every run, timely or not. */
  lemma {:induction false} BasicsRun(c: Config, run: seq<State>, i: nat)
    requires ValidConfig(c) && IsRun(c, run) && i < |run|
    ensures Basics(c, run[i]) && Shape(c, run[i])
  {
    hide Basics, Inv, Init;
    if i == 0 {
      InitInv(c);
      BasicsOf(c, Init(c));
    } else {
      BasicsRun(c, run, i - 1);
      assert StepAt(c, run, i - 1);
      var step :| NextVia(c, run[i - 1], step, run[i]);
      BasicsStep(c, run[i - 1], step);
      BasicsShape(c, run[i]);
    }
  }

  lemma BasicsOf(c: Config, s: State)
    requires ValidConfig(c) && Inv(c, s)
    ensures Basics(c, s) && Shape(c, s)
  {
  }

  lemma ReachableBasics(c: Config, s: State)
    requires ValidConfig(c) && Reachable(c, s)
    ensures Basics(c, s) && Shape(c, s)
  {
    hide Basics, Init, Next;
    var run :| IsRun(c, run) && run[|run| - 1] == s;
    BasicsRun(c, run, |run| - 1);
  }

  lemma BasicsShape(c: Config, s: State)
    requires ValidConfig(c) && Basics(c, s)
    ensures Shape(c, s)
  {
  }

  lemma BasicsStep(c: Config, s: State, step: Step)
    requires ValidConfig(c) && Basics(c, s) && Shape(c, s) && Enabled(c, s, step)
    ensures Basics(c, Apply(c, s, step))
  {
    hide Basics, Receive, Acts;
    match step
    case Tick => BasicsTick(c, s);
    case Crash(x) => BasicsCrash(c, s, x);
    case Deliver(pkt, keep) => BasicsReceive(c, s, pkt, keep);
    case Do(a, act, lost) => BasicsActs(c, s, a, act, lost);
  }

  /** The windows on record had full length, and whoever is past its window is on record. */
  ghost predicate Recorded(c: Config, s: State)
    requires Shape(c, s)
  {
    && (forall e :: e in s.survived ==> e.t + WindowTime(c.tm) <= e.at <= s.now)
    && (forall p :: SurvivorOk(c, s, p))
  }

  lemma RecordedSame(c: Config, s: State, s': State)
    requires Shape(c, s) && Shape(c, s') && Recorded(c, s)
    requires s'.nodes == s.nodes && s'.survived == s.survived && s'.now >= s.now
    ensures Recorded(c, s')
  {
    hide Survived;
    forall p ensures SurvivorOk(c, s', p) {
      assert SurvivorOk(c, s, p);
    }
  }

  lemma RecordedReceive(c: Config, s: State, pkt: Packet, keep: bool)
    requires ValidConfig(c) && Basics(c, s) && Shape(c, s) && Recorded(c, s)
    ensures Recorded(c, Receive(c, s, pkt, keep))
  {
    hide Receive, SurvivorOk, Local, PacketOk, DueOk, ClockOk, MissedOk;
    ReceiveSurvived(c, s, pkt, keep);
    ReceiveSame(c, s, pkt, keep);
    forall p ensures SurvivorOk(c, Receive(c, s, pkt, keep), p) {
      assert SurvivorOk(c, s, p) && Local(c, s, p);
      SurvivorReceive(c, s, pkt, keep, p);
    }
  }

  lemma RecordedActs(c: Config, s: State, a: Id, act: Act, lost: set<(Id, Name)>)
    requires ValidConfig(c) && Basics(c, s) && Shape(c, s) && CanDo(c, s, a, act, lost) && Recorded(c, s)
    ensures Recorded(c, Acts(c, s, a, act, lost))
  {
    hide Acts, SurvivorOk, Local, NodeOk, PacketOk, DueOk, ClockOk, MissedOk, CanAct, Perform, Announced, ValidSpec;
    assert Local(c, s, a);
    NodeOkOf(c, s, a);
    PhaseStep(c.specs[a], c.tm, s.nodes[a], act, s.now);
    ActsSurvived(c, s, a, act, lost);
    ActsNodes(c, s, a, act, lost);
    forall p ensures SurvivorOk(c, Acts(c, s, a, act, lost), p) {
      assert SurvivorOk(c, s, p);
      SurvivorActs(c, s, a, act, lost, p);
    }
  }

  lemma {:induction false} RecordedRun(c: Config, run: seq<State>, i: nat)
    requires ValidConfig(c) && IsRun(c, run) && i < |run|
    ensures Basics(c, run[i]) && Shape(c, run[i]) && Recorded(c, run[i])
  {
    hide Basics, Recorded, Init, Acts, Receive, Shape, CanTick, CanDo;
    BasicsRun(c, run, i);
    if i == 0 {
      StartRecorded(c);
    } else {
      RecordedRun(c, run, i - 1);
      assert StepAt(c, run, i - 1);
      var s, s' := run[i - 1], run[i];
      var step :| NextVia(c, s, step, s');
      match step
      case Tick => RecordedSame(c, s, s');
      case Crash(x) => RecordedSame(c, s, s');
      case Deliver(pkt, keep) => RecordedReceive(c, s, pkt, keep);
      case Do(a, act, lost) => RecordedActs(c, s, a, act, lost);
    }
  }

  lemma StartRecorded(c: Config)
    requires ValidConfig(c)
    ensures Recorded(c, Init(c))
  {
  }

  lemma ReachableRecorded(c: Config, s: State)
    requires ValidConfig(c) && Reachable(c, s)
    ensures Basics(c, s) && Shape(c, s) && Recorded(c, s)
  {
    hide Basics, Recorded, Shape, Init, Next;
    var run :| IsRun(c, run) && run[|run| - 1] == s;
    RecordedRun(c, run, |run| - 1);
  }

  /** Every holder got there through an undisturbed collision window of at least full length. */
  lemma HolderSurvived(c: Config, s: State, p: Id, r: Name)
    requires ValidConfig(c) && Reachable(c, s) && Shape(c, s)
    requires Has(c, p, r) && s.nodes[p].res[r].state.Acquired?
    ensures HasT(s.nodes[p].phase)
    ensures exists e :: e in s.survived && e.id == p && e.t == s.nodes[p].phase.t
                        && e.t + WindowTime(c.tm) <= e.at <= s.now
  {
    hide Local, PacketOk, DueOk, ClockOk, MissedOk, NodeOk, Reachable;
    ReachableRecorded(c, s);
    assert Local(c, s, p) && SurvivorOk(c, s, p);
    NodeOkOf(c, s, p);
    PhaseFacts(c.specs[p], c.tm, s.nodes[p], s.now, r);
    var e :| e in s.survived && e.id == p && e.t == s.nodes[p].phase.t;
  }

  /** Whoever listens, waits in its collision window, backs off, has given up or queries holds nothing. */
  lemma NoHoldAndWait(c: Config, s: State, p: Id, r: Name)
    requires ValidConfig(c) && Reachable(c, s) && Shape(c, s) && Has(c, p, r)
    requires !s.nodes[p].phase.Checking? && !s.nodes[p].phase.Resetting? && !s.nodes[p].phase.Held?
    ensures !s.nodes[p].res[r].state.Acquired?
  {
    ReachableBasics(c, s);
    assert Local(c, s, p);
    NodeOkOf(c, s, p);
    PhaseFacts(c.specs[p], c.tm, s.nodes[p], s.now, r);
  }

  /** The step that ends an attempt leaves every resource ACQUIRED, or every resource IDLE with an empty table. */
  lemma AllOrNothing(c: Config, s: State, a: Id, act: Act, lost: set<(Id, Name)>, r: Name)
    requires ValidConfig(c) && Reachable(c, s) && Shape(c, s) && CanDo(c, s, a, act, lost) && Has(c, a, r)
    requires act.Check? || act.Reset?
    ensures var n' := Acts(c, s, a, act, lost).nodes[a];
            && (n'.phase.Held? ==> n'.res[r].state.Acquired?)
            && (n'.phase.Resting? ==> n'.res[r] == Res(Idle, map[]))
  {
    ReachableBasics(c, s);
    hide PairInv, SurvivalOk, SurvivorOk, Apart, DueOk, ClockOk, MissedOk, PacketOk, Reachable;
    assert Local(c, s, a);
    NodeOkOf(c, s, a);
    ActsNodes(c, s, a, act, lost);
    AttemptEnds(c.specs[a], c.tm, s.nodes[a], act, s.now, r);
    hide Acts, Perform, NodeOk, Local, ValidSpec, Announced;
  }

  lemma AttemptEnds(sp: Spec, tm: Timing, n: Node, act: Act, now: int, r: Name)
    requires ValidSpec(sp) && NodeOk(sp, tm, n, now) && CanAct(sp, tm, n, act, now) && r in sp.count
    requires act.Check? || act.Reset?
    ensures var n' := Perform(sp, tm, n, act, now);
            && (n'.phase.Held? ==> n'.res[r].state.Acquired?)
            && (n'.phase.Resting? ==> n'.res[r] == Res(Idle, map[]))
  {
    assert r in sp.order;
  }
}
