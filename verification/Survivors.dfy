/** The history of undisturbed collision windows, and the preservation of the whole invariant. */
module Survivors {
  import opened Protocol
  import opened Network
  import opened Invariants
  import opened PairSteps
  import opened Preservation

  lemma SurvivalReceive(c: Config, s: State, pkt: Packet, keep: bool, e: Survival, q: Id, r: Name)
    requires ValidConfig(c) && Shape(c, s) && Local(c, s, q) && SurvivalOk(c, s, e, q, r)
    ensures SurvivalOk(c, Receive(c, s, pkt, keep), e, q, r)
  {
    if q in c.specs {
      ReceiveFrame(c, s, pkt, keep, q);
    }
    ReceiveSame(c, s, pkt, keep);
    hide Receive, Local, ValidConfig;
  }

  lemma SurvivorReceive(c: Config, s: State, pkt: Packet, keep: bool, p: Id)
    requires ValidConfig(c) && Shape(c, s) && Local(c, s, p) && SurvivorOk(c, s, p)
    ensures SurvivorOk(c, Receive(c, s, pkt, keep), p)
  {
    var s' := Receive(c, s, pkt, keep);
    if p in c.specs && Survived(s'.nodes[p]) && HasT(s'.nodes[p].phase) {
      ReceiveFrame(c, s, pkt, keep, p);
      assert Survived(s.nodes[p]);
    }
  }

  /** How the phase of a process moves when it acts. */
  lemma PhaseStep(sp: Spec, tm: Timing, n: Node, act: Act, now: int)
    requires ValidSpec(sp) && NodeOk(sp, tm, n, now) && CanAct(sp, tm, n, act, now)
    ensures var n' := Perform(sp, tm, n, act, now);
            && (Trying(n'.phase) ==> n'.phase == Listening(now) || (Trying(n.phase) && n'.phase.l == n.phase.l))
            && (Survived(n') && HasT(n'.phase) ==>
                HasT(n.phase) && n'.phase.t == n.phase.t && (Survived(n) || (act.Expire? && n.phase.Window?)))
            && (act.Expire? ==>
                 n.phase.Window? && n.phase.l + WindowTime(tm) <= n.phase.t && n.phase.t + WindowTime(tm) <= now)
  {
  }

  lemma ActsSurvived(c: Config, s: State, a: Id, act: Act, lost: set<(Id, Name)>)
    requires ValidConfig(c) && Shape(c, s) && CanDo(c, s, a, act, lost)
    ensures Acts(c, s, a, act, lost).survived
         == if act.Expire? then s.survived + {Survival(a, s.nodes[a].phase.t, s.now)} else s.survived
  {
  }

  lemma SurvivalActs(c: Config, s: State, a: Id, act: Act, lost: set<(Id, Name)>, e: Survival, q: Id, r: Name)
    requires ValidConfig(c) && Timely(c) && Shape(c, s) && CanDo(c, s, a, act, lost) && Local(c, s, a)
    requires SurvivalOk(c, s, e, q, r)
    ensures SurvivalOk(c, Acts(c, s, a, act, lost), e, q, r)
  {
    NodeOkOf(c, s, a);
    PhaseStep(c.specs[a], c.tm, s.nodes[a], act, s.now);
    TimelyFacts(c);
    ActsNodes(c, s, a, act, lost);
    hide Acts, Perform, Announced, CanAct, NodeOk, Local, ValidSpec;
  }

  lemma NewSurvival(c: Config, s: State, a: Id, lost: set<(Id, Name)>, q: Id, r: Name)
    requires ValidConfig(c) && Timely(c) && Shape(c, s) && CanDo(c, s, a, Expire, lost) && Local(c, s, a)
    requires Shared(c, a, q, r) ==> PairOk(c, View(c, s, a, q, r)) && PairA(c, View(c, s, a, q, r))
    ensures SurvivalOk(c, Acts(c, s, a, Expire, lost), Survival(a, s.nodes[a].phase.t, s.now), q, r)
  {
    if Shared(c, a, q, r) {
      AloneAtExpiry(c, View(c, s, a, q, r));
    }
    ActsNodes(c, s, a, Expire, lost);
    hide Acts, PairOk, PairA, LinkOf;
  }

  lemma SurvivorActs(c: Config, s: State, a: Id, act: Act, lost: set<(Id, Name)>, p: Id)
    requires ValidConfig(c) && Shape(c, s) && CanDo(c, s, a, act, lost) && Local(c, s, a) && SurvivorOk(c, s, p)
    ensures SurvivorOk(c, Acts(c, s, a, act, lost), p)
  {
    hide Acts, Perform, Announced, CanAct, NodeOk, Local, ValidSpec, Survived;
    NodeOkOf(c, s, a);
    PhaseStep(c.specs[a], c.tm, s.nodes[a], act, s.now);
    ActsNodes(c, s, a, act, lost);
    ActsSurvived(c, s, a, act, lost);
    var s' := Acts(c, s, a, act, lost);
    if p in c.specs && Survived(s'.nodes[p]) && HasT(s'.nodes[p].phase) {
      if p == a && !Survived(s.nodes[p]) {
        assert Survival(a, s.nodes[a].phase.t, s.now) in s'.survived;
      }
    }
  }

  /** A holder p, or one at its check, announced ACQUIRING before anybody who still tries began to listen. */
  lemma AfterView(c: Config, s: State, p: Id, q: Id, r: Name)
    requires ValidConfig(c) && Shape(c, s) && Shared(c, p, q, r) && Local(c, s, p)
    requires SurvivorOk(c, s, p) && forall e :: e in s.survived ==> SurvivalOk(c, s, e, q, r)
    ensures After(View(c, s, p, q, r))
  {
    PhaseFacts(c.specs[p], c.tm, s.nodes[p], s.now, r);
    var n := s.nodes[p];
    if (n.phase.Checking? || n.res[r].state.Acquired?) && HasT(n.phase) {
      assert Survived(n);
    }
  }

  lemma NewApart(c: Config, s: State, a: Id, e: Survival)
    requires ValidConfig(c) && Shape(c, s) && Local(c, s, a) && a in s.alive && s.nodes[a].phase.Window?
    requires forall r :: SurvivalOk(c, s, e, a, r)
    ensures var mine := Survival(a, s.nodes[a].phase.t, s.now); Apart(c, e, mine) && Apart(c, mine, e)
  {
    forall r | Shared(c, e.id, a, r) || Shared(c, a, e.id, r) ensures e.t + WindowTime(c.tm) < s.nodes[a].phase.t {
      assert SurvivalOk(c, s, e, a, r);
    }
  }

  // ---- the whole invariant ----

  lemma PairTick(c: Config, s: State, p: Id, q: Id, r: Name)
    requires ValidConfig(c) && Basics(c, s) && CanTick(c, s) && PairInv(c, s, p, q, r)
    ensures PairInv(c, Apply(c, s, Tick), p, q, r)
  {
    hide View, PairA, PairB, PairC, PairX, PairOk, CanTick, PacketOk, Local, DueOk, ClockOk, MissedOk;
    if Shared(c, p, q, r) {
      assert Local(c, s, p) && Local(c, s, q) && DueOk(c, s, p, r) && MissedOk(c, s, p, q, r);
      ViewOk(c, s, p, q, r);
      TickPair(c, View(c, s, p, q, r));
      TickView(c, s, p, q, r);
    }
  }

  lemma TickView(c: Config, s: State, p: Id, q: Id, r: Name)
    requires ValidConfig(c) && Shape(c, s) && CanTick(c, s) && Shared(c, p, q, r)
    ensures var v := View(c, s, p, q, r); View(c, Apply(c, s, Tick), p, q, r) == v.(now := v.now + 1)
  {
  }

  lemma InvTick(c: Config, s: State)
    requires ValidConfig(c) && Timely(c) && Inv(c, s) && CanTick(c, s)
    ensures Inv(c, Apply(c, s, Tick))
  {
    BasicsTick(c, s);
    var s' := Apply(c, s, Tick);
    hide PairInv, Basics, Local, CanTick;
    forall p, q, r ensures PairInv(c, s', p, q, r) {
      assert PairInv(c, s, p, q, r);
      PairTick(c, s, p, q, r);
    }
    forall e, q, r | e in s'.survived ensures SurvivalOk(c, s', e, q, r) {
      assert SurvivalOk(c, s, e, q, r);
    }
    forall p ensures SurvivorOk(c, s', p) {
      assert SurvivorOk(c, s, p);
    }
  }

  lemma CrashView(c: Config, s: State, x: Id, p: Id, q: Id, r: Name)
    requires ValidConfig(c) && Shape(c, s) && x in s.alive && Shared(c, p, q, r)
    ensures var v := View(c, s, p, q, r);
            View(c, Apply(c, s, Crash(x)), p, q, r) == v.(pAlive := v.pAlive && p != x, qAlive := v.qAlive && q != x)
  {
  }

  lemma CrashPair(c: Config, s: State, x: Id, p: Id, q: Id, r: Name)
    requires ValidConfig(c) && Shape(c, s) && x in s.alive && PairInv(c, s, p, q, r)
    ensures PairInv(c, Apply(c, s, Crash(x)), p, q, r)
  {
    hide View, Apply, Shape;
    if Shared(c, p, q, r) {
      CrashView(c, s, x, p, q, r);
    }
  }

  lemma InvCrash(c: Config, s: State, x: Id)
    requires ValidConfig(c) && Timely(c) && Inv(c, s) && x in s.alive
    ensures Inv(c, Apply(c, s, Crash(x)))
  {
    BasicsCrash(c, s, x);
    var s' := Apply(c, s, Crash(x));
    forall p, q, r ensures PairInv(c, s', p, q, r) {
      assert PairInv(c, s, p, q, r);
      CrashPair(c, s, x, p, q, r);
    }
    forall e, q, r | e in s'.survived ensures SurvivalOk(c, s', e, q, r) {
      assert SurvivalOk(c, s, e, q, r);
    }
    forall p ensures SurvivorOk(c, s', p) {
      assert SurvivorOk(c, s, p);
    }
  }

  lemma InvReceive(c: Config, s: State, pkt: Packet, keep: bool)
    requires ValidConfig(c) && Timely(c) && Inv(c, s) && pkt in s.net && pkt.sentAt < s.now
    ensures Inv(c, Receive(c, s, pkt, keep))
  {
    BasicsReceive(c, s, pkt, keep);
    hide Receive, View, PacketOk, PairGood, SurvivalOk, SurvivorOk, Apart, DueOk, ClockOk, MissedOk, Local, PairA,
        PairB, PairC, PairX;
    var s' := Receive(c, s, pkt, keep);
    forall p, q, r ensures PairInv(c, s', p, q, r) {
      assert PairInv(c, s, p, q, r);
      if Shared(c, p, q, r) {
        assert Local(c, s, p) && Local(c, s, q) && DueOk(c, s, p, r) && MissedOk(c, s, p, q, r);
        PairReceive(c, s, pkt, keep, p, q, r);
      }
    }
    ReceiveSurvived(c, s, pkt, keep);
    forall e, q, r | e in s'.survived ensures SurvivalOk(c, s', e, q, r) {
      assert SurvivalOk(c, s, e, q, r) && Local(c, s, q);
      SurvivalReceive(c, s, pkt, keep, e, q, r);
    }
    forall p ensures SurvivorOk(c, s', p) {
      assert SurvivorOk(c, s, p) && Local(c, s, p);
      SurvivorReceive(c, s, pkt, keep, p);
    }
  }

  lemma ReceiveSurvived(c: Config, s: State, pkt: Packet, keep: bool)
    requires Shape(c, s)
    ensures Receive(c, s, pkt, keep).survived == s.survived
  {
  }

  lemma InvActs(c: Config, s: State, a: Id, act: Act, lost: set<(Id, Name)>)
    requires ValidConfig(c) && Timely(c) && Inv(c, s) && CanDo(c, s, a, act, lost)
    ensures Inv(c, Acts(c, s, a, act, lost))
  {
    hide Acts, View, PacketOk, PairGood, SurvivalOk, SurvivorOk, Apart, DueOk, ClockOk, MissedOk, Local, PairA, PairB,
        PairC, PairX, PairOk, PairInv;
    BasicsActs(c, s, a, act, lost);
    ActsSurvived(c, s, a, act, lost);
    var s' := Acts(c, s, a, act, lost);
    assert Local(c, s, a);
    forall p, q, r ensures PairInv(c, s', p, q, r) {
      InvActsPair(c, s, a, act, lost, p, q, r);
    }
    forall e, q, r | e in s'.survived ensures SurvivalOk(c, s', e, q, r) {
      InvActsSurvival(c, s, a, act, lost, e, q, r);
    }
    forall p ensures SurvivorOk(c, s', p) {
      assert SurvivorOk(c, s, p);
      SurvivorActs(c, s, a, act, lost, p);
    }
    forall e1, e2 | e1 in s'.survived && e2 in s'.survived ensures Apart(c, e1, e2) {
      InvActsApart(c, s, a, act, lost, e1, e2);
    }
  }

  lemma InvActsPair(c: Config, s: State, a: Id, act: Act, lost: set<(Id, Name)>, p: Id, q: Id, r: Name)
    requires ValidConfig(c) && Timely(c) && Inv(c, s) && CanDo(c, s, a, act, lost)
    ensures PairInv(c, Acts(c, s, a, act, lost), p, q, r)
  {
    hide Acts, View, PacketOk, PairGood, SurvivalOk, SurvivorOk, Apart, DueOk, ClockOk, MissedOk, Local, PairA, PairB,
        PairC, PairX, PairOk;
    if Shared(c, p, q, r) {
      assert PairInv(c, s, p, q, r) && PairInv(c, s, q, p, r);
      assert Local(c, s, p) && Local(c, s, q) && DueOk(c, s, p, r) && MissedOk(c, s, p, q, r);
      assert DueOk(c, s, q, r) && MissedOk(c, s, q, p, r);
      ViewOk(c, s, p, q, r);
      ViewOk(c, s, q, p, r);
      AfterView(c, s, p, q, r);
      AfterView(c, s, q, p, r);
      PairActs(c, s, a, act, lost, p, q, r);
    }
  }

  lemma InvActsSurvival(c: Config, s: State, a: Id, act: Act, lost: set<(Id, Name)>, e: Survival, q: Id, r: Name)
    requires ValidConfig(c) && Timely(c) && Inv(c, s) && CanDo(c, s, a, act, lost)
    requires e in Acts(c, s, a, act, lost).survived
    ensures SurvivalOk(c, Acts(c, s, a, act, lost), e, q, r)
  {
    hide Acts, View, PacketOk, PairGood, SurvivalOk, SurvivorOk, Apart, DueOk, ClockOk, MissedOk, Local, PairA, PairB,
        PairC, PairX, PairOk;
    ActsSurvived(c, s, a, act, lost);
    assert Local(c, s, a);
    if e in s.survived {
      SurvivalActs(c, s, a, act, lost, e, q, r);
    } else {
      assert PairInv(c, s, a, q, r);
      if Shared(c, a, q, r) {
        assert Local(c, s, q) && DueOk(c, s, a, r) && MissedOk(c, s, a, q, r);
        ViewOk(c, s, a, q, r);
      }
      NewSurvival(c, s, a, lost, q, r);
    }
  }

  lemma InvActsApart(c: Config, s: State, a: Id, act: Act, lost: set<(Id, Name)>, e1: Survival, e2: Survival)
    requires ValidConfig(c) && Timely(c) && Inv(c, s) && CanDo(c, s, a, act, lost)
    requires e1 in Acts(c, s, a, act, lost).survived && e2 in Acts(c, s, a, act, lost).survived
    ensures Apart(c, e1, e2)
  {
    hide Acts, PacketOk, PairInv, SurvivalOk, SurvivorOk, DueOk, ClockOk, MissedOk, Local, Timely, Announced, Apart;
    ActsSurvived(c, s, a, act, lost);
    assert Local(c, s, a);
    if e1 in s.survived && e2 in s.survived {
      assert Apart(c, e1, e2);
    } else if e1 in s.survived {
      NewApart(c, s, a, e1);
    } else if e2 in s.survived {
      NewApart(c, s, a, e2);
    } else {
      ApartFromItself(c, e1);
    }
  }

  lemma ApartFromItself(c: Config, e: Survival)
    ensures Apart(c, e, e)
  {
  }

  lemma InvNext(c: Config, s: State, s': State)
    requires ValidConfig(c) && Timely(c) && Inv(c, s) && Next(c, s, s')
    ensures Inv(c, s')
  {
    hide Inv, Receive, Acts;
    var step :| NextVia(c, s, step, s');
    assert CanTick(c, s) || !step.Tick?;
    match step
    case Tick => InvTick(c, s);
    case Crash(x) => InvCrash(c, s, x);
    case Deliver(pkt, keep) => InvReceive(c, s, pkt, keep);
    case Do(a, act, lost) => InvActs(c, s, a, act, lost);
  }

  /** Every state of every run satisfies the invariant. */
  lemma {:induction false} RunInv(c: Config, run: seq<State>, i: nat)
    requires ValidConfig(c) && Timely(c) && IsRun(c, run) && i < |run|
    ensures Inv(c, run[i])
  {
    hide Inv;
    if i == 0 {
      InitInv(c);
    } else {
      RunInv(c, run, i - 1);
      assert StepAt(c, run, i - 1);
      InvNext(c, run[i - 1], run[i]);
    }
  }

  lemma ReachableInv(c: Config, s: State)
    requires ValidConfig(c) && Timely(c) && Reachable(c, s)
    ensures Inv(c, s)
  {
    hide Inv;
    var run :| IsRun(c, run) && run[|run| - 1] == s;
    RunInv(c, run, |run| - 1);
  }
}
