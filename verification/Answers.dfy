/** What an answered query goes on to mean: a "not busy" is never wrong about a process that has held
    the resource ever since the query began. */
module Answers {
  import opened Protocol
  import opened Network
  import opened Invariants
  import opened Exclusion
  import opened Queries
  import opened Traces
  import opened Tables

  /** Process p holds r, and has not set its state since time t. */
  ghost predicate HoldsSince(c: Config, s: State, p: Id, r: Name, t: int)
    requires Shape(c, s)
  {
    p in s.alive && Has(c, p, r) && s.nodes[p].res[r].state.Acquired? && s.clocks[p][r].setAt <= t
  }

  /** The timing conditions under which queries are complete. */
  predicate QueriesTimely(c: Config)
    requires c.burst >= 1
  {
    Timely(c) && 2 * c.delay + Beacons(c.tm.beacon, c.burst) <= LongTime(c.tm)
  }

  /** q answered in the past, and "busy" if p has held the resource since the query began. */
  ghost predicate AnswerOk(c: Config, s: State, p: Id, q: Id)
    requires Shape(c, s)
  {
    q in c.specs && q != p && s.nodes[q].phase.Answered? ==>
      var ph := s.nodes[q].phase;
      ph.since < s.now && (HoldsSince(c, s, p, ph.name, ph.since) ==> ph.busy)
  }

  lemma AnswerSame(c: Config, s: State, s': State, p: Id, q: Id)
    requires Shape(c, s) && Shape(c, s') && AnswerOk(c, s, p, q)
    requires s'.now >= s.now && s'.alive <= s.alive && s'.clocks == s.clocks
    requires q in c.specs && s'.nodes[q].phase.Answered? ==> s.nodes[q].phase == s'.nodes[q].phase
    requires forall r :: Has(c, p, r) ==> s'.nodes[p].res[r].state == s.nodes[p].res[r].state
    ensures AnswerOk(c, s', p, q)
  {
  }

  lemma AnswerReceive(c: Config, s: State, pkt: Packet, keep: bool, p: Id, q: Id)
    requires ValidConfig(c) && Basics(c, s) && Shape(c, s) && AnswerOk(c, s, p, q)
    ensures AnswerOk(c, Receive(c, s, pkt, keep), p, q)
  {
    hide Receive, Local, PacketOk, DueOk, ClockOk, MissedOk, AnswerOk, ValidConfig;
    ReceiveSame(c, s, pkt, keep);
    if p in c.specs {
      assert Local(c, s, p);
      ReceiveFrame(c, s, pkt, keep, p);
    }
    if q in c.specs {
      assert Local(c, s, q);
      ReceiveFrame(c, s, pkt, keep, q);
    }
    AnswerSame(c, s, Receive(c, s, pkt, keep), p, q);
  }

  /** A process is answered by its last step, or was before. */
  lemma AnswerStep(sp: Spec, tm: Timing, n: Node, act: Act, now: int)
    requires ValidSpec(sp) && NodeOk(sp, tm, n, now) && CanAct(sp, tm, n, act, now)
    ensures var n' := Perform(sp, tm, n, act, now);
            && (act.QuietEnd? || act.Answer? ==>
                 (n.phase.ShortListen? || n.phase.LongListen?) && n'.phase.Answered? && n'.phase.name == n.phase.name
                 && n'.phase.since == n.phase.since && n'.res == n.res && n.phase.name in sp.count
                 && (n.phase.ShortListen? ==> n.phase.since + ShortTime(tm) <= now)
                 && (n.phase.LongListen? ==> n.phase.since + LongTime(tm) <= now))
            && (n'.phase.Answered? && !act.QuietEnd? && !act.Answer? ==> n'.phase == n.phase)
  {
    hide ShortTime, LongTime, WindowTime;
  }

  lemma WaitsArePositive(c: Config)
    requires ValidConfig(c) && QueriesTimely(c)
    ensures 0 < ShortTime(c.tm) && 0 < LongTime(c.tm)
  {
  }

  /** The holder's own step: a state that is set is set now, after the query began. */
  lemma AnswerHolder(c: Config, s: State, a: Id, act: Act, lost: set<(Id, Name)>, r: Name, t: int)
    requires ValidConfig(c) && Basics(c, s) && Shape(c, s) && CanDo(c, s, a, act, lost) && t < s.now
    ensures HoldsSince(c, Acts(c, s, a, act, lost), a, r, t) ==> HoldsSince(c, s, a, r, t)
  {
    hide Acts, Local, PacketOk, DueOk, ClockOk, MissedOk, Perform, Announced, CanAct, NodeOk, ValidSpec;
    assert Local(c, s, a);
    NodeOkOf(c, s, a);
    ActsNodes(c, s, a, act, lost);
    ActsClocks(c, s, a, act, lost);
    if Has(c, a, r) {
      ClaimFrame(c.specs[a], c.tm, s.nodes[a], act, s.now, r);
    }
  }

  lemma AnswerActs(c: Config, s: State, a: Id, act: Act, lost: set<(Id, Name)>, p: Id, q: Id)
    requires ValidConfig(c) && QueriesTimely(c) && Reachable(c, s) && Basics(c, s) && Shape(c, s)
    requires CanDo(c, s, a, act, lost) && AnswerOk(c, s, p, q)
    ensures AnswerOk(c, Acts(c, s, a, act, lost), p, q)
  {
    hide Acts, Basics, Reachable, Perform, Announced, CanAct, QueriesTimely, ShortTime, LongTime, ValidConfig;
    ActsNodes(c, s, a, act, lost);
    var s' := Acts(c, s, a, act, lost);
    if q in c.specs && q != p && s'.nodes[q].phase.Answered? {
      var ph := s'.nodes[q].phase;
      if a == q && (act.QuietEnd? || act.Answer?) {
        hide AnswerOk;
        AnswerGiven(c, s, act, lost, p, q);
      } else {
        if a == q {
          StillAnswered(c, s, act, lost, q);
        }
        HolderFrame(c, s, a, act, lost, p, ph.name, ph.since);
      }
    }
  }

  lemma HolderFrame(c: Config, s: State, a: Id, act: Act, lost: set<(Id, Name)>, p: Id, r: Name, t: int)
    requires ValidConfig(c) && Basics(c, s) && Shape(c, s) && CanDo(c, s, a, act, lost) && t < s.now
    ensures HoldsSince(c, Acts(c, s, a, act, lost), p, r, t) ==> HoldsSince(c, s, p, r, t)
  {
    if a == p {
      AnswerHolder(c, s, a, act, lost, r, t);
    } else {
      hide Acts, Basics, Perform, Announced, CanAct, ValidConfig;
      ActsNodes(c, s, a, act, lost);
      ActsClocks(c, s, a, act, lost);
    }
  }

  lemma StillAnswered(c: Config, s: State, act: Act, lost: set<(Id, Name)>, q: Id)
    requires ValidConfig(c) && Basics(c, s) && Shape(c, s) && CanDo(c, s, q, act, lost)
    requires !act.QuietEnd? && !act.Answer? && Acts(c, s, q, act, lost).nodes[q].phase.Answered?
    ensures Acts(c, s, q, act, lost).nodes[q].phase == s.nodes[q].phase
  {
    hide Acts, Local, PacketOk, DueOk, ClockOk, MissedOk, Perform, Announced, CanAct, NodeOk, ValidSpec;
    assert Local(c, s, q);
    NodeOkOf(c, s, q);
    ActsNodes(c, s, q, act, lost);
    AnswerStep(c.specs[q], c.tm, s.nodes[q], act, s.now);
  }

  lemma AnswerGiven(c: Config, s: State, act: Act, lost: set<(Id, Name)>, p: Id, q: Id)
    requires ValidConfig(c) && QueriesTimely(c) && Reachable(c, s) && Basics(c, s) && Shape(c, s)
    requires CanDo(c, s, q, act, lost) && (act.QuietEnd? || act.Answer?) && p != q
    ensures AnswerOk(c, Acts(c, s, q, act, lost), p, q)
  {
    hide Acts, Local, PacketOk, DueOk, ClockOk, MissedOk, Perform, Announced, CanAct, NodeOk, ValidSpec, Reachable,
        Timely, ShortTime, LongTime;
    assert Local(c, s, q);
    NodeOkOf(c, s, q);
    ActsNodes(c, s, q, act, lost);
    AnswerStep(c.specs[q], c.tm, s.nodes[q], act, s.now);
    WaitsArePositive(c);
    var s', r, since := Acts(c, s, q, act, lost), s.nodes[q].phase.name, s.nodes[q].phase.since;
    ActsClocks(c, s, q, act, lost);
    if HoldsSince(c, s', p, r, since) {
      QueryComplete(c, s, q, act, lost, p, r);
    }
  }

  lemma {:induction false} AnswerRun(c: Config, run: seq<State>, i: nat, p: Id, q: Id)
    requires ValidConfig(c) && QueriesTimely(c) && IsRun(c, run) && i < |run|
    ensures Shape(c, run[i]) && AnswerOk(c, run[i], p, q)
  {
    hide Basics, Init, Acts, Receive, Shape, CanTick, CanDo, AnswerOk, QueriesTimely, Reachable;
    BasicsRun(c, run, i);
    if i == 0 {
      NobodyAnswered(c, p, q);
    } else {
      AnswerRun(c, run, i - 1, p, q);
      BasicsRun(c, run, i - 1);
      PrefixReachable(c, run, i - 1);
      assert StepAt(c, run, i - 1);
      var s, s' := run[i - 1], run[i];
      var step :| NextVia(c, s, step, s');
      match step
      case Tick => AnswerSame(c, s, s', p, q);
      case Crash(x) => AnswerSame(c, s, s', p, q);
      case Deliver(pkt, keep) => AnswerReceive(c, s, pkt, keep, p, q);
      case Do(a, act, lost) => AnswerActs(c, s, a, act, lost, p, q);
    }
  }

  lemma NobodyAnswered(c: Config, p: Id, q: Id)
    requires ValidConfig(c)
    ensures AnswerOk(c, Init(c), p, q)
  {
  }

  /** In every reachable state: if q has answered "not busy", then nobody else alive has been holding
      the resource ever since the query began. */
  lemma AnswerStands(c: Config, s: State, p: Id, q: Id)
    requires ValidConfig(c) && QueriesTimely(c) && Reachable(c, s) && Shape(c, s) && q in c.specs && p != q
    requires s.nodes[q].phase.Answered? && HoldsSince(c, s, p, s.nodes[q].phase.name, s.nodes[q].phase.since)
    ensures s.nodes[q].phase.busy
  {
    hide Shape, Init, Next, HoldsSince, QueriesTimely, ValidConfig;
    var run :| IsRun(c, run) && run[|run| - 1] == s;
    AnswerRun(c, run, |run| - 1, p, q);
  }

  // ---- a "busy" has a reason ----

  /** What the answering step makes of the table. */
  lemma AnswerReads(sp: Spec, tm: Timing, n: Node, act: Act, now: int)
    requires ValidSpec(sp) && NodeOk(sp, tm, n, now) && CanAct(sp, tm, n, act, now) && (act.QuietEnd? || act.Answer?)
    ensures var n' := Perform(sp, tm, n, act, now);
            && (n.phase.ShortListen? || n.phase.LongListen?) && n.phase.name in n.res && n.phase.name in sp.count
            && n'.phase == Answered(n.phase.name, n.phase.since, n'.phase.busy)
            && (n'.phase.busy <==> exists id :: id in n.res[n.phase.name].members
                                                && n.res[n.phase.name].members[id].state.Acquired?)
  {
    hide ShortTime, LongTime, WindowTime;
  }

  /** The last counting delivery from p said ACQUIRED. */
  ghost predicate LastSaysAcquired(c: Config, run: seq<State>, steps: seq<Step>, p: Id, q: Id, r: Name, i: nat)
    requires i <= |steps| < |run|
  {
    var j := LastAt(c, run, steps, p, q, r, i);
    j >= 0 && steps[j].pkt.state.Acquired?
  }

  /** In every run, the step that answers a query answers "busy" if and only if of some process the last
      counting packet delivered since the last reset said ACQUIRED. */
  lemma AnsweredBusyIff(c: Config, run: seq<State>, steps: seq<Step>, m: nat, q: Id, act: Act, lost: set<(Id, Name)>)
    requires ValidConfig(c) && IsTrace(c, run, steps) && m < |steps| < |run|
    requires steps[m] == Do(q, act, lost) && (act.QuietEnd? || act.Answer?)
    ensures q in run[m].nodes && q in run[m + 1].nodes
    ensures var ph, ph' := run[m].nodes[q].phase, run[m + 1].nodes[q].phase;
            && (ph.ShortListen? || ph.LongListen?) && ph'.Answered? && ph'.name == ph.name && ph'.since == ph.since
            && (ph'.busy <==> exists p :: LastSaysAcquired(c, run, steps, p, q, ph.name, m))
  {
    hide Basics, IsTrace, Acts, Perform, CanAct, Announced, ValidConfig, NodeOk, LastSaysAcquired, Shape;
    StepOfTrace(c, run, steps, m);
    var s := run[m];
    BasicsAt(c, run, steps, m);
    Answering(c, s, q, act, lost);
    var r, t := s.nodes[q].phase.name, s.nodes[q].res[s.nodes[q].phase.name].members;
    forall p ensures LastSaysAcquired(c, run, steps, p, q, r, m) <==> p in t && t[p].state.Acquired? {
      TableSays(c, run, steps, m, p, q, r);
    }
  }

  lemma Answering(c: Config, s: State, q: Id, act: Act, lost: set<(Id, Name)>)
    requires ValidConfig(c) && Basics(c, s) && Shape(c, s) && CanDo(c, s, q, act, lost)
    requires act.QuietEnd? || act.Answer?
    ensures q in s.nodes && q in Acts(c, s, q, act, lost).nodes
    ensures var n, n' := s.nodes[q], Acts(c, s, q, act, lost).nodes[q];
            && (n.phase.ShortListen? || n.phase.LongListen?) && n.phase.name in n.res && Has(c, q, n.phase.name)
            && n'.phase == Answered(n.phase.name, n.phase.since, n'.phase.busy)
            && (n'.phase.busy <==> exists id :: id in n.res[n.phase.name].members
                                                && n.res[n.phase.name].members[id].state.Acquired?)
  {
    hide Acts, Local, PacketOk, DueOk, ClockOk, MissedOk, Perform, Announced, CanAct, NodeOk, ValidSpec;
    assert Local(c, s, q);
    NodeOkOf(c, s, q);
    ActsNodes(c, s, q, act, lost);
    AnswerReads(c.specs[q], c.tm, s.nodes[q], act, s.now);
  }

  lemma TableSays(c: Config, run: seq<State>, steps: seq<Step>, m: nat, p: Id, q: Id, r: Name)
    requires ValidConfig(c) && IsTrace(c, run, steps) && m <= |steps| < |run| && Has(c, q, r)
    requires q in run[m].nodes && r in run[m].nodes[q].res
    ensures var t := run[m].nodes[q].res[r].members;
            LastSaysAcquired(c, run, steps, p, q, r, m) <==> p in t && t[p].state.Acquired?
  {
    hide IsTrace, Counts, Clears;
    TableIsLastDelivered(c, run, steps, m, p, q, r);
  }

  // ---- and a recent one ----

  /** p sent q an ACQUIRED packet about r, no earlier than a delay before t. */
  ghost predicate Reason(c: Config, s: State, p: Id, q: Id, r: Name, t: int) {
    p != q && exists pkt :: pkt in s.sent && OnLink(pkt, p, q, r) && pkt.state.Acquired? && pkt.sentAt >= t - c.delay
  }

  /** Every holder that q knows of, and a "busy" that q has answered to the query of time t, has a reason. */
  ghost predicate Reasoned(c: Config, s: State, q: Id, r: Name, t: int)
    requires Shape(c, s) && Has(c, q, r)
  {
    && t <= s.now
    && (forall p :: Knows(s.nodes[q], r, p) ==> Reason(c, s, p, q, r, t))
    && (s.nodes[q].phase == Answered(r, t, true) ==> exists p :: Reason(c, s, p, q, r, t))
  }

  lemma ReasonStays(c: Config, s: State, step: Step, p: Id, q: Id, r: Name, t: int)
    requires ValidConfig(c) && Shape(c, s) && Enabled(c, s, step) && Reason(c, s, p, q, r, t)
    ensures Reason(c, Apply(c, s, step), p, q, r, t)
  {
    hide CanAct, Perform, Announced, CanTick, ValidSpec;
    var s' := Apply(c, s, step);
    var pkt :| pkt in s.sent && OnLink(pkt, p, q, r) && pkt.state.Acquired? && pkt.sentAt >= t - c.delay;
    if step.Do? {
      ActsNet(c, s, step.id, step.act, step.lost);
    } else if step.Deliver? {
      ReceiveSame(c, s, step.pkt, step.keep);
    }
    assert pkt in s'.sent;
  }

  lemma KnownReason(c: Config, s: State, step: Step, p: Id, q: Id, r: Name, t: int)
    requires ValidConfig(c) && Basics(c, s) && Shape(c, s) && Enabled(c, s, step) && Has(c, q, r)
    requires Reasoned(c, s, q, r, t) && Knows(Apply(c, s, step).nodes[q], r, p)
    ensures Reason(c, Apply(c, s, step), p, q, r, t)
  {
    hide Basics, Apply, Enabled, Reason, Clears;
    EntryStep(c, s, step, p, q, r);
    if Counts(c, s, step, p, q, r) {
      DeliveryIsReason(c, s, step, p, q, r, t);
    } else {
      ReasonStays(c, s, step, p, q, r, t);
    }
  }

  lemma DeliveryIsReason(c: Config, s: State, step: Step, p: Id, q: Id, r: Name, t: int)
    requires ValidConfig(c) && Basics(c, s) && Shape(c, s) && Enabled(c, s, step) && t <= s.now
    requires step.Deliver? && OnLink(step.pkt, p, q, r) && p != q && step.pkt.state.Acquired?
    ensures Reason(c, Apply(c, s, step), p, q, r, t)
  {
    hide Local, DueOk, ClockOk, MissedOk, OnPacket, ValidSpec;
    ReceiveSame(c, s, step.pkt, step.keep);
    assert PacketOk(c, s, step.pkt);
    assert step.pkt in Apply(c, s, step).sent;
  }

  lemma ReasonedStep(c: Config, s: State, step: Step, q: Id, r: Name, t: int)
    requires ValidConfig(c) && Basics(c, s) && Shape(c, s) && Enabled(c, s, step) && Has(c, q, r)
    requires Reasoned(c, s, q, r, t)
    ensures Reasoned(c, Apply(c, s, step), q, r, t)
  {
    hide Basics, Apply, Enabled, Reason, Knows;
    var s' := Apply(c, s, step);
    forall p | Knows(s'.nodes[q], r, p) ensures Reason(c, s', p, q, r, t) {
      KnownReason(c, s, step, p, q, r, t);
    }
    if s'.nodes[q].phase == Answered(r, t, true) {
      if s.nodes[q].phase == Answered(r, t, true) {
        var p :| Reason(c, s, p, q, r, t);
        ReasonStays(c, s, step, p, q, r, t);
      } else {
        var p := JustAnswered(c, s, step, q, r, t);
        ReasonStays(c, s, step, p, q, r, t);
      }
    }
    StepTime(c, s, step);
  }

  lemma StepTime(c: Config, s: State, step: Step)
    requires ValidConfig(c) && Shape(c, s) && Enabled(c, s, step)
    ensures Apply(c, s, step).now >= s.now
  {
    hide CanAct, Perform, Announced, OnPacket, CanTick, ValidSpec;
  }

  /** Whoever has just answered "busy" knew a holder. */
  lemma JustAnswered(c: Config, s: State, step: Step, q: Id, r: Name, t: int) returns (p: Id)
    requires ValidConfig(c) && Basics(c, s) && Shape(c, s) && Enabled(c, s, step) && Has(c, q, r)
    requires s.nodes[q].phase != Answered(r, t, true) && Apply(c, s, step).nodes[q].phase == Answered(r, t, true)
    ensures Knows(s.nodes[q], r, p)
  {
    hide Acts, Receive, Local, PacketOk, DueOk, ClockOk, MissedOk, CanAct, CanTick, ValidSpec, CanDo;
    assert Local(c, s, q);
    match step
    case Tick => assert false;
    case Crash(_) => assert false;
    case Deliver(pkt, keep) =>
      ReceiveFrame(c, s, pkt, keep, q);
      assert false;
    case Do(a, act, lost) =>
      ActsPhase(c, s, a, act, lost, q);
      Answering(c, s, q, act, lost);
      var id :| id in s.nodes[q].res[r].members && s.nodes[q].res[r].members[id].state.Acquired?;
      p := id;
  }

  lemma ActsPhase(c: Config, s: State, a: Id, act: Act, lost: set<(Id, Name)>, q: Id)
    requires ValidConfig(c) && Basics(c, s) && Shape(c, s) && CanDo(c, s, a, act, lost) && q in c.specs
    requires Acts(c, s, a, act, lost).nodes[q].phase.Answered?
    requires Acts(c, s, a, act, lost).nodes[q].phase != s.nodes[q].phase
    ensures a == q && (act.QuietEnd? || act.Answer?)
  {
    hide Basics, Acts, CanDo;
    ActsNodes(c, s, a, act, lost);
    if a == q && !act.QuietEnd? && !act.Answer? {
      StillAnswered(c, s, act, lost, q);
    }
  }

  lemma QueryStarts(c: Config, s: State, q: Id, r: Name, lost: set<(Id, Name)>)
    requires ValidConfig(c) && Reachable(c, s) && Basics(c, s) && Shape(c, s) && CanDo(c, s, q, Query(r), lost)
    requires r in s.nodes[q].res && s.nodes[q].res[r].state.Idle?
    ensures Has(c, q, r) && Reasoned(c, Acts(c, s, q, Query(r), lost), q, r, s.now)
  {
    hide Acts, Reachable, Basics;
    ActsNodes(c, s, q, Query(r), lost);
    IdleTableEmpty(c, s, q, r);
  }

  lemma {:induction false} ReasonedRun(c: Config, run: seq<State>, steps: seq<Step>, i: nat, n: nat, q: Id, r: Name,
        lost: set<(Id, Name)>)
    requires ValidConfig(c) && IsTrace(c, run, steps) && i < n <= |steps| < |run| && steps[i] == Do(q, Query(r), lost)
    requires Shape(c, run[i]) && Has(c, q, r) && run[i].nodes[q].res[r].state.Idle?
    ensures Shape(c, run[n]) && Reasoned(c, run[n], q, r, run[i].now)
    decreases n
  {
    hide Basics, Enabled, Apply, IsTrace, Shape, Reasoned, ValidConfig, Has, Reachable;
    StepOfTrace(c, run, steps, n - 1);
    BasicsAt(c, run, steps, n - 1);
    if n == i + 1 {
      TraceReaches(c, run, steps, i);
      StartsReasoned(c, run[i], q, r, lost);
    } else {
      ReasonedRun(c, run, steps, i, n - 1, q, r, lost);
      ReasonedStep(c, run[n - 1], steps[n - 1], q, r, run[i].now);
    }
  }

  lemma TraceReaches(c: Config, run: seq<State>, steps: seq<Step>, i: nat)
    requires ValidConfig(c) && IsTrace(c, run, steps) && i < |run|
    ensures Reachable(c, run[i])
  {
    hide IsTrace, Reachable, IsRun;
    TraceIsRun(c, run, steps);
    PrefixReachable(c, run, i);
  }

  lemma StartsReasoned(c: Config, s: State, q: Id, r: Name, lost: set<(Id, Name)>)
    requires ValidConfig(c) && Reachable(c, s) && Basics(c, s) && Shape(c, s) && Enabled(c, s, Do(q, Query(r), lost))
    requires Has(c, q, r) && s.nodes[q].res[r].state.Idle?
    ensures Reasoned(c, Apply(c, s, Do(q, Query(r), lost)), q, r, s.now)
  {
    hide Acts, Reachable, Basics, Reasoned;
    QueryStarts(c, s, q, r, lost);
  }

  /** In every run: if q answered "busy" to a query that it began with the resource IDLE, then some other
      process sent q an ACQUIRED packet about it, no earlier than one delay before the query began. */
  lemma BusyIsRecent(c: Config, run: seq<State>, steps: seq<Step>, i: nat, n: nat, q: Id, r: Name,
        lost: set<(Id, Name)>)
    requires ValidConfig(c) && IsTrace(c, run, steps) && i < n <= |steps| < |run| && steps[i] == Do(q, Query(r), lost)
    requires Shape(c, run[i]) && Has(c, q, r) && run[i].nodes[q].res[r].state.Idle?
    requires Shape(c, run[n]) && run[n].nodes[q].phase == Answered(r, run[i].now, true)
    ensures exists p, pkt :: p != q && pkt in run[n].sent && OnLink(pkt, p, q, r) && pkt.state.Acquired?
                             && pkt.sentAt >= run[i].now - c.delay
  {
    hide IsTrace, Shape;
    ReasonedRun(c, run, steps, i, n, q, r, lost);
    var p :| Reason(c, run[n], p, q, r, run[i].now);
    var pkt :| pkt in run[n].sent && OnLink(pkt, p, q, r) && pkt.state.Acquired? && pkt.sentAt >= run[i].now - c.delay;
  }
}
