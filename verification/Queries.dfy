/** `isBusy` never misses a process that holds the resource for the whole query. */
module Queries {
  import opened Protocol
  import opened Network
  import opened Invariants
  import opened PairSteps
  import opened Preservation
  import opened Survivors
  import opened Exclusion

  predicate Asking(ph: Phase) {
    ph.ShortListen? || ph.LongListen?
  }

  /** A packet of the holder interrupts the short listen in time. */
  ghost predicate ShortOk(c: Config, v: Pair, since: int) {
    || (exists pkt :: pkt in v.link && pkt.sentAt <= since + Lag(c, c.burst))
    || v.due <= since + Lag(c, v.missed + 1)
  }

  /** Once all older packets are gone, an ACQUIRED packet of the holder is heard in time. */
  ghost predicate LongOk(c: Config, v: Pair, since: int) {
    var f := since + c.delay;
    || (v.now > f && v.knows)
    || (exists pkt :: pkt in v.link && pkt.state.Acquired? && f <= pkt.sentAt < f + Lag(c, c.burst))
    || v.due < f + Lag(c, v.missed + 1)
  }

  ghost predicate Watched(v: Pair, setAt: int) {
    v.qAlive && v.pAlive && v.pState.Acquired? && Asking(v.qPhase) && setAt <= v.qPhase.since
  }

  ghost predicate QueryOk(c: Config, v: Pair, setAt: int) {
    Watched(v, setAt) ==>
      LongOk(c, v, v.qPhase.since) && (v.qPhase.ShortListen? ==> ShortOk(c, v, v.qPhase.since))
  }

  ghost predicate QueryInv(c: Config, s: State, p: Id, q: Id, r: Name)
    requires Shape(c, s)
  {
    Shared(c, p, q, r) && Asking(s.nodes[q].phase) && s.nodes[q].phase.name == r ==>
      QueryOk(c, View(c, s, p, q, r), s.clocks[p][r].setAt)
  }

  /** What the one-process facts say about a query. */
  ghost predicate AskOk(c: Config, v: Pair, setAt: int) {
    && v.missed < c.burst && setAt <= v.now
    && (v.pAlive && IsClaim(v.pState) ==> v.now <= v.due <= v.now + c.tm.beacon)
    && (Asking(v.qPhase) ==> v.qState.Querying? && v.qPhase.since <= v.now)
    && (v.qPhase.LongListen? ==> v.qPhase.since + LongTime(c.tm) <= v.qPhase.until)
    && (forall pkt :: pkt in v.link ==>
         pkt.sentAt <= v.now <= pkt.sentAt + c.delay && (pkt.state != v.pState ==> pkt.sentAt <= setAt))
  }

  // ---- steps of a pair ----

  /** v' is v after a delivery, as far as a query is concerned. */
  ghost predicate Heard(v: Pair, pkt: Packet, onLink: bool, v': Pair) {
    && v' == v.(pPhase := v'.pPhase, qPhase := v'.qPhase, knows := v'.knows, link := v'.link)
    && v.link - {pkt} <= v'.link
    && (onLink ==> pkt in v.link)
    && (!onLink ==> v'.knows == v.knows && pkt !in v.link)
    && (Asking(v'.qPhase) ==> Asking(v.qPhase) && v'.qPhase.since == v.qPhase.since)
    && (v'.qPhase.ShortListen? ==> v.qPhase.ShortListen? && (v.qAlive ==> !onLink))
    && (onLink && v.qAlive && v.qState.Querying? ==> v'.knows == pkt.state.Acquired?)
  }

  lemma QueryHeard(c: Config, v: Pair, pkt: Packet, onLink: bool, v': Pair, setAt: int)
    requires AskOk(c, v, setAt) && QueryOk(c, v, setAt) && Heard(v, pkt, onLink, v') && pkt.sentAt < v.now
    ensures QueryOk(c, v', setAt)
  {
    forall x | x in v.link && x != pkt ensures x in v'.link {
      assert x in v.link - {pkt};
    }
  }

  lemma QueryTick(c: Config, v: Pair, setAt: int)
    requires QueryOk(c, v, setAt)
    ensures QueryOk(c, v.(now := v.now + 1), setAt)
  {
  }

  /** The holder's beacon. */
  lemma QueryBeacon(c: Config, v: Pair, v': Pair, setAt: int)
    requires ValidConfig(c) && AskOk(c, v, setAt) && QueryOk(c, v, setAt)
    requires Told(c, v, v.pState, v') && v' == v.(due := v.now + c.tm.beacon, missed := v'.missed, link := v'.link)
    ensures QueryOk(c, v', setAt)
  {
    BeaconsMonotone(c.tm.beacon, v.missed + 1, c.burst);
    BeaconsMonotone(c.tm.beacon, 1, v'.missed + 1);
    assert Lag(c, 1) == c.tm.beacon;
    if v'.link != v.link {
      var pkt :| v'.link == v.link + {pkt} && pkt.state == v.pState && pkt.sentAt == v.now;
      assert pkt in v'.link;
    }
  }

  /** The query, or the hold, begins now. */
  lemma QueryBegins(c: Config, v': Pair, setAt: int)
    requires ValidConfig(c) && (v'.pAlive && IsClaim(v'.pState) ==> v'.due <= v'.now + c.tm.beacon)
    requires Watched(v', setAt) ==> v'.qPhase.since >= v'.now
    ensures QueryOk(c, v', setAt)
  {
    BeaconsMonotone(c.tm.beacon, 1, v'.missed + 1);
    assert Lag(c, 1) == c.tm.beacon;
  }

  /** Neither listening period can end without having heard of the holder. */
  lemma QueryEnds(c: Config, v: Pair, setAt: int)
    requires ValidConfig(c) && Timely(c) && AskOk(c, v, setAt) && QueryOk(c, v, setAt) && Watched(v, setAt)
    requires 2 * c.delay + Lag(c, c.burst) <= LongTime(c.tm)
    ensures v.qPhase.ShortListen? ==> v.now < v.qPhase.since + ShortTime(c.tm)
    ensures v.qPhase.LongListen? && v.now >= v.qPhase.until ==> v.knows
  {
    TimelyFacts(c);
    BeaconsMonotone(c.tm.beacon, v.missed + 1, c.burst);
  }

  // ---- steps of the system ----

  lemma AskOkOf(c: Config, s: State, p: Id, q: Id, r: Name)
    requires ValidConfig(c) && Basics(c, s) && Shared(c, p, q, r)
    requires Asking(s.nodes[q].phase) ==> s.nodes[q].phase.name == r
    ensures AskOk(c, View(c, s, p, q, r), s.clocks[p][r].setAt)
  {
    hide TableOk, LongTime, Knows, ValidSpec;
    assert Local(c, s, q) && DueOk(c, s, p, r) && ClockOk(c, s, p, r) && MissedOk(c, s, p, q, r);
    var v := View(c, s, p, q, r);
    forall pkt | pkt in v.link
      ensures pkt.sentAt <= v.now <= pkt.sentAt + c.delay
            && (pkt.state != v.pState ==> pkt.sentAt <= s.clocks[p][r].setAt)
    {
      assert PacketOk(c, s, pkt);
    }
  }

  lemma AskingPacket(sp: Spec, tm: Timing, n: Node, pkt: Packet, now: int)
    requires pkt.name in n.res && pkt.name in sp.count
    ensures var n' := OnPacket(sp, tm, n, pkt, now);
            && !n'.phase.ShortListen?
            && (Asking(n'.phase) ==>
                 Asking(n.phase) && n'.phase.since == n.phase.since && n'.phase.name == n.phase.name)
            && (n.res[pkt.name].state.Querying? ==> Knows(n', pkt.name, pkt.src) == pkt.state.Acquired?)
  {
  }

  lemma AskingReceive(c: Config, s: State, pkt: Packet, keep: bool, q: Id, r: Name)
    requires ValidConfig(c) && Shape(c, s) && Has(c, q, r) && pkt.src != pkt.dst
    ensures var n, n' := s.nodes[q], Receive(c, s, pkt, keep).nodes[q];
            && (Asking(n'.phase) ==>
                 Asking(n.phase) && n'.phase.since == n.phase.since && n'.phase.name == n.phase.name)
            && (n'.phase.ShortListen? ==> n.phase.ShortListen? && (q in s.alive && pkt.dst == q ==> pkt.name != r))
            && (q in s.alive && pkt.dst == q && pkt.name == r && n.res[r].state.Querying?
                ==> Knows(n', r, pkt.src) == pkt.state.Acquired?)
  {
    if q in s.alive && pkt.dst == q && Has(c, q, pkt.name) {
      AskingPacket(c.specs[q], c.tm, s.nodes[q], pkt, s.now);
    }
    hide OnPacket;
  }

  lemma HeardView(c: Config, s: State, pkt: Packet, keep: bool, p: Id, q: Id, r: Name)
    requires ValidConfig(c) && Shape(c, s) && Shared(c, p, q, r) && Local(c, s, p) && Local(c, s, q)
    requires pkt in s.net && PacketOk(c, s, pkt) && Asking(s.nodes[q].phase) && s.nodes[q].phase.name == r
    ensures Heard(View(c, s, p, q, r), pkt, OnLink(pkt, p, q, r), View(c, Receive(c, s, pkt, keep), p, q, r))
  {
    AskingReceive(c, s, pkt, keep, q, r);
    ReceiveFrame(c, s, pkt, keep, p);
    ReceiveFrame(c, s, pkt, keep, q);
    ReceiveLink(c, s, pkt, keep, p, q, r);
    if !OnLink(pkt, p, q, r) {
      ReceiveOffLink(c, s, pkt, keep, p, q, r);
    }
    hide Receive, Local, PacketOk;
  }

  lemma QueryReceive(c: Config, s: State, pkt: Packet, keep: bool, p: Id, q: Id, r: Name)
    requires ValidConfig(c) && Basics(c, s) && pkt in s.net && pkt.sentAt < s.now && QueryInv(c, s, p, q, r)
    ensures QueryInv(c, Receive(c, s, pkt, keep), p, q, r)
  {
    assert PacketOk(c, s, pkt) && Local(c, s, p) && Local(c, s, q);
    if Shared(c, p, q, r) {
      AskingReceive(c, s, pkt, keep, q, r);
      ReceiveSame(c, s, pkt, keep);
      hide Receive, AskOk, QueryOk, Heard, View, PacketOk, Local, Knows;
      if Asking(s.nodes[q].phase) && s.nodes[q].phase.name == r {
        AskOkOf(c, s, p, q, r);
        HeardView(c, s, pkt, keep, p, q, r);
        ViewNow(c, s, p, q, r);
        hide Basics;
        QueryHeard(c, View(c, s, p, q, r), pkt, OnLink(pkt, p, q, r), View(c, Receive(c, s, pkt, keep), p, q, r),
            s.clocks[p][r].setAt);
      }
    }
  }

  lemma ViewNow(c: Config, s: State, p: Id, q: Id, r: Name)
    requires Shape(c, s) && Shared(c, p, q, r)
    ensures View(c, s, p, q, r).now == s.now
  {
  }

  /** How a step of the holder, or of the asker, bears on a query. */
  lemma AskerStep(sp: Spec, tm: Timing, n: Node, act: Act, now: int)
    requires ValidSpec(sp) && NodeOk(sp, tm, n, now) && CanAct(sp, tm, n, act, now)
    ensures var n' := Perform(sp, tm, n, act, now);
            Asking(n'.phase) ==> n' == n || n'.phase.since == now
  {
  }

  /** A step of the holder: it beacons, or sets the state of r, or does not touch r. */
  lemma QueryPStep(c: Config, v: Pair, v': Pair, n': Node, rs: set<Name>, act: Act, r: Name, setAt: int, setAt': int)
    requires ValidConfig(c) && AskOk(c, v, setAt) && QueryOk(c, v, setAt) && Spoke(c, v, v', n', rs, act, r)
    requires v'.pAlive && IsClaim(v'.pState) ==> v'.due <= v'.now + c.tm.beacon
    requires setAt' == if r in rs && !act.Beacon? then v.now else setAt
    requires r !in rs || act.Beacon? ==> v'.pState == v.pState
    requires act.Beacon? ==> v'.pPhase == v.pPhase
    ensures QueryOk(c, v', setAt')
  {
    hide QueryOk, AskOk;
    if r in rs && act.Beacon? {
      QueryBeacon(c, v, v', setAt);
    } else if r in rs {
      QueryBegins(c, v', setAt');
    } else {
      QuerySame(c, v, v', setAt);
    }
  }

  lemma QueryActsP(c: Config, s: State, a: Id, act: Act, lost: set<(Id, Name)>, q: Id, r: Name)
    requires ValidConfig(c) && Shape(c, s) && Shared(c, a, q, r) && CanDo(c, s, a, act, lost) && Local(c, s, a)
    requires AskOk(c, View(c, s, a, q, r), s.clocks[a][r].setAt)
          && QueryOk(c, View(c, s, a, q, r), s.clocks[a][r].setAt)
    requires var s' := Acts(c, s, a, act, lost); DueOk(c, s', a, r)
    ensures var s' := Acts(c, s, a, act, lost); QueryOk(c, View(c, s', a, q, r), s'.clocks[a][r].setAt)
  {
    NodeOkOf(c, s, a);
    ActsClocks(c, s, a, act, lost);
    var s' := Acts(c, s, a, act, lost);
    var v, v' := View(c, s, a, q, r), View(c, s', a, q, r);
    var n', rs := Perform(c.specs[a], c.tm, s.nodes[a], act, s.now),
        Announced(c.specs[a], c.tm, s.nodes[a], act, s.now);
    ClaimFrame(c.specs[a], c.tm, s.nodes[a], act, s.now, r);
    AnnouncingByP(c, s, a, n', rs, act, lost, q, r);
    DueOfView(c, s', a, q, r);
    BothViewsOf(c, s, a, q, r);
    assert v'.pState == n'.res[r].state && v'.pPhase == n'.phase;
    hide Announcing, Perform, Announced, CanAct, NodeOk, Local, ValidSpec, View, QueryOk, AskOk, DueOk, Spoke;
    QueryPStep(c, v, v', n', rs, act, r, s.clocks[a][r].setAt, s'.clocks[a][r].setAt);
  }

  lemma DueOfView(c: Config, s: State, p: Id, q: Id, r: Name)
    requires Shape(c, s) && Shared(c, p, q, r) && DueOk(c, s, p, r)
    ensures var v := View(c, s, p, q, r); v.pAlive && IsClaim(v.pState) ==> v.due <= v.now + c.tm.beacon
  {
  }

  lemma QuerySame(c: Config, v: Pair, v': Pair, setAt: int)
    requires QueryOk(c, v, setAt) && v' == v.(pPhase := v'.pPhase)
    ensures QueryOk(c, v', setAt)
  {
  }

  lemma QueryActsQ(c: Config, s: State, a: Id, act: Act, lost: set<(Id, Name)>, p: Id, r: Name)
    requires ValidConfig(c) && Shape(c, s) && Shared(c, p, a, r) && CanDo(c, s, a, act, lost) && Local(c, s, a)
    requires QueryInv(c, s, p, a, r) && DueOk(c, s, p, r)
    ensures QueryInv(c, Acts(c, s, a, act, lost), p, a, r)
  {
    NodeOkOf(c, s, a);
    ActsClocks(c, s, a, act, lost);
    ActsNodes(c, s, a, act, lost);
    AskerStep(c.specs[a], c.tm, s.nodes[a], act, s.now);
    var s' := Acts(c, s, a, act, lost);
    var n', rs := Perform(c.specs[a], c.tm, s.nodes[a], act, s.now),
        Announced(c.specs[a], c.tm, s.nodes[a], act, s.now);
    AnnouncingByQ(c, s, a, n', rs, act, lost, p, r);
    DueOfView(c, s, p, a, r);
    QView(c, s, p, a, r);
    hide Announcing, Perform, Announced, CanAct, NodeOk, Local, ValidSpec, View, QueryOk, DueOk;
    if Asking(n'.phase) {
      if n' == s.nodes[a] {
        assert View(c, s', p, a, r) == View(c, s, p, a, r);
      } else {
        QueryBegins(c, View(c, s', p, a, r), s.clocks[p][r].setAt);
      }
    }
  }

  lemma QView(c: Config, s: State, p: Id, q: Id, r: Name)
    requires Shape(c, s) && Shared(c, p, q, r)
    ensures var v, n := View(c, s, p, q, r), s.nodes[q];
            v.now == s.now && v.qPhase == n.phase && v.qState == n.res[r].state && v.knows == Knows(n, r, p)
  {
  }

  lemma QueryActs(c: Config, s: State, a: Id, act: Act, lost: set<(Id, Name)>, p: Id, q: Id, r: Name)
    requires ValidConfig(c) && Basics(c, s) && Shape(c, s) && CanDo(c, s, a, act, lost) && QueryInv(c, s, p, q, r)
    ensures QueryInv(c, Acts(c, s, a, act, lost), p, q, r)
  {
    BasicParts(c, s, a, p, r);
    hide Basics, Acts, CanAct, Perform, Announced, Local, DueOk, ClockOk, QueryOk, AskOk, View, CanDo, Shape;
    if Shared(c, p, q, r) {
      if a == q {
        QueryActsQ(c, s, a, act, lost, p, r);
      } else {
        QueryActsNotQ(c, s, a, act, lost, p, q, r);
      }
    }
  }

  lemma BasicParts(c: Config, s: State, a: Id, p: Id, r: Name)
    requires ValidConfig(c) && Basics(c, s)
    ensures Local(c, s, a) && DueOk(c, s, p, r) && ClockOk(c, s, p, r)
  {
  }

  lemma QueryActsNotQ(c: Config, s: State, a: Id, act: Act, lost: set<(Id, Name)>, p: Id, q: Id, r: Name)
    requires ValidConfig(c) && Basics(c, s) && Shape(c, s) && CanDo(c, s, a, act, lost) && Shared(c, p, q, r) && a != q
    requires Local(c, s, a) && DueOk(c, s, p, r) && ClockOk(c, s, p, r) && QueryInv(c, s, p, q, r)
    ensures QueryInv(c, Acts(c, s, a, act, lost), p, q, r)
  {
    hide Basics, Acts, CanAct, Perform, Announced, Local, DueOk, ClockOk, QueryOk, AskOk, View, CanDo;
    ActsNodes(c, s, a, act, lost);
    ActsClocks(c, s, a, act, lost);
    if Asking(s.nodes[q].phase) && s.nodes[q].phase.name == r {
      if a == p {
        AskOkOf(c, s, p, q, r);
        ActsDueOk(c, s, a, act, lost, p, r);
        QueryActsP(c, s, a, act, lost, q, r);
      } else {
        QueryOther(c, s, a, act, lost, p, q, r);
      }
    }
  }

  lemma QueryOther(c: Config, s: State, a: Id, act: Act, lost: set<(Id, Name)>, p: Id, q: Id, r: Name)
    requires ValidConfig(c) && Shape(c, s) && Shared(c, p, q, r) && CanDo(c, s, a, act, lost) && a != p && a != q
    ensures View(c, Acts(c, s, a, act, lost), p, q, r) == View(c, s, p, q, r)
  {
    hide Perform, Announced, CanAct, View, Announcing;
    AnnouncingOther(c, s, a, Perform(c.specs[a], c.tm, s.nodes[a], act, s.now),
                    Announced(c.specs[a], c.tm, s.nodes[a], act, s.now), act, lost, p, q, r);
  }

  lemma QueryInvTick(c: Config, s: State, p: Id, q: Id, r: Name)
    requires ValidConfig(c) && Shape(c, s) && CanTick(c, s) && QueryInv(c, s, p, q, r)
    ensures QueryInv(c, Apply(c, s, Tick), p, q, r)
  {
    hide CanTick, QueryOk, View;
    if Shared(c, p, q, r) && Asking(s.nodes[q].phase) && s.nodes[q].phase.name == r {
      TickView(c, s, p, q, r);
      QueryTick(c, View(c, s, p, q, r), s.clocks[p][r].setAt);
    }
  }

  lemma QueryInvCrash(c: Config, s: State, x: Id, p: Id, q: Id, r: Name)
    requires ValidConfig(c) && Shape(c, s) && x in s.alive && QueryInv(c, s, p, q, r)
    ensures QueryInv(c, Apply(c, s, Crash(x)), p, q, r)
  {
    hide QueryOk, View;
    if Shared(c, p, q, r) && Asking(s.nodes[q].phase) && s.nodes[q].phase.name == r {
      CrashView(c, s, x, p, q, r);
      QueryFewer(c, View(c, s, p, q, r), View(c, Apply(c, s, Crash(x)), p, q, r), s.clocks[p][r].setAt);
    }
  }

  lemma QueryFewer(c: Config, v: Pair, v': Pair, setAt: int)
    requires QueryOk(c, v, setAt) && v' == v.(pAlive := v'.pAlive, qAlive := v'.qAlive)
    requires (v'.pAlive ==> v.pAlive) && (v'.qAlive ==> v.qAlive)
    ensures QueryOk(c, v', setAt)
  {
  }

  lemma QueryStep(c: Config, s: State, step: Step, p: Id, q: Id, r: Name)
    requires ValidConfig(c) && Basics(c, s) && Shape(c, s) && Enabled(c, s, step) && QueryInv(c, s, p, q, r)
    ensures QueryInv(c, Apply(c, s, step), p, q, r)
  {
    hide Basics, QueryInv, Receive, Acts, CanTick, Shape;
    match step
    case Tick => QueryInvTick(c, s, p, q, r);
    case Crash(x) => QueryInvCrash(c, s, x, p, q, r);
    case Deliver(pkt, keep) => QueryReceive(c, s, pkt, keep, p, q, r);
    case Do(a, act, lost) => QueryActs(c, s, a, act, lost, p, q, r);
  }

  lemma {:induction false} QueryRun(c: Config, run: seq<State>, i: nat, p: Id, q: Id, r: Name)
    requires ValidConfig(c) && Timely(c) && IsRun(c, run) && i < |run|
    ensures Shape(c, run[i]) && QueryInv(c, run[i], p, q, r)
  {
    BasicsRun(c, run, i);
    hide Basics, Init, QueryInv, Shape;
    if i == 0 {
      InitQuery(c, p, q, r);
    } else {
      QueryRun(c, run, i - 1, p, q, r);
      BasicsRun(c, run, i - 1);
      assert StepAt(c, run, i - 1);
      var step :| NextVia(c, run[i - 1], step, run[i]);
      QueryStep(c, run[i - 1], step, p, q, r);
    }
  }

  lemma InitQuery(c: Config, p: Id, q: Id, r: Name)
    requires ValidConfig(c)
    ensures QueryInv(c, Init(c), p, q, r)
  {
  }

  // ---- results ----

  /** Query completeness: a query that ends while some process has been holding the resource ever
      since the query began answers "busy"; and it never ends with its short listen. */
  lemma QueryComplete(c: Config, s: State, q: Id, act: Act, lost: set<(Id, Name)>, p: Id, r: Name)
    requires ValidConfig(c) && Timely(c) && 2 * c.delay + Beacons(c.tm.beacon, c.burst) <= LongTime(c.tm)
    requires Reachable(c, s) && Shape(c, s) && CanDo(c, s, q, act, lost) && (act.QuietEnd? || act.Answer?)
    requires r == s.nodes[q].phase.name && p != q && p in s.alive && Has(c, p, r)
    requires s.nodes[p].res[r].state.Acquired? && s.clocks[p][r].setAt <= s.nodes[q].phase.since
    ensures act.Answer?
    ensures Acts(c, s, q, act, lost).nodes[q].phase == Answered(r, s.nodes[q].phase.since, true)
  {
    hide Basics, Reachable, Acts, AskOk, QueryOk, View, Timely, LongTime, Beacons, ValidConfig;
    QueryReachable(c, s, p, q, r);
    ActsNodes(c, s, q, act, lost);
    AskOkOf(c, s, p, q, r);
    QueryWatched(c, s, p, q, r);
    QueryEnds(c, View(c, s, p, q, r), s.clocks[p][r].setAt);
    QView(c, s, p, q, r);
  }

  lemma QueryReachable(c: Config, s: State, p: Id, q: Id, r: Name)
    requires ValidConfig(c) && Timely(c) && Reachable(c, s)
    ensures Basics(c, s) && Shape(c, s) && QueryInv(c, s, p, q, r)
  {
    var run :| IsRun(c, run) && run[|run| - 1] == s;
    QueryRun(c, run, |run| - 1, p, q, r);
    BasicsRun(c, run, |run| - 1);
    hide Basics, QueryInv;
  }

  lemma QueryWatched(c: Config, s: State, p: Id, q: Id, r: Name)
    requires Shape(c, s) && Shared(c, p, q, r) && QueryInv(c, s, p, q, r) && p in s.alive && q in s.alive
    requires Asking(s.nodes[q].phase) && s.nodes[q].phase.name == r
    requires s.nodes[p].res[r].state.Acquired? && s.clocks[p][r].setAt <= s.nodes[q].phase.since
    ensures var v := View(c, s, p, q, r);
            QueryOk(c, v, s.clocks[p][r].setAt) && Watched(v, s.clocks[p][r].setAt)
  {
    hide QueryOk, LinkOf;
  }

  /** The second timing condition is implied by the first when the maximal backoff exceeds the
      number of sensed beacons, as it does for the constants of the source (6 and 3). */
  lemma LongListenSuffices(c: Config)
    requires ValidConfig(c) && Timely(c) && c.tm.maxBackoff > c.tm.sense
    ensures 2 * c.delay + Beacons(c.tm.beacon, c.burst) <= LongTime(c.tm)
  {
    BeaconsProduct(c.tm.beacon, c.burst);
    BeaconsProduct(c.tm.beacon, c.burst - 1);
    BeaconsProduct(c.tm.beacon, c.tm.sense);
    BeaconsProduct(c.tm.beacon, 2 * c.tm.sense + 1);
    BeaconsMonotone(c.tm.beacon, 2 * c.tm.sense + 1, 2 * c.tm.maxBackoff);
    TimelyFacts(c);
    assert Beacons(c.tm.beacon, 2 * c.tm.sense + 1) == 2 * Beacons(c.tm.beacon, c.tm.sense) + c.tm.beacon;
  }
}
