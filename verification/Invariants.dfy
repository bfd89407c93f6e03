/** The inductive invariant of the distributed lock. */
module Invariants {
  import opened Protocol
  import opened Network

  // ---- vocabulary ----

  predicate Trying(ph: Phase) {
    ph.Listening? || ph.Window?
  }

  predicate HasT(ph: Phase) {
    ph.Window? || ph.Checking? || ph.Resetting? || ph.Held?
  }

  ghost predicate Claimed(c: Config, s: State, p: Id, r: Name)
    requires Shape(c, s)
  {
    p in s.alive && Has(c, p, r) && IsClaim(s.nodes[p].res[r].state)
  }

  ghost function Lag(c: Config, k: nat): nat {
    Beacons(c.tm.beacon, k)
  }

  // ---- one process ----

  ghost predicate PhaseOk(sp: Spec, tm: Timing, n: Node, now: int)
    requires forall r :: r in sp.order ==> r in n.res
  {
    var w := WindowTime(tm);
    match n.phase
    case Resting => forall r :: r in n.res ==> n.res[r].state.Idle? || n.res[r].state.Starting?
    case Listening(l) => l <= now && |sp.order| > 0 && forall r :: r in n.res ==> n.res[r].state.Starting?
    case Window(l, t) => l + w <= t <= now && |sp.order| > 0 && forall r :: r in n.res ==> n.res[r].state.Acquiring?
    case Checking(l, t, k) =>
      && l + w <= t && t + w <= now && k < |sp.order|
      && (forall i :: 0 <= i < k ==> n.res[sp.order[i]].state.Acquired?)
      && (forall i :: k <= i < |sp.order| ==> n.res[sp.order[i]].state.Acquiring?)
    case Resetting(l, t, k) =>
      && l + w <= t <= now && k < |sp.order|
      && (forall i :: 0 <= i < k ==> n.res[sp.order[i]].state.Idle?)
      && (forall i :: k <= i < |sp.order| ==>
           IsClaim(n.res[sp.order[i]].state) && (n.res[sp.order[i]].state.Acquired? ==> t + w <= now))
    case Held(l, t) =>
      l + w <= t && t + w <= now && forall r :: r in n.res ==> n.res[r].state.Acquired? || n.res[r].state.Released?
    case GaveUp => forall r :: r in n.res ==> !IsClaim(n.res[r].state) && !n.res[r].state.Querying?
    case ShortListen(x, since) =>
      since <= now && x in n.res && n.res[x].state.Querying? && forall r :: r in n.res ==> !IsClaim(n.res[r].state)
    case LongListen(x, since, until) =>
      since + LongTime(tm) <= until && since <= now && x in n.res && n.res[x].state.Querying?
          && forall r :: r in n.res ==> !IsClaim(n.res[r].state)
    case Answered(x, since, _) =>
      x in n.res && forall r :: r in n.res ==> !IsClaim(n.res[r].state)
  }

  ghost predicate TableOk(n: Node) {
    forall r :: r in n.res && n.res[r].state.Idle? ==> n.res[r].members == map[]
  }

  ghost predicate Local(c: Config, s: State, p: Id)
    requires ValidConfig(c) && Shape(c, s)
  {
    p in c.specs ==> PhaseOk(c.specs[p], c.tm, s.nodes[p], s.now) && TableOk(s.nodes[p])
  }

  /** The beacon obligation of a claimed resource. */
  ghost predicate DueOk(c: Config, s: State, p: Id, r: Name)
    requires Shape(c, s)
  {
    Claimed(c, s, p, r) ==> s.now <= s.clocks[p][r].due <= s.now + c.tm.beacon
  }

  ghost predicate ClockOk(c: Config, s: State, p: Id, r: Name)
    requires Shape(c, s)
  {
    Has(c, p, r) ==> s.clocks[p][r].setAt <= s.now && s.clocks[p][r].resetAt <= s.now
  }

  ghost predicate MissedOk(c: Config, s: State, p: Id, q: Id, r: Name) {
    Missed(s, p, q, r) < c.burst
  }

  // ---- packets ----

  ghost predicate PacketOk(c: Config, s: State, pkt: Packet)
    requires Shape(c, s)
  {
    && Has(c, pkt.src, pkt.name) && pkt.dst in c.specs && pkt.src != pkt.dst
    && pkt.count == c.specs[pkt.src].count[pkt.name]
    && pkt.sentAt <= s.now <= pkt.sentAt + c.delay
    && pkt in s.sent
    // a packet that says something else than the current state was sent before that state was set
    && (pkt.state != s.nodes[pkt.src].res[pkt.name].state ==> pkt.sentAt <= s.clocks[pkt.src][pkt.name].setAt)
    // and one that announces no claim was sent before the claim was first announced
    && (!IsClaim(pkt.state) && IsClaim(s.nodes[pkt.src].res[pkt.name].state) && HasT(s.nodes[pkt.src].phase)
        ==> pkt.sentAt <= s.nodes[pkt.src].phase.t)
  }

  // ---- pairs of processes ----

  /** All that matters about process q's knowledge of process p and resource r. */
  datatype Pair = Pair(
    now: int,
    pAlive: bool, pPhase: Phase, pState: LockState, due: int, missed: nat,
    qAlive: bool, qPhase: Phase, qState: LockState, knows: bool,
    sameCount: bool,
    link: set<Packet>)     // packets in flight from p to q about r

  predicate OnLink(pkt: Packet, p: Id, q: Id, r: Name) {
    pkt.src == p && pkt.dst == q && pkt.name == r
  }

  ghost predicate Knows(n: Node, r: Name, p: Id)
    requires r in n.res
  {
    p in n.res[r].members && n.res[r].members[p].state.Acquired?
  }

  ghost predicate Shared(c: Config, p: Id, q: Id, r: Name) {
    p != q && Has(c, p, r) && Has(c, q, r)
  }

  /** The packets in flight from p to q about r. */
  ghost function LinkOf(net: set<Packet>, p: Id, q: Id, r: Name): set<Packet> {
    set pkt | pkt in net && OnLink(pkt, p, q, r)
  }

  ghost function View(c: Config, s: State, p: Id, q: Id, r: Name): Pair
    requires Shape(c, s) && Shared(c, p, q, r)
  {
    var x, y := s.nodes[p], s.nodes[q];
    Pair(s.now,
         p in s.alive, x.phase, x.res[r].state, s.clocks[p][r].due, Missed(s, p, q, r),
         q in s.alive, y.phase, y.res[r].state, Knows(y, r, p),
         c.specs[p].count[r] == c.specs[q].count[r],
         LinkOf(s.net, p, q, r))
  }

  predicate Claims(v: Pair) {
    v.pAlive && IsClaim(v.pState) && HasT(v.pPhase)
  }

  predicate Attempt(v: Pair) {
    v.qAlive && Trying(v.qPhase)
  }

  predicate CheckingFor(alive: bool, ph: Phase, st: LockState) {
    alive && ph.Checking? && st.Acquiring?
  }

  /** p's ACQUIRING is on its way to q, or p's beacon is going to send it again in time. */
  ghost predicate Pending(c: Config, v: Pair, t: int)
    requires ValidConfig(c)
  {
    || (exists pkt :: pkt in v.link && pkt.state.Acquiring? && t <= pkt.sentAt <= t + Lag(c, c.burst - 1))
    || (v.missed >= 1 && v.due <= t + Lag(c, v.missed))
  }

  /** (A) Whoever was already trying when p announced ACQUIRING is about to hear of it. */
  ghost predicate PairA(c: Config, v: Pair)
    requires ValidConfig(c)
  {
    v.pAlive && v.pPhase.Window? && (v.now == v.pPhase.t || (Attempt(v) && v.qPhase.l <= v.pPhase.t))
    ==> Pending(c, v, v.pPhase.t)
  }

  /** An ACQUIRING packet of p will abort q before q's window is over. */
  ghost predicate Doomed(c: Config, v: Pair, l: int) {
    exists pkt :: pkt in v.link && pkt.state.Acquiring? && pkt.sentAt <= l + Lag(c, c.burst)
  }

  ghost predicate NoAcquiring(v: Pair) {
    forall pkt :: pkt in v.link ==> !pkt.state.Acquiring?
  }

  ghost predicate News(c: Config, v: Pair, l: int) {
    exists pkt :: pkt in v.link && pkt.state.Acquired? && pkt.sentAt <= l + Lag(c, c.burst)
  }

  /** (B) Whoever started to listen after p's announcement is aborted, or told of p's hold, in time. */
  ghost predicate PairB(c: Config, v: Pair) {
    Claims(v) && Attempt(v) && v.qPhase.l > v.pPhase.t
    ==>
    var l := v.qPhase.l;
    || Doomed(c, v, l)
    || (NoAcquiring(v) &&
        (|| v.due <= l + Lag(c, v.missed + 1)
         || (v.pState.Acquired? && (v.sameCount ==> v.knows || News(c, v, l)))))
  }

  /** (C) Who is at the commit check knows every holder of its group. */
  ghost predicate PairC(v: Pair) {
    CheckingFor(v.qAlive, v.qPhase, v.qState) && v.pAlive && v.pState.Acquired? && v.sameCount
    ==> v.knows && NoAcquiring(v)
  }

  /** (X) No two processes are at the commit check of one resource. */
  ghost predicate PairX(v: Pair) {
    !(CheckingFor(v.pAlive, v.pPhase, v.pState) && CheckingFor(v.qAlive, v.qPhase, v.qState))
  }

  ghost predicate PairInv(c: Config, s: State, p: Id, q: Id, r: Name)
    requires ValidConfig(c) && Shape(c, s)
  {
    Shared(c, p, q, r) ==>
      var v := View(c, s, p, q, r);
      PairA(c, v) && PairB(c, v) && PairC(v) && PairX(v)
  }

  // ---- survivors ----

  /** Everybody who tries for a resource of a survivor began after the survivor's announcement. */
  ghost predicate SurvivalOk(c: Config, s: State, e: Survival, q: Id, r: Name)
    requires ValidConfig(c) && Shape(c, s)
  {
    && e.id in c.specs && e.t + WindowTime(c.tm) <= e.at <= s.now
    && (Shared(c, e.id, q, r) && q in s.alive && Trying(s.nodes[q].phase) ==> s.nodes[q].phase.l > e.t)
  }

  predicate Survived(n: Node) {
    n.phase.Checking? || n.phase.Held? || (n.phase.Resetting? && exists r :: r in n.res && n.res[r].state.Acquired?)
  }

  ghost predicate SurvivorOk(c: Config, s: State, p: Id)
    requires Shape(c, s)
  {
    p in c.specs && Survived(s.nodes[p]) && HasT(s.nodes[p].phase) ==>
      exists e :: e in s.survived && e.id == p && e.t == s.nodes[p].phase.t
  }

  /** Two collision windows that passed undisturbed, for a shared resource, do not overlap. */
  ghost predicate Apart(c: Config, e1: Survival, e2: Survival) {
    forall r :: Shared(c, e1.id, e2.id, r) ==>
      e1.t + WindowTime(c.tm) < e2.t || e2.t + WindowTime(c.tm) < e1.t
  }

  // ---- the invariant ----

  ghost predicate Basics(c: Config, s: State)
    requires ValidConfig(c)
  {
    && Shape(c, s)
    && (forall p :: Local(c, s, p))
    && (forall p, r :: DueOk(c, s, p, r))
    && (forall p, r :: ClockOk(c, s, p, r))
    && (forall p, q, r :: MissedOk(c, s, p, q, r))
    && (forall pkt :: pkt in s.net ==> PacketOk(c, s, pkt))
  }

  ghost predicate Inv(c: Config, s: State)
    requires ValidConfig(c)
  {
    && Basics(c, s)
    && (forall p, q, r :: PairInv(c, s, p, q, r))
    && (forall e, q, r :: e in s.survived ==> SurvivalOk(c, s, e, q, r))
    && (forall p :: SurvivorOk(c, s, p))
    && (forall e1, e2 :: e1 in s.survived && e2 in s.survived ==> Apart(c, e1, e2))
  }

  /** (burst-1) beacon intervals plus the delay fit into a window, hence so does one interval. */
  lemma TimelyFacts(c: Config)
    requires ValidConfig(c) && Timely(c)
    ensures Lag(c, c.burst - 1) + c.delay < WindowTime(c.tm)
    ensures Lag(c, c.burst) == Lag(c, c.burst - 1) + c.tm.beacon
    ensures Lag(c, c.burst) + c.delay < 2 * WindowTime(c.tm)
    ensures c.tm.beacon <= WindowTime(c.tm)
  {
    BeaconsMonotone(c.tm.beacon, 1, c.tm.sense);
    assert Beacons(c.tm.beacon, 1) == c.tm.beacon;
  }

  lemma InitNode(c: Config, p: Id)
    requires ValidConfig(c)
    ensures var s := Init(c);
            Local(c, s, p) && (p in c.specs ==> !HasT(s.nodes[p].phase) && !Trying(s.nodes[p].phase))
            && forall r :: Has(c, p, r) ==> s.nodes[p].res[r].state.Idle? && s.clocks[p][r] == Clock(0, 0, 0)
  {
  }

  lemma InitInv(c: Config)
    requires ValidConfig(c)
    ensures Inv(c, Init(c))
  {
    var s := Init(c);
    assert s.now == 0 && s.net == {} && s.survived == {} && forall p, q, r :: Missed(s, p, q, r) == 0;
    assert Shape(c, s);
    hide Init, Local, Shape;
    forall p ensures Local(c, s, p) && SurvivorOk(c, s, p) {
      InitNode(c, p);
    }
    forall p, r ensures DueOk(c, s, p, r) && ClockOk(c, s, p, r) {
      InitNode(c, p);
    }
    forall p, q, r ensures PairInv(c, s, p, q, r) {
      InitNode(c, p);
      InitNode(c, q);
    }
  }

  // ---- Basics ----

  lemma BasicsTick(c: Config, s: State)
    requires ValidConfig(c) && Basics(c, s) && Enabled(c, s, Tick)
    ensures Basics(c, Apply(c, s, Tick))
  {
    var s' := Apply(c, s, Tick);
    forall p ensures Local(c, s', p) {
      assert Local(c, s, p);
    }
    forall p, r ensures DueOk(c, s', p, r) && ClockOk(c, s', p, r) {
      assert DueOk(c, s, p, r) && ClockOk(c, s, p, r);
    }
    forall p, q, r ensures MissedOk(c, s', p, q, r) {
      assert MissedOk(c, s, p, q, r);
    }
    forall pkt | pkt in s'.net ensures PacketOk(c, s', pkt) {
      assert PacketOk(c, s, pkt);
    }
  }

  lemma BasicsCrash(c: Config, s: State, x: Id)
    requires ValidConfig(c) && Basics(c, s) && Enabled(c, s, Crash(x))
    ensures Basics(c, Apply(c, s, Crash(x)))
  {
    var s' := Apply(c, s, Crash(x));
    forall p ensures Local(c, s', p) {
      assert Local(c, s, p);
    }
    forall p, r ensures DueOk(c, s', p, r) && ClockOk(c, s', p, r) {
      assert DueOk(c, s, p, r) && ClockOk(c, s, p, r);
    }
    forall p, q, r ensures MissedOk(c, s', p, q, r) {
      assert MissedOk(c, s, p, q, r);
    }
    forall pkt | pkt in s'.net ensures PacketOk(c, s', pkt) {
      assert PacketOk(c, s, pkt);
    }
  }

  lemma OnPacketLocal(sp: Spec, tm: Timing, n: Node, pkt: Packet, now: int)
    requires ValidSpec(sp) && n.res.Keys == sp.count.Keys && pkt.name in n.res
    requires PhaseOk(sp, tm, n, now) && TableOk(n)
    ensures var n' := OnPacket(sp, tm, n, pkt, now);
            && n'.res.Keys == n.res.Keys
            && (forall r :: r in n.res ==> n'.res[r].state == n.res[r].state)
            && PhaseOk(sp, tm, n', now) && TableOk(n')
            && (n'.phase == n.phase || n'.phase.Resting? || n'.phase.LongListen?
                || (n.phase.Window? && n'.phase == Resetting(n.phase.l, n.phase.t, 0)))
  {
    var n' := OnPacket(sp, tm, n, pkt, now);
    OnPacketTable(sp, tm, n, pkt, now);
    hide UpdateMember, PhaseOk, TableOk, Distinct;
    StatesDecide(sp, tm, n, n'.res, now);
    PhaseMoves(sp, tm, Node(n.phase, n'.res), n'.phase, now);
  }

  /** Whether a phase fits depends on the states alone. */
  lemma StatesDecide(sp: Spec, tm: Timing, n: Node, res: map<Name, Res>, now: int)
    requires (forall r :: r in sp.order ==> r in n.res) && PhaseOk(sp, tm, n, now)
    requires res.Keys == n.res.Keys && forall r :: r in n.res ==> res[r].state == n.res[r].state
    ensures PhaseOk(sp, tm, Node(n.phase, res), now)
  {
    hide WindowTime, LongTime;
  }

  /** The phases a packet may lead to. */
  lemma PhaseMoves(sp: Spec, tm: Timing, n: Node, ph: Phase, now: int)
    requires (forall r :: r in sp.order ==> r in n.res) && PhaseOk(sp, tm, n, now)
    requires || ph == n.phase
             || (n.phase.Listening? && ph.Resting?)
             || (n.phase.Window? && ph == Resetting(n.phase.l, n.phase.t, 0))
             || (n.phase.ShortListen? && ph == LongListen(n.phase.name, n.phase.since, now + LongTime(tm)))
    ensures PhaseOk(sp, tm, Node(ph, n.res), now)
  {
    hide WindowTime, LongTime;
  }

  lemma OnPacketTable(sp: Spec, tm: Timing, n: Node, pkt: Packet, now: int)
    requires pkt.name in n.res && pkt.name in sp.count && TableOk(n)
    ensures TableOk(OnPacket(sp, tm, n, pkt, now))
    ensures forall r :: r in n.res ==>
              r in OnPacket(sp, tm, n, pkt, now).res && OnPacket(sp, tm, n, pkt, now).res[r].state == n.res[r].state
  {
  }

  /** What a delivery leaves alone. */
  lemma ReceiveFrame(c: Config, s: State, pkt: Packet, keep: bool, p: Id)
    requires ValidConfig(c) && Shape(c, s) && p in c.specs && Local(c, s, p)
    ensures var s', n := Receive(c, s, pkt, keep), s.nodes[p];
            && (forall r :: r in n.res ==> s'.nodes[p].res[r].state == n.res[r].state)
            && Local(c, s', p)
            && (s'.nodes[p].phase == n.phase || s'.nodes[p].phase.Resting? || s'.nodes[p].phase.LongListen?
                || (n.phase.Window? && s'.nodes[p].phase == Resetting(n.phase.l, n.phase.t, 0)))
  {
    hide PhaseOk, TableOk, OnPacket, ValidSpec;
    if pkt.dst == p && Has(c, p, pkt.name) {
      OnPacketLocal(c.specs[p], c.tm, s.nodes[p], pkt, s.now);
    }
  }

  lemma ReceiveSame(c: Config, s: State, pkt: Packet, keep: bool)
    requires Shape(c, s)
    ensures var s' := Receive(c, s, pkt, keep);
            && s'.now == s.now && s'.alive == s.alive && s'.clocks == s.clocks && s'.missed == s.missed
            && s'.net <= s.net && s'.sent == s.sent && s'.survived == s.survived
  {
    hide OnPacket;
  }

  lemma ReceivePacketOk(c: Config, s: State, pkt: Packet, keep: bool, x: Packet)
    requires ValidConfig(c) && Shape(c, s) && PacketOk(c, s, x) && Local(c, s, x.src)
    ensures PacketOk(c, Receive(c, s, pkt, keep), x)
  {
    hide PhaseOk, TableOk, OnPacket, ValidSpec;
    ReceiveFrame(c, s, pkt, keep, x.src);
  }

  lemma BasicsReceive(c: Config, s: State, pkt: Packet, keep: bool)
    requires ValidConfig(c) && Basics(c, s)
    ensures Basics(c, Receive(c, s, pkt, keep))
  {
    var s' := Receive(c, s, pkt, keep);
    forall p ensures Local(c, s', p) {
      assert Local(c, s, p);
      if p in c.specs {
        ReceiveFrame(c, s, pkt, keep, p);
      }
    }
    forall p, r ensures DueOk(c, s', p, r) && ClockOk(c, s', p, r) {
      assert DueOk(c, s, p, r) && ClockOk(c, s, p, r) && Local(c, s, p);
      if p in c.specs {
        ReceiveFrame(c, s, pkt, keep, p);
      }
    }
    forall p, q, r ensures MissedOk(c, s', p, q, r) {
      assert MissedOk(c, s, p, q, r);
    }
    forall x | x in s'.net ensures PacketOk(c, s', x) {
      assert x in s.net && Local(c, s, x.src);
      ReceivePacketOk(c, s, pkt, keep, x);
    }
  }

  ghost predicate NodeOk(sp: Spec, tm: Timing, n: Node, now: int) {
    n.res.Keys == sp.count.Keys && (forall r :: r in sp.order ==> r in n.res) && PhaseOk(sp, tm, n, now) && TableOk(n)
  }

  lemma CheckFails(sp: Spec, tm: Timing, n: Node, now: int)
    requires ValidSpec(sp) && NodeOk(sp, tm, n, now) && CanAct(sp, tm, n, Check, now)
          && CheckNext(sp, n).phase.Resetting?
    ensures NodeOk(sp, tm, CheckNext(sp, n), now)
  {
    hide Acquirable, LongTime;
  }

  lemma CheckLocal(sp: Spec, tm: Timing, n: Node, now: int)
    requires ValidSpec(sp) && NodeOk(sp, tm, n, now) && CanAct(sp, tm, n, Check, now)
    ensures NodeOk(sp, tm, CheckNext(sp, n), now)
  {
    hide Acquirable, WindowTime, LongTime;
    var k, n' := n.phase.k, CheckNext(sp, n);
    if n'.phase.Resetting? {
      CheckFails(sp, tm, n, now);
      return;
    }
    assert n'.res.Keys == n.res.Keys;
    forall i | 0 <= i < |sp.order| && i != k ensures n'.res[sp.order[i]].state == n.res[sp.order[i]].state {
    }
    if n'.phase.Held? {
      forall r | r in n'.res ensures n'.res[r].state.Acquired? {
        assert r in sp.order;
      }
    }
  }

  lemma ResetLocal(sp: Spec, tm: Timing, n: Node, now: int)
    requires ValidSpec(sp) && NodeOk(sp, tm, n, now) && CanAct(sp, tm, n, Reset, now)
    ensures NodeOk(sp, tm, ResetNext(sp, n), now)
  {
    var k, n' := n.phase.k, ResetNext(sp, n);
    assert n'.res.Keys == n.res.Keys;
    forall i | 0 <= i < |sp.order| && i != k ensures n'.res[sp.order[i]].state == n.res[sp.order[i]].state {
    }
    if n'.phase.Resting? {
      forall r | r in n'.res ensures n'.res[r].state.Idle? {
        assert r in sp.order;
      }
    }
  }

  lemma PerformLocal(sp: Spec, tm: Timing, n: Node, act: Act, now: int)
    requires ValidSpec(sp) && NodeOk(sp, tm, n, now) && CanAct(sp, tm, n, act, now)
    ensures NodeOk(sp, tm, Perform(sp, tm, n, act, now), now)
  {
    if act.Check? {
      CheckLocal(sp, tm, n, now);
    } else if act.Reset? {
      ResetLocal(sp, tm, n, now);
    } else {
      OtherLocal(sp, tm, n, act, now);
    }
  }

  lemma OtherLocal(sp: Spec, tm: Timing, n: Node, act: Act, now: int)
    requires ValidSpec(sp) && NodeOk(sp, tm, n, now) && CanAct(sp, tm, n, act, now) && !act.Check? && !act.Reset?
    ensures NodeOk(sp, tm, Perform(sp, tm, n, act, now), now)
  {
    if act.Prepare? || act.Listen? || act.Announce? || act.Expire? {
      AttemptLocal(sp, tm, n, act, now);
    } else if act.Release? || act.Query? {
      OneLocal(sp, tm, n, act, now);
    }
  }

  /** The steps of an attempt before its commit check. */
  lemma AttemptLocal(sp: Spec, tm: Timing, n: Node, act: Act, now: int)
    requires ValidSpec(sp) && NodeOk(sp, tm, n, now) && CanAct(sp, tm, n, act, now)
    requires act.Prepare? || act.Listen? || act.Announce? || act.Expire?
    ensures NodeOk(sp, tm, Perform(sp, tm, n, act, now), now)
  {
    hide WindowTime, LongTime;
  }

  /** The steps that set a single resource. */
  lemma OneLocal(sp: Spec, tm: Timing, n: Node, act: Act, now: int)
    requires ValidSpec(sp) && NodeOk(sp, tm, n, now) && CanAct(sp, tm, n, act, now) && (act.Release? || act.Query?)
    ensures NodeOk(sp, tm, Perform(sp, tm, n, act, now), now)
  {
    hide WindowTime, LongTime;
  }

  lemma ActsLocal(c: Config, s: State, a: Id, act: Act, lost: set<(Id, Name)>, p: Id)
    requires ValidConfig(c) && Shape(c, s) && Local(c, s, p) && CanDo(c, s, a, act, lost)
    ensures Local(c, Acts(c, s, a, act, lost), p)
  {
    if p == a {
      PerformLocal(c.specs[a], c.tm, s.nodes[a], act, s.now);
    }
  }

  lemma ActsMissedOk(c: Config, s: State, a: Id, act: Act, lost: set<(Id, Name)>, p: Id, q: Id, r: Name)
    requires ValidConfig(c) && Shape(c, s) && CanDo(c, s, a, act, lost) && MissedOk(c, s, p, q, r)
    ensures MissedOk(c, Acts(c, s, a, act, lost), p, q, r)
  {
  }

  /** A claim that stands after a step stood before it, or is announced by it. */
  lemma ClaimFrame(sp: Spec, tm: Timing, n: Node, act: Act, now: int, r: Name)
    requires ValidSpec(sp) && NodeOk(sp, tm, n, now) && CanAct(sp, tm, n, act, now) && r in sp.count
    ensures var n', rs := Perform(sp, tm, n, act, now), Announced(sp, tm, n, act, now);
            && (r !in rs ==> n'.res[r].state == n.res[r].state)
            && (act.Beacon? ==> n' == n)
            && (act.Announce? ==> r in rs && n'.res[r].state.Acquiring? && n'.phase == Window(n.phase.l, now))
            && (IsClaim(n'.res[r].state) && !act.Announce? ==>
                IsClaim(n.res[r].state) && HasT(n.phase) && HasT(n'.phase) && n'.phase.t == n.phase.t
                    && n'.phase.l == n.phase.l
                && (r in rs && !act.Beacon? ==> act.Check? && n.res[r].state.Acquiring? && n'.res[r].state.Acquired?))
  {
  }

  lemma NamesIn(c: Config, s: State, a: Id)
    requires ValidConfig(c) && Shape(c, s) && a in c.specs
    ensures forall r :: r in c.specs[a].order ==> r in s.nodes[a].res
  {
  }

  lemma NodeOkOf(c: Config, s: State, a: Id)
    requires ValidConfig(c) && Shape(c, s) && a in c.specs && Local(c, s, a)
    ensures ValidSpec(c.specs[a]) && NodeOk(c.specs[a], c.tm, s.nodes[a], s.now)
  {
  }

  lemma ActsNodes(c: Config, s: State, a: Id, act: Act, lost: set<(Id, Name)>)
    requires ValidConfig(c) && Shape(c, s) && CanDo(c, s, a, act, lost)
    ensures var s' := Acts(c, s, a, act, lost);
            s'.now == s.now && s'.alive == s.alive
                && s'.nodes == s.nodes[a := Perform(c.specs[a], c.tm, s.nodes[a], act, s.now)]
  {
  }

  lemma ActsClocks(c: Config, s: State, a: Id, act: Act, lost: set<(Id, Name)>)
    requires ValidConfig(c) && Shape(c, s) && CanDo(c, s, a, act, lost)
    ensures var s', rs := Acts(c, s, a, act, lost), Announced(c.specs[a], c.tm, s.nodes[a], act, s.now);
            && (forall q :: q in c.specs && q != a ==> s'.clocks[q] == s.clocks[q])
            && (forall r :: r in c.specs[a].count ==> s'.clocks[a][r] == NewClock(c, s.clocks[a][r], r, act, rs, s.now))
  {
    hide Perform, Announced, CanAct, Broadcast, NewMissed, NewClock, ValidSpec;
  }

  lemma ActsNet(c: Config, s: State, a: Id, act: Act, lost: set<(Id, Name)>)
    requires ValidConfig(c) && Shape(c, s) && CanDo(c, s, a, act, lost)
    ensures var s', sp := Acts(c, s, a, act, lost), c.specs[a];
            var out := Broadcast(c, a, Perform(sp, c.tm, s.nodes[a], act, s.now),
                                 Announced(sp, c.tm, s.nodes[a], act, s.now), lost, s.now);
            s'.net == s.net + out && s'.sent == s.sent + out
  {
    hide Perform, Announced, CanAct, Broadcast, NewMissed, NewClock, ValidSpec;
  }

  /** A packet of a that was in flight before a acted. */
  lemma OldPacketOk(c: Config, s: State, a: Id, act: Act, lost: set<(Id, Name)>, x: Packet)
    requires ValidConfig(c) && Shape(c, s) && CanDo(c, s, a, act, lost) && Local(c, s, a)
    requires x in s.net && PacketOk(c, s, x)
    ensures PacketOk(c, Acts(c, s, a, act, lost), x)
  {
    hide NodeOk, Local, Perform, Announced, CanAct, ValidSpec, Acts, Broadcast;
    ActsNodes(c, s, a, act, lost);
    ActsClocks(c, s, a, act, lost);
    ActsNet(c, s, a, act, lost);
    if x.src == a {
      NodeOkOf(c, s, a);
      ClaimFrame(c.specs[a], c.tm, s.nodes[a], act, s.now, x.name);
    }
  }

  /** A packet that a sends. */
  lemma NewPacketOk(c: Config, s: State, a: Id, act: Act, lost: set<(Id, Name)>, x: Packet)
    requires ValidConfig(c) && Shape(c, s) && CanDo(c, s, a, act, lost) && Local(c, s, a)
    requires x !in s.net && x in Acts(c, s, a, act, lost).net
    ensures PacketOk(c, Acts(c, s, a, act, lost), x)
  {
    hide NodeOk, Local, Perform, Announced, CanAct, ValidSpec, Acts, NewClock;
    ActsNodes(c, s, a, act, lost);
    ActsNet(c, s, a, act, lost);
  }

  lemma ActsPacketOk(c: Config, s: State, a: Id, act: Act, lost: set<(Id, Name)>, x: Packet)
    requires ValidConfig(c) && Shape(c, s) && CanDo(c, s, a, act, lost) && Local(c, s, a)
    requires x in s.net ==> PacketOk(c, s, x)
    requires x in Acts(c, s, a, act, lost).net
    ensures PacketOk(c, Acts(c, s, a, act, lost), x)
  {
    hide PacketOk, Local, CanDo, Acts;
    if x in s.net {
      OldPacketOk(c, s, a, act, lost, x);
    } else {
      NewPacketOk(c, s, a, act, lost, x);
    }
  }

  lemma ActsDueOk(c: Config, s: State, a: Id, act: Act, lost: set<(Id, Name)>, p: Id, r: Name)
    requires ValidConfig(c) && Shape(c, s) && CanDo(c, s, a, act, lost) && Local(c, s, a) && DueOk(c, s, p, r)
    ensures DueOk(c, Acts(c, s, a, act, lost), p, r)
  {
    hide NodeOk, Local, Perform, Announced, CanAct, ValidSpec, Acts;
    ActsNodes(c, s, a, act, lost);
    ActsClocks(c, s, a, act, lost);
    if p == a && Has(c, p, r) {
      NodeOkOf(c, s, a);
      ClaimFrame(c.specs[a], c.tm, s.nodes[a], act, s.now, r);
    }
  }

  lemma ActsClockOk(c: Config, s: State, a: Id, act: Act, lost: set<(Id, Name)>, p: Id, r: Name)
    requires ValidConfig(c) && Shape(c, s) && CanDo(c, s, a, act, lost) && ClockOk(c, s, p, r)
    ensures ClockOk(c, Acts(c, s, a, act, lost), p, r)
  {
    hide Perform, Announced, CanAct, ValidSpec, Acts;
    ActsNodes(c, s, a, act, lost);
    ActsClocks(c, s, a, act, lost);
  }

  lemma BasicsActs(c: Config, s: State, a: Id, act: Act, lost: set<(Id, Name)>)
    requires ValidConfig(c) && Basics(c, s) && CanDo(c, s, a, act, lost)
    ensures Basics(c, Acts(c, s, a, act, lost))
  {
    var s' := Acts(c, s, a, act, lost);
    assert Local(c, s, a);
    forall p ensures Local(c, s', p) {
      assert Local(c, s, p);
      ActsLocal(c, s, a, act, lost, p);
    }
    forall p, r ensures DueOk(c, s', p, r) && ClockOk(c, s', p, r) {
      assert DueOk(c, s, p, r) && ClockOk(c, s, p, r);
      ActsDueOk(c, s, a, act, lost, p, r);
      ActsClockOk(c, s, a, act, lost, p, r);
    }
    forall p, q, r ensures MissedOk(c, s', p, q, r) {
      assert MissedOk(c, s, p, q, r);
      ActsMissedOk(c, s, a, act, lost, p, q, r);
    }
    forall x | x in s'.net ensures PacketOk(c, s', x) {
      ActsPacketOk(c, s, a, act, lost, x);
    }
  }
}
