/** Every step of the distributed lock keeps the invariant. */
module Preservation {
  import opened Protocol
  import opened Network
  import opened Invariants
  import opened PairSteps

  /** What a phase says about one resource. */
  lemma PhaseFacts(sp: Spec, tm: Timing, n: Node, now: int, r: Name)
    requires ValidSpec(sp) && NodeOk(sp, tm, n, now) && r in sp.count
    ensures var w, st, ph := WindowTime(tm), n.res[r].state, n.phase;
            && (IsClaim(st) ==> HasT(ph))
            && (st.Acquired? ==> HasT(ph) && ph.t + w <= now)
            && (ph.Window? ==> st.Acquiring? && ph.l + w <= ph.t <= now)
            && (ph.Checking? ==> ph.t + w <= now && IsClaim(st))
            && (ph.Listening? ==> st.Starting? && ph.l <= now)
  {
    assert r in sp.order;
  }

  lemma ViewOk(c: Config, s: State, p: Id, q: Id, r: Name)
    requires ValidConfig(c) && Shape(c, s) && Shared(c, p, q, r)
    requires Local(c, s, p) && Local(c, s, q) && DueOk(c, s, p, r) && MissedOk(c, s, p, q, r)
    requires forall pkt :: pkt in s.net ==> PacketOk(c, s, pkt)
    ensures PairOk(c, View(c, s, p, q, r))
  {
    PhaseFacts(c.specs[p], c.tm, s.nodes[p], s.now, r);
    PhaseFacts(c.specs[q], c.tm, s.nodes[q], s.now, r);
    var v := View(c, s, p, q, r);
    forall pkt | pkt in v.link
      ensures pkt.sentAt <= v.now <= pkt.sentAt + c.delay
      ensures IsClaim(v.pState) && !IsClaim(pkt.state) ==> pkt.sentAt <= v.pPhase.t
    {
      assert PacketOk(c, s, pkt);
    }
  }

  // ---- the view after a step ----

  lemma ReceiveLink(c: Config, s: State, pkt: Packet, keep: bool, p: Id, q: Id, r: Name)
    requires Shape(c, s) && Shared(c, p, q, r)
    ensures var v, v' := View(c, s, p, q, r), View(c, Receive(c, s, pkt, keep), p, q, r);
            && v.link - {pkt} <= v'.link <= v.link
            && v' == v.(pPhase := v'.pPhase, pState := v'.pState, qPhase := v'.qPhase, qState := v'.qState,
                        knows := v'.knows, link := v'.link)
  {
  }

  lemma ReceiveOffLink(c: Config, s: State, pkt: Packet, keep: bool, p: Id, q: Id, r: Name)
    requires Shape(c, s) && Shared(c, p, q, r) && !OnLink(pkt, p, q, r)
    ensures Knows(Receive(c, s, pkt, keep).nodes[q], r, p) == Knows(s.nodes[q], r, p)
  {
  }

  lemma ReceiveView(c: Config, s: State, pkt: Packet, keep: bool, p: Id, q: Id, r: Name)
    requires ValidConfig(c) && Shape(c, s) && Shared(c, p, q, r) && Local(c, s, p) && Local(c, s, q)
    requires pkt in s.net && PacketOk(c, s, pkt)
    ensures Received(View(c, s, p, q, r), pkt, OnLink(pkt, p, q, r), View(c, Receive(c, s, pkt, keep), p, q, r))
  {
    ReceiveFrame(c, s, pkt, keep, p);
    ReceiveFrame(c, s, pkt, keep, q);
    ReceiveLink(c, s, pkt, keep, p, q, r);
    if OnLink(pkt, p, q, r) {
      if q in s.alive {
        ReceiveOnLink(c, s, pkt, keep, q);
      }
    } else {
      ReceiveOffLink(c, s, pkt, keep, p, q, r);
    }
  }

  lemma ReceiveOnLink(c: Config, s: State, pkt: Packet, keep: bool, q: Id)
    requires ValidConfig(c) && Shape(c, s) && Local(c, s, q)
    requires pkt.dst == q && pkt.src != q && Has(c, q, pkt.name) && q in s.alive
    ensures var n, n' := s.nodes[q], Receive(c, s, pkt, keep).nodes[q];
            && (pkt.count == c.specs[q].count[pkt.name] && !n.res[pkt.name].state.Idle?
                ==> Knows(n', pkt.name, pkt.src) == pkt.state.Acquired?)
            && (pkt.state.Acquiring? ==> !Trying(n'.phase))
  {
    hide OnPacket, PhaseOk, TableOk, ValidSpec, Knows, Local;
    NodeOkOf(c, s, q);
    Hears(c.specs[q], c.tm, s.nodes[q], pkt, s.now);
  }

  /** A packet is taken down if its count fits, and ACQUIRING ends every attempt it reaches. */
  lemma Hears(sp: Spec, tm: Timing, n: Node, pkt: Packet, now: int)
    requires pkt.name in n.res && pkt.name in sp.count && (forall r :: r in sp.order ==> r in n.res)
          && PhaseOk(sp, tm, n, now)
    ensures var n' := OnPacket(sp, tm, n, pkt, now);
            && pkt.name in n'.res
            && (pkt.count == sp.count[pkt.name] && !n.res[pkt.name].state.Idle?
                ==> Knows(n', pkt.name, pkt.src) == pkt.state.Acquired?)
            && (pkt.state.Acquiring? ==> !Trying(n'.phase))
  {
    hide WindowTime, LongTime;
  }

  /** The packets of one link after a broadcast. */
  lemma BroadcastLink(c: Config, net: set<Packet>, a: Id, n: Node, rs: set<Name>, lost: set<(Id, Name)>, now: int,
        p: Id, q: Id, r: Name)
    requires a in c.specs && n.res.Keys == c.specs[a].count.Keys && rs <= n.res.Keys && q in c.specs && p != q
    ensures var was := LinkOf(net, p, q, r);
            LinkOf(net + Broadcast(c, a, n, rs, lost, now), p, q, r)
            == if p == a && r in rs && (q, r) !in lost
               then was + {Packet(a, q, r, n.res[r].state, c.specs[a].count[r], now)} else was
  {
  }

  lemma AnnouncingOther(c: Config, s: State, a: Id, n': Node, rs: set<Name>, act: Act, lost: set<(Id, Name)>,
        p: Id, q: Id, r: Name)
    requires Shape(c, s) && Shared(c, p, q, r) && a != p && a != q
    requires a in c.specs && n'.res.Keys == c.specs[a].count.Keys && rs <= n'.res.Keys
    ensures View(c, Announcing(c, s, a, n', rs, act, lost), p, q, r) == View(c, s, p, q, r)
  {
    BroadcastLink(c, s.net, a, n', rs, lost, s.now, p, q, r);
  }

  lemma AnnouncingByQ(c: Config, s: State, a: Id, n': Node, rs: set<Name>, act: Act, lost: set<(Id, Name)>, p: Id,
        r: Name)
    requires Shape(c, s) && Shared(c, p, a, r)
    requires n'.res.Keys == c.specs[a].count.Keys && rs <= n'.res.Keys
    ensures View(c, Announcing(c, s, a, n', rs, act, lost), p, a, r)
         == View(c, s, p, a, r).(qPhase := n'.phase, qState := n'.res[r].state, knows := Knows(n', r, p))
  {
    BroadcastLink(c, s.net, a, n', rs, lost, s.now, p, a, r);
  }

  /** v' is v after p became n' by act and announced the resources rs. */
  ghost predicate Spoke(c: Config, v: Pair, v': Pair, n': Node, rs: set<Name>, act: Act, r: Name) {
    && r in n'.res
    && v' == v.(pPhase := n'.phase, pState := n'.res[r].state, due := v'.due, missed := v'.missed, link := v'.link)
    && v'.due == (if r in rs && (act.Beacon? || act.Announce?) then v.now + c.tm.beacon else v.due)
    && (r in rs ==> Told(c, v, n'.res[r].state, v'))
    && (r !in rs ==> v'.missed == v.missed && v'.link == v.link)
  }

  /** n is the node of the first process of v and of the second process of back. */
  ghost predicate BothViews(v: Pair, back: Pair, n: Node, r: Name) {
    && r in n.res
    && v.pAlive && v.pPhase == n.phase && v.pState == n.res[r].state
    && back.now == v.now && back.qAlive && back.qPhase == v.pPhase && back.qState == v.pState
    && back.pAlive == v.qAlive && back.pPhase == v.qPhase && back.pState == v.qState
  }

  lemma AnnouncingState(c: Config, s: State, a: Id, n': Node, rs: set<Name>, act: Act, lost: set<(Id, Name)>)
    requires Shape(c, s) && a in c.specs && n'.res.Keys == c.specs[a].count.Keys && rs <= n'.res.Keys
    ensures var s' := Announcing(c, s, a, n', rs, act, lost);
            && s'.net == s.net + Broadcast(c, a, n', rs, lost, s.now)
            && s'.now == s.now && s'.alive == s.alive && s'.nodes == s.nodes[a := n']
  {
    hide Broadcast, NewMissed, NewClock;
  }

  lemma AnnouncingByP(c: Config, s: State, a: Id, n': Node, rs: set<Name>, act: Act, lost: set<(Id, Name)>, q: Id,
        r: Name)
    requires ValidConfig(c) && Shape(c, s) && Shared(c, a, q, r)
    requires n'.res.Keys == c.specs[a].count.Keys && rs <= n'.res.Keys
    requires (q, r) in lost ==> Missed(s, a, q, r) + 1 < c.burst
    ensures var v, v' := View(c, s, a, q, r), View(c, Announcing(c, s, a, n', rs, act, lost), a, q, r);
            Spoke(c, v, v', n', rs, act, r)
  {
    hide Announcing, Broadcast, ValidConfig, View, LinkOf, Missed, NewClock, Spoke;
    var s' := Announcing(c, s, a, n', rs, act, lost);
    AnnouncingState(c, s, a, n', rs, act, lost);
    BroadcastLink(c, s.net, a, n', rs, lost, s.now, a, q, r);
    AnnouncingMissed(c, s, a, n', rs, act, lost, q, r);
    AnnouncingClock(c, s, a, n', rs, act, lost, r);
    ByP(c, s, s', a, n', rs, act, q, r, (q, r) in lost);
  }

  lemma ByP(c: Config, s: State, s': State, a: Id, n': Node, rs: set<Name>, act: Act, q: Id, r: Name, lost: bool)
    requires ValidConfig(c) && Shape(c, s) && Shape(c, s') && Shared(c, a, q, r) && r in n'.res
    requires s'.now == s.now && s'.alive == s.alive && s'.nodes == s.nodes[a := n']
    requires s'.clocks[a][r] == NewClock(c, s.clocks[a][r], r, act, rs, s.now)
    requires lost ==> Missed(s, a, q, r) + 1 < c.burst
    requires Missed(s', a, q, r) == if r in rs then (if lost then Missed(s, a, q, r) + 1 else 0) else Missed(s, a, q, r)
    requires LinkOf(s'.net, a, q, r)
          == if r in rs && !lost
              then LinkOf(s.net, a, q, r) + {Packet(a, q, r, n'.res[r].state, c.specs[a].count[r], s.now)}
             else LinkOf(s.net, a, q, r)
    ensures Spoke(c, View(c, s, a, q, r), View(c, s', a, q, r), n', rs, act, r)
  {
    hide LinkOf, Missed, View, ValidConfig, Told, Shared, NewClock, Spoke;
    ByPView(c, s, s', a, n', q, r);
    var v, v' := View(c, s, a, q, r), View(c, s', a, q, r);
    ByPLink(c, v, v', n', r, r in rs, lost, c.specs[a].count[r], a, q);
    ByPClock(c, v, v', n', rs, act, r, s.clocks[a][r]);
  }

  lemma ByPClock(c: Config, v: Pair, v': Pair, n': Node, rs: set<Name>, act: Act, r: Name, k: Clock)
    requires r in n'.res && v.due == k.due && v'.due == NewClock(c, k, r, act, rs, v.now).due
    requires v' == v.(pPhase := n'.phase, pState := n'.res[r].state, due := v'.due, missed := v'.missed,
          link := v'.link)
    requires if r in rs then Told(c, v, n'.res[r].state, v') else v'.missed == v.missed && v'.link == v.link
    ensures Spoke(c, v, v', n', rs, act, r)
  {
    hide Told;
  }

  /** The view of a process that changed its node: only its phase, its state, its clock and its link differ. */
  lemma ByPView(c: Config, s: State, s': State, a: Id, n': Node, q: Id, r: Name)
    requires Shape(c, s) && Shape(c, s') && Shared(c, a, q, r) && r in n'.res
    requires s'.now == s.now && s'.alive == s.alive && s'.nodes == s.nodes[a := n']
    ensures var v, v' := View(c, s, a, q, r), View(c, s', a, q, r);
            && v' == v.(pPhase := n'.phase, pState := n'.res[r].state, due := v'.due, missed := v'.missed,
                link := v'.link)
            && v.now == s.now && v.due == s.clocks[a][r].due && v'.due == s'.clocks[a][r].due
            && v.missed == Missed(s, a, q, r) && v'.missed == Missed(s', a, q, r)
            && v.link == LinkOf(s.net, a, q, r) && v'.link == LinkOf(s'.net, a, q, r)
  {
    hide LinkOf, Missed, Knows;
  }

  lemma ByPLink(c: Config, v: Pair, v': Pair, n': Node, r: Name, told: bool, lost: bool, count: nat, a: Id, q: Id)
    requires r in n'.res && (lost ==> v.missed + 1 < c.burst)
    requires v'.missed == if told then (if lost then v.missed + 1 else 0) else v.missed
    requires v'.link == if told && !lost then v.link + {Packet(a, q, r, n'.res[r].state, count, v.now)} else v.link
    ensures if told then Told(c, v, n'.res[r].state, v') else v'.missed == v.missed && v'.link == v.link
  {
  }

  lemma AnnouncingClock(c: Config, s: State, a: Id, n': Node, rs: set<Name>, act: Act, lost: set<(Id, Name)>, r: Name)
    requires Shape(c, s) && Has(c, a, r) && n'.res.Keys == c.specs[a].count.Keys && rs <= n'.res.Keys
    ensures Announcing(c, s, a, n', rs, act, lost).clocks[a][r] == NewClock(c, s.clocks[a][r], r, act, rs, s.now)
  {
  }

  lemma AnnouncingMissed(c: Config, s: State, a: Id, n': Node, rs: set<Name>, act: Act, lost: set<(Id, Name)>,
        q: Id, r: Name)
    requires Shape(c, s) && q in c.specs
    requires a in c.specs && n'.res.Keys == c.specs[a].count.Keys && rs <= n'.res.Keys
    ensures Missed(Announcing(c, s, a, n', rs, act, lost), a, q, r)
         == if r in rs then (if (q, r) in lost then Missed(s, a, q, r) + 1 else 0) else Missed(s, a, q, r)
  {
  }

  // ---- pairs ----

  lemma PairReceive(c: Config, s: State, pkt: Packet, keep: bool, p: Id, q: Id, r: Name)
    requires ValidConfig(c) && Timely(c) && Shape(c, s) && Shared(c, p, q, r)
    requires Local(c, s, p) && Local(c, s, q) && DueOk(c, s, p, r) && MissedOk(c, s, p, q, r)
    requires forall x :: x in s.net ==> PacketOk(c, s, x)
    requires pkt in s.net && pkt.sentAt < s.now && PairInv(c, s, p, q, r)
    ensures PairInv(c, Receive(c, s, pkt, keep), p, q, r)
  {
    ViewOk(c, s, p, q, r);
    ReceiveView(c, s, pkt, keep, p, q, r);
    ReceivePair(c, View(c, s, p, q, r), pkt, OnLink(pkt, p, q, r), View(c, Receive(c, s, pkt, keep), p, q, r));
  }

  /** Who tries for a resource of a survivor began after the survivor's announcement. */
  ghost predicate After(v: Pair) {
    v.pAlive && (v.pPhase.Checking? || v.pState.Acquired?) && Attempt(v) && HasT(v.pPhase) ==> v.qPhase.l > v.pPhase.t
  }

  /** p takes a step: how its part of the view changes. */
  lemma PClaims(c: Config, v: Pair, v': Pair, back: Pair, sp: Spec, n: Node, act: Act, r: Name)
    requires ValidConfig(c) && Timely(c) && PairOk(c, v) && PairGood(c, v)
    requires ValidSpec(sp) && NodeOk(sp, c.tm, n, v.now) && CanAct(sp, c.tm, n, act, v.now) && r in sp.count
    requires BothViews(v, back, n, r) && PairOk(c, back) && PairGood(c, back) && After(back)
    requires Spoke(c, v, v', Perform(sp, c.tm, n, act, v.now), Announced(sp, c.tm, n, act, v.now), act, r)
    requires act.Beacon? || act.Announce? || act.Expire?
    ensures PairGood(c, v')
  {
    hide PairGood, ValidConfig, Timely;
    match act
    case Beacon(x) =>
      if x == r {
        BeaconPair(c, v, v');
      }
    case Announce => AnnouncePair(c, v, v');
    case Expire =>
      ExpireByQPair(c, back, back.(qPhase := v'.pPhase));
      MoveOnPair(c, v, v');
  }

  lemma POther(c: Config, v: Pair, v': Pair, back: Pair, sp: Spec, n: Node, act: Act, r: Name)
    requires ValidConfig(c) && Timely(c) && PairOk(c, v) && PairGood(c, v)
    requires ValidSpec(sp) && NodeOk(sp, c.tm, n, v.now) && CanAct(sp, c.tm, n, act, v.now) && r in sp.count
    requires BothViews(v, back, n, r) && PairOk(c, back) && PairGood(c, back) && After(back)
    requires Spoke(c, v, v', Perform(sp, c.tm, n, act, v.now), Announced(sp, c.tm, n, act, v.now), act, r)
    requires !act.Beacon? && !act.Announce? && !act.Expire?
    ensures PairGood(c, v')
  {
    hide PairGood, ValidConfig, Timely;
    match act
    case Check => PCheck(c, v, v', sp, n, r);
    case Reset => PReset(c, v, v', sp, n, r);
    case Release(x) =>
      if x == r {
        UnclaimPair(c, v, v');
      }
    case _ => UnclaimPair(c, v, v');
  }

  lemma PStep(c: Config, v: Pair, v': Pair, back: Pair, sp: Spec, n: Node, act: Act, r: Name)
    requires ValidConfig(c) && Timely(c) && PairOk(c, v) && PairGood(c, v)
    requires ValidSpec(sp) && NodeOk(sp, c.tm, n, v.now) && CanAct(sp, c.tm, n, act, v.now) && r in sp.count
    requires BothViews(v, back, n, r) && PairOk(c, back) && PairGood(c, back) && After(back)
    requires Spoke(c, v, v', Perform(sp, c.tm, n, act, v.now), Announced(sp, c.tm, n, act, v.now), act, r)
    ensures PairGood(c, v')
  {
    hide PairGood, ValidConfig, Timely, Perform, Announced, CanAct, NodeOk, ValidSpec, Spoke, BothViews;
    if act.Beacon? || act.Announce? || act.Expire? {
      PClaims(c, v, v', back, sp, n, act, r);
    } else {
      POther(c, v, v', back, sp, n, act, r);
    }
  }

  lemma PCheck(c: Config, v: Pair, v': Pair, sp: Spec, n: Node, r: Name)
    requires ValidConfig(c) && Timely(c) && PairOk(c, v) && PairGood(c, v)
    requires ValidSpec(sp) && NodeOk(sp, c.tm, n, v.now) && CanAct(sp, c.tm, n, Check, v.now) && r in sp.count
    requires v.pAlive && v.pPhase == n.phase && v.pState == n.res[r].state
    requires Spoke(c, v, v', CheckNext(sp, n), Announced(sp, c.tm, n, Check, v.now), Check, r)
    ensures PairGood(c, v')
  {
    if sp.order[n.phase.k] == r && Acquirable(n.res[r].members, sp.count[r]) {
      CommitPair(c, v, v');
    } else {
      MoveOnPair(c, v, v');
    }
  }

  lemma PReset(c: Config, v: Pair, v': Pair, sp: Spec, n: Node, r: Name)
    requires ValidConfig(c) && PairOk(c, v) && PairGood(c, v)
    requires ValidSpec(sp) && NodeOk(sp, c.tm, n, v.now) && CanAct(sp, c.tm, n, Reset, v.now) && r in sp.count
    requires v.pAlive && v.pPhase == n.phase && v.pState == n.res[r].state
    requires Spoke(c, v, v', ResetNext(sp, n), Announced(sp, c.tm, n, Reset, v.now), Reset, r)
    ensures PairGood(c, v')
  {
    var k := n.phase.k;
    assert r in sp.order;
    if sp.order[k] == r || k + 1 == |sp.order| {
      UnclaimPair(c, v, v');
    } else {
      MoveOnPair(c, v, v');
    }
  }

  /** q takes a step. */
  lemma QTries(c: Config, v: Pair, v': Pair, sp: Spec, n: Node, act: Act, p: Id, r: Name)
    requires ValidConfig(c) && Timely(c) && PairOk(c, v) && PairGood(c, v) && After(v)
    requires ValidSpec(sp) && NodeOk(sp, c.tm, n, v.now) && CanAct(sp, c.tm, n, act, v.now) && r in sp.count
    requires v.qAlive && v.qPhase == n.phase && v.qState == n.res[r].state && v.knows == Knows(n, r, p)
    requires var n' := Perform(sp, c.tm, n, act, v.now);
             r in n'.res && v' == v.(qPhase := n'.phase, qState := n'.res[r].state, knows := Knows(n', r, p))
    requires act.Listen? || act.Announce? || act.Expire?
    ensures PairGood(c, v')
  {
    hide PairGood, ValidConfig, Timely;
    match act
    case Listen => ListenPair(c, v, v');
    case Announce => AnnounceByQPair(c, v, v');
    case Expire => ExpireByQPair(c, v, v');
  }

  lemma QOther(c: Config, v: Pair, v': Pair, sp: Spec, n: Node, act: Act, p: Id, r: Name)
    requires ValidConfig(c) && Timely(c) && PairOk(c, v) && PairGood(c, v) && After(v)
    requires ValidSpec(sp) && NodeOk(sp, c.tm, n, v.now) && CanAct(sp, c.tm, n, act, v.now) && r in sp.count
    requires v.qAlive && v.qPhase == n.phase && v.qState == n.res[r].state && v.knows == Knows(n, r, p)
    requires var n' := Perform(sp, c.tm, n, act, v.now);
             r in n'.res && v' == v.(qPhase := n'.phase, qState := n'.res[r].state, knows := Knows(n', r, p))
    requires !act.Listen? && !act.Announce? && !act.Expire?
    ensures PairGood(c, v')
  {
    hide PairGood, ValidConfig, Timely;
    if !act.Beacon? {
      QLeavesPair(c, v, v');
    }
  }

  lemma QStep(c: Config, v: Pair, v': Pair, sp: Spec, n: Node, act: Act, p: Id, r: Name)
    requires ValidConfig(c) && Timely(c) && PairOk(c, v) && PairGood(c, v) && After(v)
    requires ValidSpec(sp) && NodeOk(sp, c.tm, n, v.now) && CanAct(sp, c.tm, n, act, v.now) && r in sp.count
    requires v.qAlive && v.qPhase == n.phase && v.qState == n.res[r].state && v.knows == Knows(n, r, p)
    requires var n' := Perform(sp, c.tm, n, act, v.now);
             r in n'.res && v' == v.(qPhase := n'.phase, qState := n'.res[r].state, knows := Knows(n', r, p))
    ensures PairGood(c, v')
  {
    hide PairGood, ValidConfig, Timely, Perform, CanAct, NodeOk, ValidSpec;
    if act.Listen? || act.Announce? || act.Expire? {
      QTries(c, v, v', sp, n, act, p, r);
    } else {
      QOther(c, v, v', sp, n, act, p, r);
    }
  }

  lemma BothViewsOf(c: Config, s: State, a: Id, q: Id, r: Name)
    requires Shape(c, s) && Shared(c, a, q, r) && a in s.alive
    ensures BothViews(View(c, s, a, q, r), View(c, s, q, a, r), s.nodes[a], r)
    ensures View(c, s, a, q, r).now == s.now
  {
  }

  lemma PairActsP(c: Config, s: State, a: Id, act: Act, lost: set<(Id, Name)>, q: Id, r: Name)
    requires ValidConfig(c) && Timely(c) && Shape(c, s) && Shared(c, a, q, r) && CanDo(c, s, a, act, lost)
          && Local(c, s, a)
    requires PairOk(c, View(c, s, a, q, r)) && PairOk(c, View(c, s, q, a, r))
    requires PairGood(c, View(c, s, a, q, r)) && PairGood(c, View(c, s, q, a, r)) && After(View(c, s, q, a, r))
    ensures PairGood(c, View(c, Acts(c, s, a, act, lost), a, q, r))
  {
    NodeOkOf(c, s, a);
    BothViewsOf(c, s, a, q, r);
    hide PairOk, PairGood, Perform, Announced, Announcing, CanAct, After, NodeOk, Local, ValidSpec, View, BothViews,
        Spoke;
    var n', rs := Perform(c.specs[a], c.tm, s.nodes[a], act, s.now),
        Announced(c.specs[a], c.tm, s.nodes[a], act, s.now);
    AnnouncingByP(c, s, a, n', rs, act, lost, q, r);
    PStep(c, View(c, s, a, q, r), View(c, Acts(c, s, a, act, lost), a, q, r), View(c, s, q, a, r),
          c.specs[a], s.nodes[a], act, r);
  }

  lemma PairActsQ(c: Config, s: State, a: Id, act: Act, lost: set<(Id, Name)>, p: Id, r: Name)
    requires ValidConfig(c) && Timely(c) && Shape(c, s) && Shared(c, p, a, r) && CanDo(c, s, a, act, lost)
          && Local(c, s, a)
    requires PairOk(c, View(c, s, p, a, r)) && PairGood(c, View(c, s, p, a, r)) && After(View(c, s, p, a, r))
    ensures PairGood(c, View(c, Acts(c, s, a, act, lost), p, a, r))
  {
    hide PairOk, PairGood, Perform, Announced, Announcing, CanAct, After, PhaseOk, TableOk, LinkOf, Knows, Told;
    var n', rs := Perform(c.specs[a], c.tm, s.nodes[a], act, s.now),
        Announced(c.specs[a], c.tm, s.nodes[a], act, s.now);
    AnnouncingByQ(c, s, a, n', rs, act, lost, p, r);
    QStep(c, View(c, s, p, a, r), View(c, Acts(c, s, a, act, lost), p, a, r), c.specs[a], s.nodes[a], act, p, r);
  }

  lemma PairActs(c: Config, s: State, a: Id, act: Act, lost: set<(Id, Name)>, p: Id, q: Id, r: Name)
    requires ValidConfig(c) && Timely(c) && Shape(c, s) && Shared(c, p, q, r) && CanDo(c, s, a, act, lost)
          && Local(c, s, a)
    requires PairOk(c, View(c, s, p, q, r)) && PairOk(c, View(c, s, q, p, r))
    requires PairInv(c, s, p, q, r) && PairInv(c, s, q, p, r)
    requires After(View(c, s, p, q, r)) && After(View(c, s, q, p, r))
    ensures PairInv(c, Acts(c, s, a, act, lost), p, q, r)
  {
    hide PairOk, PairA, PairB, PairC, PairX, Perform, Announced, Announcing, Local, CanAct, After;
    if a == p {
      PairActsP(c, s, a, act, lost, q, r);
    } else if a == q {
      PairActsQ(c, s, a, act, lost, p, r);
    } else {
      AnnouncingOther(c, s, a, Perform(c.specs[a], c.tm, s.nodes[a], act, s.now),
                      Announced(c.specs[a], c.tm, s.nodes[a], act, s.now), act, lost, p, q, r);
    }
  }
}
