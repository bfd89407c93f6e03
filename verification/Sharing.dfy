/** A counting lock counts: processes that declare a count for a resource can share it up to that
    count, whatever else they declare, in every system. They come one after the other; each gives up
    everything but the shared resource before the next one begins. */
module Sharing {
  import opened Protocol
  import opened Network
  import opened Invariants
  import opened Exclusion
  import opened Traces
  import opened Progress
  import opened Tightness
  import opened LockAlone

  // ---- who is where ----

  /** Process p holds r, and has released everything else. */
  ghost predicate Keeper(c: Config, s: State, p: Id, r: Name)
    requires Shape(c, s)
  {
    && Has(c, p, r) && s.nodes[p].phase.Held?
    && forall x :: x in s.nodes[p].res ==> if x == r then s.nodes[p].res[x].state.Acquired?
                                           else s.nodes[p].res[x].state.Released?
  }

  /** Process q has done nothing yet, and knows nothing. */
  ghost predicate Absent(c: Config, s: State, q: Id)
    requires Shape(c, s)
  {
    && q in c.specs && s.nodes[q].phase.Resting?
    && forall x :: x in s.nodes[q].res ==> s.nodes[q].res[x] == Res(Idle, map[])
  }

  /** The tables record no holders but, for r, those in kept. */
  predicate KnowsOf(res: map<Name, Res>, r: Name, kept: set<Id>) {
    forall x :: x in res ==> Busy(res[x].members) <= if x == r then kept else {}
  }

  /** Either nobody acquires, and what is older than the keepers' news was sent by t; or process a is
      in that phase with all its resources in that state. */
  datatype Turn = Nobody(t: int) | Somebody(a: Id, ph: Phase, st: LockState)

  predicate FromKeeper(pkt: Packet, kept: set<Id>, r: Name) {
    pkt.src in kept && pkt.name == r && pkt.state.Acquired?
  }

  predicate Sent(pkt: Packet, turn: Turn) {
    match turn
    case Nobody(t) => pkt.sentAt <= t
    case Somebody(a, _, _) => pkt.src == a && pkt.dst != a
  }

  ghost predicate Acting(c: Config, s: State, r: Name, kept: set<Id>, turn: Turn)
    requires Shape(c, s)
  {
    turn.Somebody? ==>
      && turn.a in c.specs && turn.a !in kept && s.nodes[turn.a].phase == turn.ph
      && (turn.ph.Resting? || turn.ph.Listening? || turn.ph.Window? || turn.ph.Checking?)
      && (forall x :: x in s.nodes[turn.a].res ==> s.nodes[turn.a].res[x].state == turn.st)
      && KnowsOf(s.nodes[turn.a].res, r, kept)
  }

  /** Everybody but the process whose turn it is. */
  ghost predicate Rest(c: Config, s: State, r: Name, kept: set<Id>, turn: Turn)
    requires Shape(c, s)
  {
    && s.alive == c.specs.Keys && kept <= c.specs.Keys
    && (forall p :: p in kept ==> Keeper(c, s, p, r))
    && (forall q :: q in c.specs && q !in kept && !(turn.Somebody? && q == turn.a) ==> Absent(c, s, q))
    && (forall pkt :: pkt in s.net ==> FromKeeper(pkt, kept, r) || Sent(pkt, turn))
  }

  ghost predicate Scene(c: Config, s: State, r: Name, kept: set<Id>, turn: Turn)
    requires Shape(c, s)
  {
    Rest(c, s, r, kept, turn) && Acting(c, s, r, kept, turn)
  }

  // ---- what happens by itself ----

  lemma KeeperHears(sp: Spec, tm: Timing, n: Node, pkt: Packet, now: int)
    requires pkt.name in n.res && pkt.name in sp.count && n.phase.Held?
    ensures var n' := OnPacket(sp, tm, n, pkt, now);
            n'.phase == n.phase && n'.res.Keys == n.res.Keys
            && forall x :: x in n.res ==> n'.res[x].state == n.res[x].state
  {
  }

  lemma AbsentHears(sp: Spec, tm: Timing, n: Node, pkt: Packet, now: int)
    requires pkt.name in n.res && pkt.name in sp.count && n.phase.Resting? && n.res[pkt.name].state.Idle?
    ensures OnPacket(sp, tm, n, pkt, now) == n
  {
  }

  lemma ActorHears(sp: Spec, tm: Timing, n: Node, pkt: Packet, now: int, r: Name, kept: set<Id>)
    requires pkt.name in n.res && pkt.name in sp.count && FromKeeper(pkt, kept, r) && KnowsOf(n.res, r, kept)
    requires n.phase.Resting? || n.phase.Listening? || n.phase.Window? || n.phase.Checking?
    ensures var n' := OnPacket(sp, tm, n, pkt, now);
            && n'.phase == n.phase && n'.res.Keys == n.res.Keys && KnowsOf(n'.res, r, kept)
            && forall x :: x in n.res ==> n'.res[x].state == n.res[x].state
  {
    var n' := OnPacket(sp, tm, n, pkt, now);
    forall x | x in n'.res ensures Busy(n'.res[x].members) <= if x == r then kept else {} {
      assert Busy(n.res[x].members) <= if x == r then kept else {};
      if x == r {
        assert Busy(n'.res[x].members) <= Busy(n.res[x].members) + {pkt.src};
      }
    }
  }

  lemma SceneDelivery(c: Config, s: State, pkt: Packet, r: Name, kept: set<Id>, turn: Turn)
    requires ValidConfig(c) && Shape(c, s) && Scene(c, s, r, kept, turn) && pkt in s.net
    ensures Scene(c, Receive(c, s, pkt, false), r, kept, turn)
  {
    hide Receive, OnPacket, KnowsOf, FromKeeper, Sent, ValidConfig, Keeper, Absent;
    var s' := Receive(c, s, pkt, false);
    ReceiveSame(c, s, pkt, false);
    forall p | p in kept ensures Keeper(c, s', p, r) {
      KeeperKept(c, s, pkt, p, r);
    }
    forall q | q in c.specs && q !in kept && !(turn.Somebody? && q == turn.a) ensures Absent(c, s', q) {
      AbsentKept(c, s, pkt, q);
    }
    if turn.Somebody? {
      ActorKept(c, s, pkt, r, kept, turn);
    }
  }

  lemma KeeperKept(c: Config, s: State, pkt: Packet, p: Id, r: Name)
    requires Shape(c, s) && p in s.alive && p in c.specs && Keeper(c, s, p, r)
    ensures Keeper(c, Receive(c, s, pkt, false), p, r)
  {
    hide OnPacket, Receive;
    ReceivedNode(c, s, pkt, p);
    if pkt.dst == p && Has(c, p, pkt.name) && pkt.src != p {
      KeeperHears(c.specs[p], c.tm, s.nodes[p], pkt, s.now);
    }
  }

  lemma AbsentKept(c: Config, s: State, pkt: Packet, q: Id)
    requires Shape(c, s) && q in s.alive && Absent(c, s, q)
    ensures Absent(c, Receive(c, s, pkt, false), q)
  {
    hide OnPacket, Receive;
    ReceivedNode(c, s, pkt, q);
    if pkt.dst == q && Has(c, q, pkt.name) && pkt.src != q {
      AbsentHears(c.specs[q], c.tm, s.nodes[q], pkt, s.now);
    }
  }

  lemma ActorKept(c: Config, s: State, pkt: Packet, r: Name, kept: set<Id>, turn: Turn)
    requires Shape(c, s) && Scene(c, s, r, kept, turn) && turn.Somebody? && pkt in s.net
    ensures Acting(c, Receive(c, s, pkt, false), r, kept, turn)
  {
    hide OnPacket, Receive, KnowsOf, FromKeeper, Keeper, Absent;
    var a := turn.a;
    ReceivedNode(c, s, pkt, a);
    if pkt.dst == a && Has(c, a, pkt.name) && pkt.src != a {
      ActorHears(c.specs[a], c.tm, s.nodes[a], pkt, s.now, r, kept);
    }
  }

  /** A beacon that is owed is a keeper's, of r, or the acting process's. */
  lemma SceneBeacon(c: Config, s: State, p: Id, x: Name, r: Name, kept: set<Id>, turn: Turn)
    requires ValidConfig(c) && Shape(c, s) && Scene(c, s, r, kept, turn) && (p, x) in Owed(c, s)
    requires CanDo(c, s, p, Beacon(x), {})
    ensures Scene(c, Acts(c, s, p, Beacon(x), {}), r, kept, turn)
  {
    hide Acts, ValidConfig, Rest, Acting, CanDo, Owed, Shape;
    var s' := Acts(c, s, p, Beacon(x), {});
    BeaconNodes(c, s, p, x, {});
    OwedIs(c, s, p, x, r, kept, turn);
    BeaconNet(c, s, p, x, {});
    NetOf(c, s, r, kept, turn);
    SceneSame(c, s, s', r, kept, turn);
  }

  lemma NetOf(c: Config, s: State, r: Name, kept: set<Id>, turn: Turn)
    requires Shape(c, s) && Scene(c, s, r, kept, turn)
    ensures forall pkt :: pkt in s.net ==> FromKeeper(pkt, kept, r) || Sent(pkt, turn)
  {
  }

  lemma SceneSame(c: Config, s: State, s': State, r: Name, kept: set<Id>, turn: Turn)
    requires Shape(c, s) && Shape(c, s') && Scene(c, s, r, kept, turn) && s'.nodes == s.nodes && s'.alive == s.alive
    requires forall pkt :: pkt in s'.net ==> FromKeeper(pkt, kept, r) || Sent(pkt, turn)
    ensures Scene(c, s', r, kept, turn)
  {
    hide KnowsOf, FromKeeper, Sent;
    forall p | p in kept ensures Keeper(c, s', p, r) {
      assert Keeper(c, s, p, r);
    }
    forall q | q in c.specs && q !in kept && !(turn.Somebody? && q == turn.a) ensures Absent(c, s', q) {
      assert Absent(c, s, q);
    }
  }

  lemma OwedIs(c: Config, s: State, p: Id, x: Name, r: Name, kept: set<Id>, turn: Turn)
    requires Shape(c, s) && Scene(c, s, r, kept, turn) && (p, x) in Owed(c, s)
    ensures Has(c, p, x)
    ensures (p in kept && x == r && s.nodes[p].res[x].state.Acquired?) || (turn.Somebody? && p == turn.a)
  {
    if p in kept {
      assert Keeper(c, s, p, r);
    } else if !(turn.Somebody? && p == turn.a) {
      AbsentOwesNothing(c, s, p, x);
      assert false;
    }
  }

  lemma AbsentOwesNothing(c: Config, s: State, p: Id, x: Name)
    requires Shape(c, s) && (p in c.specs ==> Absent(c, s, p))
    ensures (p, x) !in Owed(c, s)
  {
  }

  /** Something can happen before the clock reaches t, and leaves everybody where he is. */
  lemma SceneGoesOn(c: Config, s: State, r: Name, kept: set<Id>, turn: Turn, t: int) returns (s': State)
    requires ValidConfig(c) && Reachable(c, s) && Shape(c, s) && Scene(c, s, r, kept, turn) && s.now < t
    ensures Reachable(c, s') && Shape(c, s') && Scene(c, s', r, kept, turn) && s'.now <= t
    ensures (|| (s'.now == s.now && Overdue(c, s') < Overdue(c, s))
             || (s'.now == s.now && Overdue(c, s') == Overdue(c, s) && Owed(c, s') < Owed(c, s))
             || s'.now == s.now + 1)
  {
    hide Reachable, Shape, ValidConfig, Receive, Acts, Scene, CanDo, CanTick;
    if Overdue(c, s) != {} {
      var pkt :| pkt in Overdue(c, s);
      DeliverOverdue(c, s, pkt);
      OverdueIn(c, s, pkt);
      SceneDelivery(c, s, pkt, r, kept, turn);
      ReachableNext(c, s, Deliver(pkt, false));
      s' := Receive(c, s, pkt, false);
    } else if Owed(c, s) != {} {
      var o :| o in Owed(c, s);
      SendOwed(c, s, o.0, o.1, {});
      SceneBeacon(c, s, o.0, o.1, r, kept, turn);
      ReachableNext(c, s, Do(o.0, Beacon(o.1), {}));
      s' := Acts(c, s, o.0, Beacon(o.1), {});
    } else {
      NothingUrgent(c, s);
      ReachableNext(c, s, Tick);
      s' := s.(now := s.now + 1);
      SceneTick(c, s, r, kept, turn);
    }
  }

  lemma OverdueIn(c: Config, s: State, pkt: Packet)
    requires pkt in Overdue(c, s)
    ensures pkt in s.net
  {
  }

  lemma SceneTick(c: Config, s: State, r: Name, kept: set<Id>, turn: Turn)
    requires Shape(c, s) && Scene(c, s, r, kept, turn)
    ensures var s' := s.(now := s.now + 1); Shape(c, s') && Scene(c, s', r, kept, turn)
  {
    hide Scene;
    NetOf(c, s, r, kept, turn);
    SceneSame(c, s, s.(now := s.now + 1), r, kept, turn);
  }

  lemma {:induction false} SceneWaits(c: Config, s: State, r: Name, kept: set<Id>, turn: Turn, t: int)
    returns (s': State)
    requires ValidConfig(c) && Reachable(c, s) && Shape(c, s) && Scene(c, s, r, kept, turn) && s.now <= t
    ensures Reachable(c, s') && Shape(c, s') && Scene(c, s', r, kept, turn) && s'.now == t
    decreases t - s.now, |Overdue(c, s)|, |Owed(c, s)|
  {
    hide Reachable, Shape, ValidConfig, Scene, Overdue, Owed;
    if s.now == t {
      s' := s;
    } else {
      var m := SceneGoesOn(c, s, r, kept, turn, t);
      SmallerSets(Overdue(c, m), Overdue(c, s));
      SmallerSets(Owed(c, m), Owed(c, s));
      s' := SceneWaits(c, m, r, kept, turn, t);
    }
  }

  // ---- the acting process ----

  /** A step of the acting process changes its own node, and sends nothing to itself. */
  lemma OwnAct(c: Config, s: State, r: Name, kept: set<Id>, turn: Turn, act: Act, ph: Phase, st: LockState)
    requires ValidConfig(c) && Shape(c, s) && turn.Somebody? && turn.a in c.specs && turn.a !in kept
    requires Rest(c, s, r, kept, turn) && CanAct(c.specs[turn.a], c.tm, s.nodes[turn.a], act, s.now)
    ensures CanDo(c, s, turn.a, act, {})
    ensures var s' := Acts(c, s, turn.a, act, {});
            && Rest(c, s', r, kept, Somebody(turn.a, ph, st)) && s'.now == s.now
            && s'.nodes[turn.a] == Perform(c.specs[turn.a], c.tm, s.nodes[turn.a], act, s.now)
  {
    hide Acts, ValidConfig, Perform, Announced, CanAct, Rest;
    var a := turn.a;
    AliveIn(c, s, r, kept, turn);
    ActsNodes(c, s, a, act, {});
    ActsNet(c, s, a, act, {});
    RestAfter(c, s, Acts(c, s, a, act, {}), r, kept, turn, ph, st);
  }

  lemma RestAfter(c: Config, s: State, s': State, r: Name, kept: set<Id>, turn: Turn, ph: Phase, st: LockState)
    requires Shape(c, s) && Shape(c, s') && turn.Somebody? && turn.a !in kept && Rest(c, s, r, kept, turn)
    requires s'.alive == s.alive && forall p :: p in c.specs && p != turn.a ==> s'.nodes[p] == s.nodes[p]
    requires forall pkt :: pkt in s'.net && pkt !in s.net ==> pkt.src == turn.a && pkt.dst != turn.a
    ensures Rest(c, s', r, kept, Somebody(turn.a, ph, st))
  {
    hide FromKeeper;
    forall p | p in kept ensures Keeper(c, s', p, r) {
      assert Keeper(c, s, p, r);
    }
    forall q | q in c.specs && q !in kept && q != turn.a ensures Absent(c, s', q) {
      assert Absent(c, s, q);
    }
  }

  lemma ActorLeaps(c: Config, s: State, r: Name, kept: set<Id>, turn: Turn, act: Act, ph': Phase, st': LockState)
    returns (s': State)
    requires ValidConfig(c) && Reachable(c, s) && Shape(c, s) && Scene(c, s, r, kept, turn) && turn.Somebody?
    requires |c.specs[turn.a].order| > 0 && Leaps(c.tm, s.now, act, turn.ph, turn.st, ph', st')
    ensures Reachable(c, s') && Shape(c, s') && Scene(c, s', r, kept, Somebody(turn.a, ph', st')) && s'.now == s.now
  {
    hide Reachable, ValidConfig, Acts, Perform, Announced, CanAct, Leaps, Rest, WindowTime, Busy, CanDo;
    var a := turn.a;
    NodeFits(c, s, a);
    NodeLeaps(c.specs[a], c.tm, s.nodes[a], s.now, act, turn.ph, turn.st, ph', st');
    OwnAct(c, s, r, kept, turn, act, ph', st');
    ReachableNext(c, s, Do(a, act, {}));
    s' := Acts(c, s, a, act, {});
    LeapsTo(c.tm, s.now, act, turn.ph, turn.st, ph', st');
    SameKnowledge(s.nodes[a].res, s'.nodes[a].res, r, kept);
  }

  lemma SameKnowledge(res: map<Name, Res>, res': map<Name, Res>, r: Name, kept: set<Id>)
    requires KnowsOf(res, r, kept) && res'.Keys == res.Keys
    requires forall x :: x in res ==> res'[x].members == res[x].members
    ensures KnowsOf(res', r, kept)
  {
    hide Busy;
  }

  lemma AliveIn(c: Config, s: State, r: Name, kept: set<Id>, turn: Turn)
    requires Shape(c, s) && Rest(c, s, r, kept, turn)
    ensures s.alive == c.specs.Keys
  {
  }

  lemma LeapsTo(tm: Timing, now: int, act: Act, ph: Phase, st: LockState, ph': Phase, st': LockState)
    requires Leaps(tm, now, act, ph, st, ph', st')
    ensures ph'.Listening? || ph'.Window? || ph'.Checking?
  {
  }

  /** The first i resources are committed. */
  ghost predicate PartlyDone(sp: Spec, n: Node, r: Name, kept: set<Id>, l: int, t: int, i: nat) {
    && i <= |sp.order| && n.phase == (if i < |sp.order| then Checking(l, t, i) else Held(l, t))
    && KnowsOf(n.res, r, kept)
    && forall k :: 0 <= k < i ==> sp.order[k] in n.res && n.res[sp.order[k]].state.Acquired?
  }

  lemma CheckDone(sp: Spec, tm: Timing, n: Node, now: int, r: Name, kept: set<Id>, l: int, t: int, i: nat)
    requires ValidSpec(sp) && n.res.Keys == sp.count.Keys && (forall r :: r in sp.order ==> r in n.res)
    requires PartlyDone(sp, n, r, kept, l, t, i) && i < |sp.order| && r in sp.count && |kept| < sp.count[r]
    ensures CanAct(sp, tm, n, Check, now) && PartlyDone(sp, Perform(sp, tm, n, Check, now), r, kept, l, t, i + 1)
  {
    var x := sp.order[i];
    assert x in sp.order && x in sp.count && x in n.res;
    assert Busy(n.res[x].members) <= if x == r then kept else {};
    SubsetSize(Busy(n.res[x].members), if x == r then kept else {});
    var n' := Perform(sp, tm, n, Check, now);
    SameKnowledge(n.res, n'.res, r, kept);
    hide KnowsOf, Busy;
  }

  lemma {:induction false} ActorCommits(c: Config, s: State, r: Name, kept: set<Id>, turn: Turn, l: int, t: int, i: nat)
    returns (s': State)
    requires ValidConfig(c) && Reachable(c, s) && Shape(c, s) && turn.Somebody? && turn.a in c.specs && turn.a !in kept
    requires Rest(c, s, r, kept, turn) && PartlyDone(c.specs[turn.a], s.nodes[turn.a], r, kept, l, t, i)
    requires Has(c, turn.a, r) && |kept| < c.specs[turn.a].count[r] && i <= |c.specs[turn.a].order|
    ensures Reachable(c, s') && Shape(c, s') && Rest(c, s', r, kept, turn)
    ensures PartlyDone(c.specs[turn.a], s'.nodes[turn.a], r, kept, l, t, |c.specs[turn.a].order|)
    decreases |c.specs[turn.a].order| - i
  {
    hide Reachable, ValidConfig, Acts, Perform, CanAct, Announced, Rest, PartlyDone, CanDo;
    if i == |c.specs[turn.a].order| {
      s' := s;
    } else {
      var a := turn.a;
      NodeFits(c, s, a);
      CheckDone(c.specs[a], c.tm, s.nodes[a], s.now, r, kept, l, t, i);
      OwnAct(c, s, r, kept, turn, Check, turn.ph, turn.st);
      ReachableNext(c, s, Do(a, Check, {}));
      s' := ActorCommits(c, Acts(c, s, a, Check, {}), r, kept, turn, l, t, i + 1);
    }
  }

  /** It has released the first i resources, all but r, and holds the others. */
  ghost predicate PartlyFree(sp: Spec, n: Node, r: Name, i: nat) {
    && i <= |sp.order| && n.phase.Held?
    && forall k :: 0 <= k < |sp.order| ==>
         sp.order[k] in n.res
         && if k < i && sp.order[k] != r then n.res[sp.order[k]].state.Released? else n.res[sp.order[k]].state.Acquired?
  }

  lemma SkipFree(sp: Spec, n: Node, r: Name, i: nat)
    requires PartlyFree(sp, n, r, i) && i < |sp.order| && sp.order[i] == r
    ensures PartlyFree(sp, n, r, i + 1)
  {
  }

  lemma ReleaseFree(sp: Spec, tm: Timing, n: Node, now: int, r: Name, i: nat)
    requires ValidSpec(sp) && n.res.Keys == sp.count.Keys && (forall r :: r in sp.order ==> r in n.res)
    requires PartlyFree(sp, n, r, i) && i < |sp.order| && sp.order[i] != r
    ensures CanAct(sp, tm, n, Release(sp.order[i]), now)
    ensures PartlyFree(sp, Perform(sp, tm, n, Release(sp.order[i]), now), r, i + 1)
  {
  }

  lemma {:induction false} ActorReleases(c: Config, s: State, r: Name, kept: set<Id>, turn: Turn, i: nat)
    returns (s': State)
    requires ValidConfig(c) && Reachable(c, s) && Shape(c, s) && turn.Somebody? && turn.a in c.specs && turn.a !in kept
    requires Rest(c, s, r, kept, turn) && PartlyFree(c.specs[turn.a], s.nodes[turn.a], r, i)
    requires i <= |c.specs[turn.a].order|
    ensures Reachable(c, s') && Shape(c, s') && Rest(c, s', r, kept, turn)
    ensures PartlyFree(c.specs[turn.a], s'.nodes[turn.a], r, |c.specs[turn.a].order|)
    decreases |c.specs[turn.a].order| - i
  {
    hide Reachable, ValidConfig, Acts, Perform, CanAct, Announced, Rest, PartlyFree, CanDo;
    var a := turn.a;
    if i == |c.specs[a].order| {
      s' := s;
    } else if c.specs[a].order[i] == r {
      SkipFree(c.specs[a], s.nodes[a], r, i);
      s' := ActorReleases(c, s, r, kept, turn, i + 1);
    } else {
      var m := ReleaseOne(c, s, r, kept, turn, i);
      s' := ActorReleases(c, m, r, kept, turn, i + 1);
    }
  }

  lemma ReleaseOne(c: Config, s: State, r: Name, kept: set<Id>, turn: Turn, i: nat) returns (m: State)
    requires ValidConfig(c) && Reachable(c, s) && Shape(c, s) && turn.Somebody? && turn.a in c.specs && turn.a !in kept
    requires Rest(c, s, r, kept, turn) && PartlyFree(c.specs[turn.a], s.nodes[turn.a], r, i)
    requires i < |c.specs[turn.a].order| && c.specs[turn.a].order[i] != r
    ensures Reachable(c, m) && Shape(c, m) && Rest(c, m, r, kept, turn)
    ensures PartlyFree(c.specs[turn.a], m.nodes[turn.a], r, i + 1)
  {
    hide Reachable, ValidConfig, Acts, Perform, CanAct, Announced, Rest, PartlyFree, CanDo;
    var a, act := turn.a, Release(c.specs[turn.a].order[i]);
    NodeFits(c, s, a);
    ReleaseFree(c.specs[a], c.tm, s.nodes[a], s.now, r, i);
    OwnAct(c, s, r, kept, turn, act, turn.ph, turn.st);
    ReachableNext(c, s, Do(a, act, {}));
    m := Acts(c, s, a, act, {});
  }

  // ---- one after the other ----

  /** When all older packets are gone, the next one may begin. */
  lemma TurnBegins(c: Config, s: State, r: Name, kept: set<Id>, t: int, a: Id)
    requires ValidConfig(c) && Reachable(c, s) && Shape(c, s) && Scene(c, s, r, kept, Nobody(t)) && s.now > t + c.delay
    requires a in c.specs && a !in kept
    ensures Scene(c, s, r, kept, Somebody(a, Resting, Idle))
  {
    hide Reachable, ValidConfig, Keeper;
    SentByNow(c, s);
    assert Absent(c, s, a);
  }

  /** A process that has committed everything and released everything but r is a keeper. */
  lemma TurnEnds(c: Config, s: State, r: Name, kept: set<Id>, turn: Turn)
    requires ValidConfig(c) && Reachable(c, s) && Shape(c, s) && turn.Somebody? && Has(c, turn.a, r) && turn.a !in kept
    requires Rest(c, s, r, kept, turn)
    requires PartlyFree(c.specs[turn.a], s.nodes[turn.a], r, |c.specs[turn.a].order|)
    ensures Scene(c, s, r, kept + {turn.a}, Nobody(s.now))
  {
    hide Reachable, ValidConfig, Keeper, Absent, PartlyFree, Shape;
    SentByNow(c, s);
    KeeperNow(c, s, turn.a, r);
  }

  lemma SentByNow(c: Config, s: State)
    requires ValidConfig(c) && Reachable(c, s) && Shape(c, s)
    ensures forall pkt :: pkt in s.net ==> pkt.sentAt <= s.now <= pkt.sentAt + c.delay
  {
    hide Reachable, Local, DueOk, ClockOk, MissedOk, ValidConfig;
    ReachableBasics(c, s);
    forall pkt | pkt in s.net ensures pkt.sentAt <= s.now <= pkt.sentAt + c.delay {
      assert PacketOk(c, s, pkt);
    }
  }

  lemma KeeperNow(c: Config, s: State, a: Id, r: Name)
    requires ValidConfig(c) && Shape(c, s) && Has(c, a, r)
    requires PartlyFree(c.specs[a], s.nodes[a], r, |c.specs[a].order|)
    ensures Keeper(c, s, a, r)
  {
    assert ValidSpec(c.specs[a]);
    forall x | x in s.nodes[a].res
      ensures if x == r then s.nodes[a].res[x].state.Acquired? else s.nodes[a].res[x].state.Released?
    {
      assert x in c.specs[a].order;
    }
  }

  lemma BothBegin(c: Config, s: State, r: Name, kept: set<Id>, turn: Turn, l: int, t: int)
    requires Shape(c, s) && Scene(c, s, r, kept, turn) && turn.Somebody? && turn.ph == Checking(l, t, 0)
    requires |c.specs[turn.a].order| > 0
    ensures PartlyDone(c.specs[turn.a], s.nodes[turn.a], r, kept, l, t, 0)
  {
  }

  lemma DoneIsFree(sp: Spec, n: Node, r: Name, kept: set<Id>, l: int, t: int)
    requires PartlyDone(sp, n, r, kept, l, t, |sp.order|)
    ensures PartlyFree(sp, n, r, 0)
  {
  }

  /** One more process gets the resource, as long as there is room. */
  lemma OneMore(c: Config, s: State, r: Name, kept: set<Id>, t: int, a: Id) returns (s': State)
    requires ValidConfig(c) && Reachable(c, s) && Shape(c, s) && Scene(c, s, r, kept, Nobody(t))
    requires a !in kept && Has(c, a, r) && |c.specs[a].order| > 0 && |kept| < c.specs[a].count[r]
    ensures Reachable(c, s') && Shape(c, s') && Scene(c, s', r, kept + {a}, Nobody(s'.now))
  {
    hide Reachable, Shape, ValidConfig, Scene, Rest, PartlyDone, PartlyFree, WindowTime;
    s' := SceneWaits(c, s, r, kept, Nobody(t), if s.now > t + c.delay then s.now else t + c.delay + 1);
    TurnBegins(c, s', r, kept, t, a);
    var t0 := s'.now;
    var t1 := t0 + WindowTime(c.tm);
    var t2 := t1 + WindowTime(c.tm);
    s' := ActorLeaps(c, s', r, kept, Somebody(a, Resting, Idle), Listen, Listening(t0), Starting);
    s' := SceneWaits(c, s', r, kept, Somebody(a, Listening(t0), Starting), t1);
    s' := ActorLeaps(c, s', r, kept, Somebody(a, Listening(t0), Starting), Announce, Window(t0, t1), Acquiring);
    s' := SceneWaits(c, s', r, kept, Somebody(a, Window(t0, t1), Acquiring), t2);
    var turn := Somebody(a, Checking(t0, t1, 0), Acquiring);
    s' := ActorLeaps(c, s', r, kept, Somebody(a, Window(t0, t1), Acquiring), Expire, turn.ph, Acquiring);
    BothBegin(c, s', r, kept, turn, t0, t1);
    SceneRest(c, s', r, kept, turn);
    NodeThere(c, s', a);
    s' := ActorCommits(c, s', r, kept, turn, t0, t1, 0);
    NodeThere(c, s', a);
    DoneIsFree(c.specs[a], s'.nodes[a], r, kept, t0, t1);
    s' := ActorReleases(c, s', r, kept, turn, 0);
    NodeThere(c, s', a);
    TurnEnds(c, s', r, kept, turn);
  }

  lemma NodeThere(c: Config, s: State, a: Id)
    requires Shape(c, s) && a in c.specs
    ensures a in s.nodes
  {
  }

  lemma SceneRest(c: Config, s: State, r: Name, kept: set<Id>, turn: Turn)
    requires Shape(c, s) && Scene(c, s, r, kept, turn)
    ensures Rest(c, s, r, kept, turn)
  {
  }

  lemma {:induction false} AllShare(c: Config, s: State, r: Name, count: nat, kept: set<Id>, todo: set<Id>, t: int)
    returns (s': State, t': int)
    requires ValidConfig(c) && Reachable(c, s) && Shape(c, s) && Scene(c, s, r, kept, Nobody(t))
    requires kept !! todo && |kept| + |todo| <= count
    requires forall a :: a in todo ==> Has(c, a, r) && |c.specs[a].order| > 0 && c.specs[a].count[r] == count
    ensures Reachable(c, s') && Shape(c, s') && Scene(c, s', r, kept + todo, Nobody(t'))
    decreases |todo|
  {
    hide Reachable, Shape, ValidConfig, Scene;
    if todo == {} {
      s', t' := s, t;
      assert kept + todo == kept;
    } else {
      var a :| a in todo;
      var m := OneMore(c, s, r, kept, t, a);
      s', t' := AllShare(c, m, r, count, kept + {a}, todo - {a}, m.now);
      assert kept + {a} + (todo - {a}) == kept + todo;
    }
  }

  lemma SceneAtStart(c: Config, r: Name)
    requires ValidConfig(c)
    ensures Scene(c, Init(c), r, {}, Nobody(0))
  {
  }

  lemma HoldersAreKeepers(c: Config, s: State, r: Name, count: nat, kept: set<Id>, t: int)
    requires Shape(c, s) && Scene(c, s, r, kept, Nobody(t)) && kept <= Contenders(c, r, count)
    ensures Holders(c, s, r, count) == kept
  {
    forall p ensures p in Holders(c, s, r, count) <==> p in kept {
      if p in kept {
        assert Keeper(c, s, p, r);
      } else if p in c.specs {
        assert Absent(c, s, p);
      }
    }
  }

  /** In every system, timely or not: any processes that declare `count` for a resource, if they are not
      more than `count`, can come to be exactly its live holders. */
  lemma AnyGroupHolds(c: Config, r: Name, count: nat, group: set<Id>) returns (s: State)
    requires ValidConfig(c) && group <= Contenders(c, r, count) && |group| <= count
    ensures Reachable(c, s) && Shape(c, s) && Holders(c, s, r, count) == group
  {
    hide Reachable, Shape, ValidConfig, Scene, Init, Holders;
    NamesDeclared(c, group, r);
    SceneAtStart(c, r);
    StartReachable(c);
    var t;
    s, t := AllShare(c, Init(c), r, count, {}, group, 0);
    assert {} + group == group;
    HoldersAreKeepers(c, s, r, count, group, t);
  }

  /** In a timely system the number of holders of a resource can be every number up to the count, as
      far as there are contenders, and nothing else. */
  lemma HoldersCounted(c: Config, r: Name, count: nat, n: nat)
    requires ValidConfig(c) && Timely(c)
    ensures (exists s :: Reachable(c, s) && Shape(c, s) && |Holders(c, s, r, count)| == n)
            <==> n <= count && n <= |Contenders(c, r, count)|
  {
    hide Reachable, ValidConfig, Timely, Holders, Contenders;
    if n <= count && n <= |Contenders(c, r, count)| {
      var group := SomeOf(Contenders(c, r, count), n);
      var s := AnyGroupHolds(c, r, count, group);
      assert |Holders(c, s, r, count)| == n;
    }
    forall s | Reachable(c, s) && Shape(c, s) && |Holders(c, s, r, count)| == n
      ensures n <= count && n <= |Contenders(c, r, count)|
    {
      CountingExclusion(c, s, r, count);
      HoldersContend(c, s, r, count);
      SubsetSize(Holders(c, s, r, count), Contenders(c, r, count));
    }
  }

  lemma HoldersContend(c: Config, s: State, r: Name, count: nat)
    requires Shape(c, s)
    ensures Holders(c, s, r, count) <= Contenders(c, r, count)
  {
  }

  lemma {:induction false} SomeOf<T>(all: set<T>, n: nat) returns (some: set<T>)
    requires n <= |all|
    ensures some <= all && |some| == n
  {
    if n == |all| {
      some := all;
    } else {
      var x :| x in all;
      some := SomeOf(all - {x}, n);
    }
  }
}
