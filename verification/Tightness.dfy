/** The timing condition of the exclusion theorem is exact: without it, as many processes as want a
    resource can all get it. They contend in step; of each of their announcements the medium loses as
    much as it may, and delivers the rest as late as it may. */
module Tightness {
  import opened Protocol
  import opened Network
  import opened Invariants
  import opened Exclusion
  import opened Traces
  import opened Progress

  /** The processes that declare `count` for resource r. */
  ghost function Contenders(c: Config, r: Name, count: nat): set<Id> {
    set p | p in c.specs && r in c.specs[p].count && c.specs[p].count[r] == count
  }

  // ---- where a process stands ----

  /** Process a stands in that phase, all its resources in that state, and has heard of no holder. */
  ghost predicate At(c: Config, s: State, a: Id, ph: Phase, st: LockState)
    requires Shape(c, s)
  {
    && a in c.specs && a in s.alive && s.nodes[a].phase == ph
    && forall x :: x in s.nodes[a].res ==> s.nodes[a].res[x].state == st && Busy(s.nodes[a].res[x].members) == {}
  }

  /** Nothing that a sent was lost. */
  ghost predicate NeverLost(s: State, a: Id) {
    forall q, x :: Missed(s, a, q, x) == 0
  }

  /** a has announced x for the j-th time, from the end of one window on in steps of one beacon;
      unless it was the last of a burst, all of it was lost. */
  ghost predicate SentTimes(c: Config, s: State, a: Id, x: Name, j: nat)
    requires Shape(c, s) && Has(c, a, x)
  {
    && s.clocks[a][x].due == WindowTime(c.tm) + Lag(c, j)
    && (j < c.burst ==> forall q :: q in c.specs ==> Missed(s, a, q, x) == j)
  }

  ghost predicate Sending(c: Config, s: State, a: Id)
    requires Shape(c, s)
  {
    forall x :: Has(c, a, x) ==> exists j: nat :: SentTimes(c, s, a, x, j)
  }

  /** The stages of the contest: at rest, listening from 0 on, in the window from W on, checking. */
  ghost predicate Stage(c: Config, s: State, a: Id, n: nat)
    requires Shape(c, s)
  {
    var w := WindowTime(c.tm);
    if n == 0 then At(c, s, a, Resting, Idle) && NeverLost(s, a)
    else if n == 1 then At(c, s, a, Listening(0), Starting) && NeverLost(s, a)
    else if n == 2 then At(c, s, a, Window(0, w), Acquiring) && Sending(c, s, a)
    else At(c, s, a, Checking(0, w, 0), Acquiring)
  }

  /** Whoever does not contend is idle. */
  ghost predicate Bystanders(c: Config, s: State, k: set<Id>)
    requires Shape(c, s)
  {
    s.alive == c.specs.Keys && forall q :: q in c.specs && q !in k ==> At(c, s, q, Resting, Idle)
  }

  /** No claim on its way to a contender was sent early enough to be urgent before two windows are over. */
  ghost predicate Late(c: Config, pkt: Packet, k: set<Id>)
    requires c.burst >= 1
  {
    && !pkt.state.Acquired?
    && (pkt.state.Acquiring? && pkt.dst in k ==> pkt.sentAt >= WindowTime(c.tm) + Lag(c, c.burst - 1))
  }

  ghost predicate NetLate(c: Config, s: State, k: set<Id>)
    requires c.burst >= 1
  {
    forall pkt :: pkt in s.net ==> Late(c, pkt, k)
  }

  /** The contenders in `todo` are at stage n, the others one further. */
  ghost predicate InStep(c: Config, s: State, k: set<Id>, todo: set<Id>, n: nat)
    requires Shape(c, s)
  {
    Bystanders(c, s, k) && forall a :: a in k ==> a in c.specs && Stage(c, s, a, if a in todo then n else n + 1)
  }

  // ---- one contender's step ----

  /** What a step of process a leaves to process b. */
  ghost predicate Untouched(c: Config, s: State, s': State, b: Id)
    requires Shape(c, s) && Shape(c, s')
  {
    && s'.alive == s.alive
    && (b in c.specs ==> s'.nodes[b] == s.nodes[b] && s'.clocks[b] == s.clocks[b])
    && forall q, x :: Missed(s', b, q, x) == Missed(s, b, q, x)
  }

  lemma UntouchedStage(c: Config, s: State, s': State, b: Id, n: nat)
    requires Shape(c, s) && Shape(c, s') && Untouched(c, s, s', b) && Stage(c, s, b, n)
    ensures Stage(c, s', b, n)
  {
    hide Busy, WindowTime;
    if n == 2 {
      forall x | Has(c, b, x) ensures exists j: nat :: SentTimes(c, s', b, x, j) {
        var j: nat :| SentTimes(c, s, b, x, j);
        assert SentTimes(c, s', b, x, j);
      }
    }
  }

  lemma ActsMissed(c: Config, s: State, a: Id, act: Act, lost: set<(Id, Name)>)
    requires ValidConfig(c) && Shape(c, s) && CanDo(c, s, a, act, lost)
    ensures var s', rs := Acts(c, s, a, act, lost), Announced(c.specs[a], c.tm, s.nodes[a], act, s.now);
            forall p, q, r :: Missed(s', p, q, r) ==
                              (if p == a && r in rs && q in c.specs
                               then (if (q, r) in lost then Missed(s, p, q, r) + 1 else 0)
                               else Missed(s, p, q, r))
  {
    hide Perform, Announced, CanAct, Broadcast, NewClock, ValidSpec;
  }

  lemma OthersUntouched(c: Config, s: State, a: Id, act: Act, lost: set<(Id, Name)>, b: Id)
    requires ValidConfig(c) && Shape(c, s) && CanDo(c, s, a, act, lost) && b != a
    ensures Untouched(c, s, Acts(c, s, a, act, lost), b)
  {
    hide Acts, Perform, Announced, CanAct, ValidSpec;
    ActsNodes(c, s, a, act, lost);
    ActsClocks(c, s, a, act, lost);
    ActsMissed(c, s, a, act, lost);
  }

  /** Everything of a's announcements of rs. */
  ghost function Everything(c: Config, rs: set<Name>): set<(Id, Name)> {
    set q, x | q in c.specs && x in rs :: (q, x)
  }

  /** The step of stage n, and what is lost of it: of the first claims, everything if anything may be. */
  function StageAct(n: nat): Act {
    if n == 0 then Listen else if n == 1 then Announce else Expire
  }

  ghost function StageLost(c: Config, a: Id, n: nat): set<(Id, Name)>
    requires a in c.specs
  {
    if n == 1 && c.burst > 1 then Everything(c, c.specs[a].count.Keys) else {}
  }

  /** The moments the stages end: all contenders begin together and are prompt. */
  predicate Moment(c: Config, now: int, n: nat) {
    now == if n == 0 then 0 else if n == 1 then WindowTime(c.tm) else 2 * WindowTime(c.tm)
  }

  lemma NodeActs(sp: Spec, tm: Timing, n: Node, now: int, stage: nat)
    requires ValidSpec(sp) && n.res.Keys == sp.count.Keys && (forall r :: r in sp.order ==> r in n.res)
          && |sp.order| > 0
    requires stage <= 2
    requires n.phase == if stage == 0 then Resting else if stage == 1 then Listening(0) else Window(0, WindowTime(tm))
    requires now == if stage == 0 then 0 else if stage == 1 then WindowTime(tm) else 2 * WindowTime(tm)
    ensures CanAct(sp, tm, n, StageAct(stage), now)
    ensures Announced(sp, tm, n, StageAct(stage), now) == if stage == 2 then {} else n.res.Keys
    ensures var n' := Perform(sp, tm, n, StageAct(stage), now);
            && n'.phase == (if stage == 0 then Listening(0) else if stage == 1 then Window(0, now)
                            else Checking(0, WindowTime(tm), 0))
            && n'.res.Keys == n.res.Keys
            && forall x :: x in n.res ==>
                 && n'.res[x].members == n.res[x].members
                 && n'.res[x].state == if stage == 0 then Starting else if stage == 1 then Acquiring else n.res[x].state
  {
    hide WindowTime;
  }

  lemma BurstPositive(c: Config)
    requires ValidConfig(c)
    ensures c.burst >= 1
  {
  }

  lemma NodeFits(c: Config, s: State, a: Id)
    requires ValidConfig(c) && Shape(c, s) && a in c.specs
    ensures c.burst >= 1 && ValidSpec(c.specs[a]) && s.nodes[a].res.Keys == c.specs[a].count.Keys
    ensures forall r :: r in c.specs[a].order ==> r in s.nodes[a].res
  {
  }

  lemma CanStage(c: Config, s: State, a: Id, n: nat)
    requires ValidConfig(c) && Shape(c, s) && n <= 2 && Stage(c, s, a, n) && Moment(c, s.now, n)
          && |c.specs[a].order| > 0
    ensures CanDo(c, s, a, StageAct(n), StageLost(c, a, n))
  {
    hide CanAct, Announced, ValidConfig, WindowTime, Sending;
    NodeFits(c, s, a);
    NodeActs(c.specs[a], c.tm, s.nodes[a], s.now, n);
  }

  /** The contender itself is one stage further. */
  lemma StageMoves(c: Config, s: State, a: Id, n: nat)
    requires ValidConfig(c) && Shape(c, s) && n <= 2 && Stage(c, s, a, n) && Moment(c, s.now, n)
          && |c.specs[a].order| > 0
    requires CanDo(c, s, a, StageAct(n), StageLost(c, a, n))
    ensures Stage(c, Acts(c, s, a, StageAct(n), StageLost(c, a, n)), a, n + 1)
  {
    hide Acts, ValidConfig, WindowTime, Sending, At, CanDo, Announced;
    AtMoves(c, s, a, n);
    if n == 0 {
      StillNeverLost(c, s, a);
    } else if n == 1 {
      SendingBegins(c, s, a);
    }
  }

  lemma AtMoves(c: Config, s: State, a: Id, n: nat)
    requires ValidConfig(c) && Shape(c, s) && n <= 2 && Stage(c, s, a, n) && Moment(c, s.now, n)
          && |c.specs[a].order| > 0
    requires CanDo(c, s, a, StageAct(n), StageLost(c, a, n))
    ensures At(c, Acts(c, s, a, StageAct(n), StageLost(c, a, n)), a,
               if n == 0 then Listening(0) else if n == 1 then Window(0, WindowTime(c.tm))
                   else Checking(0, WindowTime(c.tm), 0),
               if n == 0 then Starting else Acquiring)
    ensures n <= 1 ==> Announced(c.specs[a], c.tm, s.nodes[a], StageAct(n), s.now) == s.nodes[a].res.Keys
  {
    hide Acts, Perform, Announced, CanAct, ValidConfig, WindowTime, Sending, Busy, CanDo, StageAct, StageLost;
    NodeFits(c, s, a);
    NodeActs(c.specs[a], c.tm, s.nodes[a], s.now, n);
    ActsNodes(c, s, a, StageAct(n), StageLost(c, a, n));
  }

  lemma StillNeverLost(c: Config, s: State, a: Id)
    requires ValidConfig(c) && Shape(c, s) && NeverLost(s, a) && CanDo(c, s, a, Listen, {})
    ensures NeverLost(Acts(c, s, a, Listen, {}), a)
  {
    hide Acts, Announced, CanAct, ValidConfig;
    ActsMissed(c, s, a, Listen, {});
  }

  /** The announcement of the claim is the first of the burst. */
  lemma SendingBegins(c: Config, s: State, a: Id)
    requires ValidConfig(c) && Shape(c, s) && Stage(c, s, a, 1) && Moment(c, s.now, 1)
    requires CanDo(c, s, a, Announce, StageLost(c, a, 1))
    requires Announced(c.specs[a], c.tm, s.nodes[a], Announce, s.now) == s.nodes[a].res.Keys
    ensures Sending(c, Acts(c, s, a, Announce, StageLost(c, a, 1)), a)
  {
    hide Acts, Perform, Announced, CanAct, ValidSpec, WindowTime;
    var lost := StageLost(c, a, 1);
    var s' := Acts(c, s, a, Announce, lost);
    ActsClocks(c, s, a, Announce, lost);
    ActsMissed(c, s, a, Announce, lost);
    LagBase(c);
    forall x | Has(c, a, x) ensures exists j: nat :: SentTimes(c, s', a, x, j) {
      assert SentTimes(c, s', a, x, 1);
    }
  }

  /** Of an announcement that is lost altogether nothing goes out. */
  lemma AllLost(c: Config, a: Id, n: Node, rs: set<Name>, now: int)
    requires a in c.specs && n.res.Keys == c.specs[a].count.Keys && rs <= n.res.Keys
    ensures Broadcast(c, a, n, rs, Everything(c, rs), now) == {}
  {
    forall pkt ensures pkt !in Broadcast(c, a, n, rs, Everything(c, rs), now) {
      assert pkt.dst in c.specs && pkt.name in rs ==> (pkt.dst, pkt.name) in Everything(c, rs);
    }
  }

  lemma LagBase(c: Config)
    ensures Lag(c, 0) == 0 && Lag(c, 1) == c.tm.beacon
  {
    assert Beacons(c.tm.beacon, 1) == c.tm.beacon;
  }

  /** What it sends is late, or harmless. */
  lemma StageSends(c: Config, s: State, a: Id, n: nat, k: set<Id>)
    requires ValidConfig(c) && Shape(c, s) && n <= 2 && Stage(c, s, a, n) && Moment(c, s.now, n)
          && |c.specs[a].order| > 0
    requires CanDo(c, s, a, StageAct(n), StageLost(c, a, n)) && NetLate(c, s, k)
    ensures NetLate(c, Acts(c, s, a, StageAct(n), StageLost(c, a, n)), k)
  {
    hide Acts, Perform, Announced, CanAct, ValidConfig, WindowTime, Sending, Busy, CanDo;
    var act, lost, sp := StageAct(n), StageLost(c, a, n), c.specs[a];
    NodeFits(c, s, a);
    NodeActs(sp, c.tm, s.nodes[a], s.now, n);
    ActsNet(c, s, a, act, lost);
    var n', rs := Perform(sp, c.tm, s.nodes[a], act, s.now), Announced(sp, c.tm, s.nodes[a], act, s.now);
    StageOut(c, a, n', rs, n, s.now, k);
  }

  lemma StageOut(c: Config, a: Id, n': Node, rs: set<Name>, n: nat, now: int, k: set<Id>)
    requires c.burst >= 1 && a in c.specs && n'.res.Keys == c.specs[a].count.Keys && Moment(c, now, n) && n <= 2
    requires rs == if n == 2 then {} else n'.res.Keys
    requires forall x :: x in n'.res ==> n'.res[x].state == if n == 0 then Starting else Acquiring
    ensures forall pkt :: pkt in Broadcast(c, a, n', rs, StageLost(c, a, n), now) ==> Late(c, pkt, k)
  {
    hide WindowTime;
    LagBase(c);
    AllLost(c, a, n', rs, now);
  }

  lemma BystandersStay(c: Config, s: State, s': State, k: set<Id>)
    requires Shape(c, s) && Shape(c, s') && Bystanders(c, s, k) && s'.alive == s.alive
    requires forall q :: q in c.specs && q !in k ==> s'.nodes[q] == s.nodes[q]
    ensures Bystanders(c, s', k)
  {
  }

  /** All contenders take the step of their stage, one after the other. */
  lemma {:induction false} AllMove(c: Config, s: State, k: set<Id>, todo: set<Id>, n: nat) returns (s': State)
    requires ValidConfig(c) && Reachable(c, s) && Shape(c, s) && n <= 2 && todo <= k
    requires InStep(c, s, k, todo, n) && Moment(c, s.now, n) && NetLate(c, s, k)
    requires forall a :: a in k ==> a in c.specs && |c.specs[a].order| > 0
    ensures Reachable(c, s') && Shape(c, s') && s'.now == s.now && InStep(c, s', k, {}, n) && NetLate(c, s', k)
    decreases |todo|
  {
    hide Reachable, Shape, ValidConfig, Acts, Stage, NetLate, CanDo, Moment, Bystanders, Untouched;
    if todo == {} {
      s' := s;
    } else {
      var a :| a in todo;
      CanStage(c, s, a, n);
      var m := Acts(c, s, a, StageAct(n), StageLost(c, a, n));
      ReachableNext(c, s, Do(a, StageAct(n), StageLost(c, a, n)));
      MovedOne(c, s, k, todo, n, a);
      s' := AllMove(c, m, k, todo - {a}, n);
    }
  }

  lemma MovedOne(c: Config, s: State, k: set<Id>, todo: set<Id>, n: nat, a: Id)
    requires ValidConfig(c) && Shape(c, s) && n <= 2 && todo <= k && a in todo
    requires InStep(c, s, k, todo, n) && Moment(c, s.now, n) && NetLate(c, s, k) && |c.specs[a].order| > 0
    requires CanDo(c, s, a, StageAct(n), StageLost(c, a, n))
    ensures var m := Acts(c, s, a, StageAct(n), StageLost(c, a, n));
            Shape(c, m) && m.now == s.now && InStep(c, m, k, todo - {a}, n) && NetLate(c, m, k)
  {
    hide ValidConfig, Acts, Stage, NetLate, CanDo, Moment, Perform, At;
    var m := Acts(c, s, a, StageAct(n), StageLost(c, a, n));
    ActsNodes(c, s, a, StageAct(n), StageLost(c, a, n));
    StageMoves(c, s, a, n);
    StageSends(c, s, a, n, k);
    BystandersStay(c, s, m, k);
    forall b | b in k ensures b in c.specs && Stage(c, m, b, if b in todo - {a} then n else n + 1) {
      if b != a {
        OthersUntouched(c, s, a, StageAct(n), StageLost(c, a, n), b);
        UntouchedStage(c, s, m, b, if b in todo then n else n + 1);
      }
    }
  }

  // ---- waiting together ----

  /** A delivery that brings no claim to a contender changes no phase, no state, and no clock. */
  lemma HarmlessDelivery(c: Config, s: State, pkt: Packet, k: set<Id>, n: nat)
    requires ValidConfig(c) && Shape(c, s) && 1 <= n <= 2 && InStep(c, s, k, k, n) && NetLate(c, s, k) && pkt in s.net
    requires pkt.dst in k ==> !pkt.state.Acquiring?
    ensures InStep(c, Receive(c, s, pkt, false), k, k, n) && NetLate(c, Receive(c, s, pkt, false), k)
  {
    hide Receive, OnPacket, Stage, At;
    var s' := Receive(c, s, pkt, false);
    assert Late(c, pkt, k);
    ReceiveSame(c, s, pkt, false);
    forall q | q in c.specs && q !in k ensures At(c, s', q, Resting, Idle) {
      HeardAt(c, s, pkt, q, Resting, Idle);
    }
    forall a | a in k ensures Stage(c, s', a, n) {
      HeardStage(c, s, pkt, k, a, n);
    }
  }

  lemma HeardAt(c: Config, s: State, pkt: Packet, a: Id, ph: Phase, st: LockState)
    requires Shape(c, s) && At(c, s, a, ph, st) && !pkt.state.Acquired? && (ph.Resting? || ph.Listening? || ph.Window?)
    requires pkt.dst == a && !ph.Resting? ==> !pkt.state.Acquiring?
    ensures At(c, Receive(c, s, pkt, false), a, ph, st)
  {
    hide OnPacket, Busy, Shape;
    ReceivedNode(c, s, pkt, a);
    if pkt.dst == a && Has(c, a, pkt.name) && pkt.src != a {
      HeardNode(c.specs[a], c.tm, s.nodes[a], pkt, s.now);
    }
  }

  lemma ReceivedNode(c: Config, s: State, pkt: Packet, a: Id)
    requires Shape(c, s) && a in c.specs && a in s.alive
    ensures var s' := Receive(c, s, pkt, false);
            && a in s.nodes && a in s'.nodes && a in s'.alive
            && (Has(c, a, pkt.name) ==> pkt.name in s.nodes[a].res)
            && s'.nodes[a] == if pkt.dst == a && Has(c, a, pkt.name) && pkt.src != a
                              then OnPacket(c.specs[a], c.tm, s.nodes[a], pkt, s.now) else s.nodes[a]
  {
    hide OnPacket;
  }

  lemma HeardNode(sp: Spec, tm: Timing, n: Node, pkt: Packet, now: int)
    requires pkt.name in n.res && pkt.name in sp.count && !pkt.state.Acquired?
    requires n.phase.Resting? || n.phase.Listening? || n.phase.Window?
    requires !n.phase.Resting? ==> !pkt.state.Acquiring?
    ensures var n' := OnPacket(sp, tm, n, pkt, now);
            && n'.phase == n.phase && n'.res.Keys == n.res.Keys
            && forall x :: x in n.res ==>
                 n'.res[x].state == n.res[x].state && (Busy(n.res[x].members) == {} ==> Busy(n'.res[x].members) == {})
  {
    hide Busy;
    HeardTable(n.res[pkt.name], sp.count[pkt.name], pkt, now);
  }

  /** A packet that announces no hold adds no holder to a table. */
  lemma HeardTable(x: Res, own: nat, pkt: Packet, now: int)
    requires !pkt.state.Acquired?
    ensures UpdateMember(x, own, pkt.src, pkt.state, pkt.count, now).state == x.state
    ensures Busy(x.members) == {} ==> Busy(UpdateMember(x, own, pkt.src, pkt.state, pkt.count, now).members) == {}
  {
    var y := UpdateMember(x, own, pkt.src, pkt.state, pkt.count, now);
    assert Busy(y.members) <= Busy(x.members);
  }

  lemma HeardStage(c: Config, s: State, pkt: Packet, k: set<Id>, a: Id, n: nat)
    requires c.burst >= 1 && Shape(c, s) && 1 <= n <= 2 && Stage(c, s, a, n) && Late(c, pkt, k) && a in k
    requires pkt.dst in k ==> !pkt.state.Acquiring?
    ensures Stage(c, Receive(c, s, pkt, false), a, n)
  {
    hide At, Receive, WindowTime, SentTimes;
    var s' := Receive(c, s, pkt, false);
    ReceiveSame(c, s, pkt, false);
    if n == 1 {
      HeardAt(c, s, pkt, a, Listening(0), Starting);
      forall q, x ensures Missed(s', a, q, x) == 0 {
        assert Missed(s, a, q, x) == 0;
      }
    } else {
      HeardAt(c, s, pkt, a, Window(0, WindowTime(c.tm)), Acquiring);
      forall x | Has(c, a, x) ensures exists j: nat :: SentTimes(c, s', a, x, j) {
        var j: nat :| SentTimes(c, s, a, x, j);
        SameSent(c, s, s', a, x, j);
        assert SentTimes(c, s', a, x, j);
      }
    }
  }

  lemma SameSent(c: Config, s: State, s': State, a: Id, x: Name, j: nat)
    requires Shape(c, s) && Shape(c, s') && Has(c, a, x) && SentTimes(c, s, a, x, j)
    requires s'.clocks[a] == s.clocks[a] && forall q :: Missed(s', a, q, x) == Missed(s, a, q, x)
    ensures SentTimes(c, s', a, x, j)
  {
  }

  /** What is lost of the next beacon of x: everything, as long as anything may be. */
  ghost function BeaconLost(c: Config, s: State, a: Id, x: Name, j: nat): set<(Id, Name)> {
    if j + 1 < c.burst then Everything(c, {x}) else {}
  }

  lemma NextBeacon(c: Config, s: State, a: Id, x: Name, j: nat, k: set<Id>)
    requires ValidConfig(c) && Shape(c, s) && InStep(c, s, k, k, 2) && NetLate(c, s, k) && a in k && Has(c, a, x)
    requires SentTimes(c, s, a, x, j) && s.clocks[a][x].due == s.now
    ensures MayLose(c, s, a, x, BeaconLost(c, s, a, x, j))
    ensures CanDo(c, s, a, Beacon(x), BeaconLost(c, s, a, x, j))
    ensures var m := Acts(c, s, a, Beacon(x), BeaconLost(c, s, a, x, j)); InStep(c, m, k, k, 2) && NetLate(c, m, k)
  {
    hide Acts, At, ValidConfig, WindowTime, Late;
    var lost := BeaconLost(c, s, a, x, j);
    assert Stage(c, s, a, 2);
    BeaconCan(c, s, a, x, lost);
    BeaconStage(c, s, a, x, j);
    BeaconLate(c, s, a, x, j, k);
    var m := Acts(c, s, a, Beacon(x), lost);
    BeaconNodes(c, s, a, x, lost);
    BystandersStay(c, s, m, k);
    forall b | b in k ensures Stage(c, m, b, 2) {
      assert Stage(c, s, b, 2);
      if b != a {
        OthersUntouched(c, s, a, Beacon(x), lost, b);
        UntouchedStage(c, s, m, b, 2);
      }
    }
  }

  lemma BeaconCan(c: Config, s: State, a: Id, x: Name, lost: set<(Id, Name)>)
    requires ValidConfig(c) && Shape(c, s) && a in s.alive && Has(c, a, x) && MayLose(c, s, a, x, lost)
    ensures CanDo(c, s, a, Beacon(x), lost)
  {
  }

  lemma BeaconNodes(c: Config, s: State, a: Id, x: Name, lost: set<(Id, Name)>)
    requires ValidConfig(c) && Shape(c, s) && CanDo(c, s, a, Beacon(x), lost)
    ensures Acts(c, s, a, Beacon(x), lost).nodes == s.nodes && Acts(c, s, a, Beacon(x), lost).alive == s.alive
  {
    hide Acts, CanAct;
    ActsNodes(c, s, a, Beacon(x), lost);
  }

  lemma BeaconStage(c: Config, s: State, a: Id, x: Name, j: nat)
    requires ValidConfig(c) && Shape(c, s) && Stage(c, s, a, 2) && Has(c, a, x)
    requires SentTimes(c, s, a, x, j) && s.clocks[a][x].due == s.now
          && CanDo(c, s, a, Beacon(x), BeaconLost(c, s, a, x, j))
    ensures Stage(c, Acts(c, s, a, Beacon(x), BeaconLost(c, s, a, x, j)), a, 2)
  {
    hide Acts, ValidConfig, WindowTime, Busy, Lag, SentTimes, CanDo;
    var m := Acts(c, s, a, Beacon(x), BeaconLost(c, s, a, x, j));
    BeaconNodes(c, s, a, x, BeaconLost(c, s, a, x, j));
    forall y | Has(c, a, y) ensures exists i: nat :: SentTimes(c, m, a, y, i) {
      if y == x {
        BeaconSent(c, s, a, x, j, x, j);
        assert SentTimes(c, m, a, x, j + 1);
      } else {
        var i: nat :| SentTimes(c, s, a, y, i);
        BeaconSent(c, s, a, x, j, y, i);
        assert SentTimes(c, m, a, y, i);
      }
    }
  }

  /** A beacon of x counts for x alone. */
  lemma BeaconSent(c: Config, s: State, a: Id, x: Name, j: nat, y: Name, i: nat)
    requires ValidConfig(c) && Shape(c, s) && Has(c, a, x) && Has(c, a, y) && SentTimes(c, s, a, x, j)
          && SentTimes(c, s, a, y, i)
    requires s.clocks[a][x].due == s.now && CanDo(c, s, a, Beacon(x), BeaconLost(c, s, a, x, j)) && (y == x ==> i == j)
    ensures SentTimes(c, Acts(c, s, a, Beacon(x), BeaconLost(c, s, a, x, j)), a, y, if y == x then j + 1 else i)
  {
    hide Acts, ValidConfig, WindowTime, Lag, CanDo;
    BeaconCounts(c, s, a, x, BeaconLost(c, s, a, x, j), y);
    LagNext(c, j);
  }

  lemma BeaconCounts(c: Config, s: State, a: Id, x: Name, lost: set<(Id, Name)>, y: Name)
    requires ValidConfig(c) && Shape(c, s) && Has(c, a, x) && Has(c, a, y) && CanDo(c, s, a, Beacon(x), lost)
    ensures var m := Acts(c, s, a, Beacon(x), lost);
            && m.clocks[a][y].due == (if y == x then s.now + c.tm.beacon else s.clocks[a][y].due)
            && forall q :: q in c.specs ==>
                 Missed(m, a, q, y) == if y != x then Missed(s, a, q, y) else if (q, x) in lost
                     then Missed(s, a, q, x) + 1 else 0
  {
    hide Acts, CanAct, Missed, ValidSpec;
    ActsClocks(c, s, a, Beacon(x), lost);
    ActsMissed(c, s, a, Beacon(x), lost);
  }

  lemma LagNext(c: Config, j: nat)
    ensures Lag(c, j + 1) == Lag(c, j) + c.tm.beacon
  {
  }

  lemma BeaconLate(c: Config, s: State, a: Id, x: Name, j: nat, k: set<Id>)
    requires ValidConfig(c) && Shape(c, s) && NetLate(c, s, k) && Stage(c, s, a, 2) && Has(c, a, x)
    requires SentTimes(c, s, a, x, j) && s.clocks[a][x].due == s.now
          && CanDo(c, s, a, Beacon(x), BeaconLost(c, s, a, x, j))
    ensures NetLate(c, Acts(c, s, a, Beacon(x), BeaconLost(c, s, a, x, j)), k)
  {
    hide Acts, ValidConfig, WindowTime, Busy, Lag, CanDo, Late;
    BurstPositive(c);
    BeaconNet(c, s, a, x, BeaconLost(c, s, a, x, j));
    BeaconOut(c, a, s.nodes[a], x, j, s, k);
  }

  lemma BeaconNet(c: Config, s: State, a: Id, x: Name, lost: set<(Id, Name)>)
    requires ValidConfig(c) && Shape(c, s) && Has(c, a, x) && CanDo(c, s, a, Beacon(x), lost)
    ensures Acts(c, s, a, Beacon(x), lost).net == s.net + Broadcast(c, a, s.nodes[a], {x}, lost, s.now)
  {
    hide Acts, CanAct, Broadcast, ValidSpec;
    ActsNet(c, s, a, Beacon(x), lost);
  }

  lemma BeaconOut(c: Config, a: Id, n: Node, x: Name, j: nat, s: State, k: set<Id>)
    requires c.burst >= 1 && Has(c, a, x) && n.res.Keys == c.specs[a].count.Keys && n.res[x].state.Acquiring?
    requires s.now == WindowTime(c.tm) + Lag(c, j)
    ensures forall pkt :: pkt in Broadcast(c, a, n, {x}, BeaconLost(c, s, a, x, j), s.now) ==> Late(c, pkt, k)
  {
    hide WindowTime, Lag, Everything;
    AllLost(c, a, n, {x}, s.now);
    if j + 1 >= c.burst {
      LagMonotone(c, c.burst - 1, j);
    }
  }

  lemma LagMonotone(c: Config, i: nat, j: nat)
    requires i <= j
    ensures Lag(c, i) <= Lag(c, j)
  {
    BeaconsMonotone(c.tm.beacon, i, j);
  }

  /** When the condition fails, a claim on its way to a contender is not urgent before two windows are over. */
  lemma NotUrgentYet(c: Config, s: State, k: set<Id>, pkt: Packet)
    requires c.burst >= 1 && !Timely(c) && Late(c, pkt, k) && pkt in Overdue(c, s) && s.now < 2 * WindowTime(c.tm)
    ensures pkt.dst in k ==> !pkt.state.Acquiring?
  {
  }

  /** Whose beacon is owed is a contender in its window, and its time has just come. */
  lemma OwedNow(c: Config, s: State, k: set<Id>, n: nat, a: Id, x: Name)
    requires ValidConfig(c) && Shape(c, s) && 1 <= n <= 2 && InStep(c, s, k, k, n) && (a, x) in Owed(c, s)
          && Reachable(c, s)
    ensures n == 2 && a in k && Has(c, a, x) && s.clocks[a][x].due == s.now && exists j: nat :: SentTimes(c, s, a, x, j)
  {
    hide Reachable, WindowTime, SentTimes, Busy;
    assert a in c.specs && (a in k ==> Stage(c, s, a, n)) && (a !in k ==> At(c, s, a, Resting, Idle));
    DueNow(c, s, a, x);
  }

  lemma DueNow(c: Config, s: State, a: Id, x: Name)
    requires ValidConfig(c) && Shape(c, s) && Reachable(c, s) && (a, x) in Owed(c, s)
    ensures s.clocks[a][x].due == s.now
  {
    hide Reachable, Local, PacketOk, MissedOk, ClockOk;
    ReachableBasics(c, s);
    assert DueOk(c, s, a, x);
  }

  /** Until two windows are over, whatever is urgent can be done with all contenders as they are. */
  lemma {:induction false} Calm(c: Config, s: State, k: set<Id>, n: nat) returns (s': State)
    requires ValidConfig(c) && !Timely(c) && Reachable(c, s) && Shape(c, s) && 1 <= n <= 2
    requires InStep(c, s, k, k, n) && NetLate(c, s, k) && s.now < 2 * WindowTime(c.tm)
    ensures Reachable(c, s') && Shape(c, s') && s'.now == s.now && CanTick(c, s')
    ensures InStep(c, s', k, k, n) && NetLate(c, s', k)
    decreases |Overdue(c, s)|, |Owed(c, s)|
  {
    hide Reachable, Shape, ValidConfig, Apply, Enabled, InStep, Late, WindowTime, SentTimes, Leads, CanTick;
    if Overdue(c, s) != {} {
      var pkt :| pkt in Overdue(c, s);
      var m := CalmDelivery(c, s, k, n, pkt);
      s' := Calm(c, m, k, n);
    } else if Owed(c, s) != {} {
      var o :| o in Owed(c, s);
      var m := CalmBeacon(c, s, k, n, o.0, o.1);
      s' := Calm(c, m, k, n);
    } else {
      NothingUrgent(c, s);
      s' := s;
    }
  }

  lemma CalmDelivery(c: Config, s: State, k: set<Id>, n: nat, pkt: Packet) returns (m: State)
    requires ValidConfig(c) && !Timely(c) && Reachable(c, s) && Shape(c, s) && 1 <= n <= 2
    requires InStep(c, s, k, k, n) && NetLate(c, s, k) && s.now < 2 * WindowTime(c.tm) && pkt in Overdue(c, s)
    ensures Reachable(c, m) && Shape(c, m) && m.now == s.now && InStep(c, m, k, k, n) && NetLate(c, m, k)
    ensures Overdue(c, m) == Overdue(c, s) - {pkt}
  {
    hide Reachable, Shape, ValidConfig, Receive, Enabled, InStep, Late, WindowTime;
    BurstPositive(c);
    m := Receive(c, s, pkt, false);
    DeliverOverdue(c, s, pkt);
    assert Late(c, pkt, k);
    NotUrgentYet(c, s, k, pkt);
    HarmlessDelivery(c, s, pkt, k, n);
    ReachableNext(c, s, Deliver(pkt, false));
  }

  lemma CalmBeacon(c: Config, s: State, k: set<Id>, n: nat, a: Id, x: Name) returns (m: State)
    requires ValidConfig(c) && Reachable(c, s) && Shape(c, s) && 1 <= n <= 2
    requires InStep(c, s, k, k, n) && NetLate(c, s, k) && (a, x) in Owed(c, s)
    ensures Reachable(c, m) && Shape(c, m) && m.now == s.now && InStep(c, m, k, k, n) && NetLate(c, m, k)
    ensures Overdue(c, m) == Overdue(c, s) && Owed(c, m) == Owed(c, s) - {(a, x)}
  {
    hide Reachable, Shape, ValidConfig, Acts, InStep, NetLate, SentTimes, Overdue, Owed, MayLose, CanDo;
    OwedNow(c, s, k, n, a, x);
    var j: nat :| SentTimes(c, s, a, x, j);
    NextBeacon(c, s, a, x, j, k);
    var lost := BeaconLost(c, s, a, x, j);
    m := Acts(c, s, a, Beacon(x), lost);
    SendOwed(c, s, a, x, lost);
    ReachableNext(c, s, Do(a, Beacon(x), lost));
  }

  lemma {:induction false} AllWait(c: Config, s: State, k: set<Id>, n: nat, t: int) returns (s': State)
    requires ValidConfig(c) && !Timely(c) && Reachable(c, s) && Shape(c, s) && 1 <= n <= 2
    requires InStep(c, s, k, k, n) && NetLate(c, s, k) && s.now <= t <= 2 * WindowTime(c.tm)
    ensures Reachable(c, s') && Shape(c, s') && s'.now == t && InStep(c, s', k, k, n) && NetLate(c, s', k)
    decreases t - s.now
  {
    hide Reachable, Shape, ValidConfig, CanTick, InStep, NetLate, WindowTime, Timely;
    if s.now == t {
      s' := s;
    } else {
      BurstPositive(c);
      var m := Calm(c, s, k, n);
      ReachableNext(c, m, Tick);
      LaterInStep(c, m, k, n);
      s' := AllWait(c, m.(now := m.now + 1), k, n, t);
    }
  }

  lemma LaterInStep(c: Config, s: State, k: set<Id>, n: nat)
    requires c.burst >= 1 && Shape(c, s) && InStep(c, s, k, k, n) && NetLate(c, s, k)
    ensures var s' := s.(now := s.now + 1); Shape(c, s') && InStep(c, s', k, k, n) && NetLate(c, s', k)
  {
    hide Late, Stage;
    var s' := s.(now := s.now + 1);
    BystandersStay(c, s, s', k);
    forall a | a in k ensures Stage(c, s', a, n) {
      UntouchedStage(c, s, s', a, n);
    }
  }

  // ---- all of them commit ----

  /** Process a holds everything it declares. */
  ghost predicate HasAll(c: Config, s: State, a: Id)
    requires Shape(c, s)
  {
    a in c.specs && a in s.alive && PartlyHeld(c.specs[a], s.nodes[a], 0, WindowTime(c.tm), |c.specs[a].order|)
  }

  /** The contenders in `todo` are at their checks, the others hold everything. */
  ghost predicate Committing(c: Config, s: State, k: set<Id>, todo: set<Id>)
    requires Shape(c, s)
  {
    forall a :: a in k ==> if a in todo then Stage(c, s, a, 3) else HasAll(c, s, a)
  }

  lemma {:induction false} OneCommits(c: Config, s: State, a: Id, i: nat) returns (s': State)
    requires ValidConfig(c) && Reachable(c, s) && Shape(c, s) && a in c.specs && a in s.alive && i <= |c.specs[a].order|
    requires PartlyHeld(c.specs[a], s.nodes[a], 0, WindowTime(c.tm), i)
    ensures Reachable(c, s') && Shape(c, s') && HasAll(c, s', a) && forall b :: b != a ==> Untouched(c, s, s', b)
    decreases |c.specs[a].order| - i
  {
    hide Reachable, Shape, ValidConfig, Acts, PartlyHeld, WindowTime, CanDo, Untouched;
    if i == |c.specs[a].order| {
      s' := s;
      ItselfUntouched(c, s);
    } else {
      var m := CommitsNext(c, s, a, i);
      s' := OneCommits(c, m, a, i + 1);
      forall b | b != a ensures Untouched(c, s, s', b) {
        UntouchedTwice(c, s, m, s', b);
      }
    }
  }

  lemma ItselfUntouched(c: Config, s: State)
    requires Shape(c, s)
    ensures forall b :: Untouched(c, s, s, b)
  {
  }

  lemma UntouchedTwice(c: Config, s: State, m: State, s': State, b: Id)
    requires Shape(c, s) && Shape(c, m) && Shape(c, s') && Untouched(c, s, m, b) && Untouched(c, m, s', b)
    ensures Untouched(c, s, s', b)
  {
  }

  lemma CommitsNext(c: Config, s: State, a: Id, i: nat) returns (m: State)
    requires ValidConfig(c) && Reachable(c, s) && Shape(c, s) && a in c.specs && a in s.alive && i < |c.specs[a].order|
    requires PartlyHeld(c.specs[a], s.nodes[a], 0, WindowTime(c.tm), i)
    ensures Reachable(c, m) && Shape(c, m) && a in m.alive && (forall b :: b != a ==> Untouched(c, s, m, b))
    ensures PartlyHeld(c.specs[a], m.nodes[a], 0, WindowTime(c.tm), i + 1)
  {
    hide Reachable, ValidConfig, Acts, PartlyHeld, WindowTime, CanAct, Perform, Announced, Untouched;
    NodeFits(c, s, a);
    CheckCommits(c.specs[a], c.tm, s.nodes[a], s.now, 0, WindowTime(c.tm), i);
    m := Acts(c, s, a, Check, {});
    ActsNodes(c, s, a, Check, {});
    ReachableNext(c, s, Do(a, Check, {}));
    forall b | b != a ensures Untouched(c, s, m, b) {
      OthersUntouched(c, s, a, Check, {}, b);
    }
  }

  lemma ChecksBegin(c: Config, s: State, a: Id)
    requires ValidConfig(c) && Shape(c, s) && a in c.specs && |c.specs[a].order| > 0 && Stage(c, s, a, 3)
    ensures a in s.alive && PartlyHeld(c.specs[a], s.nodes[a], 0, WindowTime(c.tm), 0)
  {
    hide WindowTime, Busy, ValidConfig;
  }

  lemma {:induction false} AllCommit(c: Config, s: State, k: set<Id>, todo: set<Id>) returns (s': State)
    requires ValidConfig(c) && Reachable(c, s) && Shape(c, s) && todo <= k && Committing(c, s, k, todo)
    requires forall a :: a in k ==> a in c.specs && |c.specs[a].order| > 0
    ensures Reachable(c, s') && Shape(c, s') && Committing(c, s', k, {})
    decreases |todo|
  {
    hide Reachable, Shape, ValidConfig, Stage, HasAll, PartlyHeld, Untouched, WindowTime;
    if todo == {} {
      s' := s;
    } else {
      var a :| a in todo;
      ChecksBegin(c, s, a);
      var m := OneCommits(c, s, a, 0);
      forall b | b in k ensures if b in todo - {a} then Stage(c, m, b, 3) else HasAll(c, m, b) {
        if b != a {
          if b in todo {
            UntouchedStage(c, s, m, b, 3);
          } else {
            UntouchedAll(c, s, m, b);
          }
        }
      }
      s' := AllCommit(c, m, k, todo - {a});
    }
  }

  lemma UntouchedAll(c: Config, s: State, s': State, b: Id)
    requires Shape(c, s) && Shape(c, s') && Untouched(c, s, s', b) && HasAll(c, s, b)
    ensures HasAll(c, s', b)
  {
    hide PartlyHeld;
  }

  // ---- the whole contest ----

  lemma StartInStep(c: Config, k: set<Id>)
    requires ValidConfig(c) && k <= c.specs.Keys
    ensures InStep(c, Init(c), k, k, 0) && NetLate(c, Init(c), k) && Moment(c, Init(c).now, 0)
  {
    hide Init, At, NeverLost, ValidConfig, Late;
    BurstPositive(c);
    StartState(c);
    forall a | a in c.specs ensures At(c, Init(c), a, Resting, Idle) && NeverLost(Init(c), a) {
      StartAt(c, a);
    }
  }

  lemma StartState(c: Config)
    ensures Init(c).net == {} && Init(c).now == 0 && Init(c).alive == c.specs.Keys
  {
  }

  lemma StartAt(c: Config, a: Id)
    requires a in c.specs
    ensures At(c, Init(c), a, Resting, Idle) && NeverLost(Init(c), a)
  {
  }

  lemma StartReachable(c: Config)
    requires ValidConfig(c)
    ensures Reachable(c, Init(c))
  {
    hide Next, Init;
    assert IsRun(c, [Init(c)]) && [Init(c)][|[Init(c)]| - 1] == Init(c);
  }

  /** From one stage to the next: the contenders not yet moved are all of them again. */
  lemma NextStage(c: Config, s: State, k: set<Id>, n: nat)
    requires Shape(c, s) && InStep(c, s, k, {}, n)
    ensures InStep(c, s, k, k, n + 1)
  {
    hide Stage;
  }

  lemma StageThree(c: Config, s: State, k: set<Id>)
    requires Shape(c, s) && InStep(c, s, k, k, 3)
    ensures Committing(c, s, k, k)
  {
    hide Stage;
  }

  lemma NamesDeclared(c: Config, k: set<Id>, r: Name)
    requires ValidConfig(c) && forall a :: a in k ==> Has(c, a, r)
    ensures forall a :: a in k ==> a in c.specs && |c.specs[a].order| > 0
  {
    forall a | a in k ensures |c.specs[a].order| > 0 {
      assert ValidSpec(c.specs[a]) && r in c.specs[a].order;
    }
  }

  /** When the timing condition fails, all contenders for a resource, however many, can come to hold
      it, and everything else they declare. */
  lemma AllGetIt(c: Config, k: set<Id>, r: Name) returns (s: State)
    requires ValidConfig(c) && !Timely(c) && forall a :: a in k ==> Has(c, a, r)
    ensures Reachable(c, s) && Shape(c, s) && forall a :: a in k ==> HasAll(c, s, a)
  {
    hide Reachable, Shape, ValidConfig, Stage, HasAll, NetLate, Timely, InStep, Init, WindowTime;
    var w := WindowTime(c.tm);
    NamesDeclared(c, k, r);
    StartInStep(c, k);
    StartReachable(c);
    s := AllMove(c, Init(c), k, k, 0);
    NextStage(c, s, k, 0);
    s := AllWait(c, s, k, 1, w);
    s := AllMove(c, s, k, k, 1);
    NextStage(c, s, k, 1);
    s := AllWait(c, s, k, 2, 2 * w);
    s := AllMove(c, s, k, k, 2);
    NextStage(c, s, k, 2);
    StageThree(c, s, k);
    s := AllCommit(c, s, k, k);
  }

  lemma HoldersAreMany(c: Config, s: State, r: Name, count: nat)
    requires ValidConfig(c) && Shape(c, s) && forall a :: a in Contenders(c, r, count) ==> HasAll(c, s, a)
    ensures Contenders(c, r, count) <= Holders(c, s, r, count)
  {
    forall a | a in Contenders(c, r, count) ensures a in Holders(c, s, r, count) {
      assert HasAll(c, s, a) && ValidSpec(c.specs[a]) && r in c.specs[a].order;
    }
  }

  ghost predicate AtMost(c: Config, s: State, r: Name, count: nat) {
    Shape(c, s) && |Holders(c, s, r, count)| <= count
  }

  lemma TimelyProduct(c: Config)
    requires c.burst >= 1
    ensures Timely(c) <==> (c.burst - 1) * c.tm.beacon + c.delay < c.tm.sense * c.tm.beacon
  {
    BeaconsProduct(c.tm.beacon, c.burst - 1);
    BeaconsProduct(c.tm.beacon, c.tm.sense);
  }

  /** In every system, for every resource and count: mutual exclusion holds in every run if and only
      if there are no more processes that declare it than the count allows, or the last of a burst of
      packets arrives before a collision window is over. */
  lemma ExclusionIffTimely(c: Config, r: Name, count: nat)
    requires ValidConfig(c)
    ensures (forall s :: Reachable(c, s) ==> AtMost(c, s, r, count))
            <==> |Contenders(c, r, count)| <= count || (c.burst - 1) * c.tm.beacon + c.delay < c.tm.sense * c.tm.beacon
  {
    hide Reachable, Holders, Timely, HasAll, Contenders;
    TimelyProduct(c);
    if Timely(c) {
      forall s | Reachable(c, s) ensures AtMost(c, s, r, count) {
        CountingExclusion(c, s, r, count);
      }
    } else if |Contenders(c, r, count)| <= count {
      forall s | Reachable(c, s) ensures AtMost(c, s, r, count) {
        FewContenders(c, s, r, count);
      }
    } else {
      ContendersDeclare(c, r, count);
      var s := AllGetIt(c, Contenders(c, r, count), r);
      HoldersAreMany(c, s, r, count);
      SubsetSize(Contenders(c, r, count), Holders(c, s, r, count));
      assert !AtMost(c, s, r, count);
    }
  }

  /** With the times of the source, 50 ms between beacons and windows of 3 beacons: without loss the lock
      excludes exactly if every packet arrives within less than 150 ms; if up to two packets in a row may
      be lost, exactly if every packet that arrives does so within less than 50 ms. */
  lemma SourceTimes(c: Config, r: Name, count: nat)
    requires ValidConfig(c) && c.tm == Timing(3, 50, 6) && |Contenders(c, r, count)| > count
    ensures c.burst == 1 ==> ((forall s :: Reachable(c, s) ==> AtMost(c, s, r, count)) <==> c.delay < 150)
    ensures c.burst == 3 ==> ((forall s :: Reachable(c, s) ==> AtMost(c, s, r, count)) <==> c.delay < 50)
  {
    hide Reachable, Contenders, AtMost, ValidConfig;
    ExclusionIffTimely(c, r, count);
  }

  lemma FewContenders(c: Config, s: State, r: Name, count: nat)
    requires ValidConfig(c) && Reachable(c, s) && |Contenders(c, r, count)| <= count
    ensures AtMost(c, s, r, count)
  {
    hide Reachable, Basics, ValidConfig;
    ReachableBasics(c, s);
    SubsetSize(Holders(c, s, r, count), Contenders(c, r, count));
  }

  lemma ContendersDeclare(c: Config, r: Name, count: nat)
    ensures forall a :: a in Contenders(c, r, count) ==> Has(c, a, r)
  {
  }
}
