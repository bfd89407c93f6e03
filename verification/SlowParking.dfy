/** Beacon threads that park too slowly: however fast and reliable the network is, processes that
    come one after the other, each with its thread asleep on a lost wakeup, all get the resource. */
module SlowParking {
  import opened Protocol
  import opened Network
  import opened Invariants
  import opened Progress
  import opened Tightness
  import opened Threaded
  import opened JointRuns

  // ---- parts ----

  /** Where a process stands, the state of all its resources, and where all their threads stand. */
  datatype Part = Part(ph: Phase, st: LockState, th: B.Thread)

  /** Process p plays that part, and has heard of no holder. */
  ghost predicate Plays(c: Config, j: Joint, p: Id, part: Part)
    requires JointShape(c, j)
  {
    && p in c.specs && p in j.s.alive && j.s.nodes[p].phase == part.ph
    && (forall x :: x in j.s.nodes[p].res ==>
         j.s.nodes[p].res[x].state == part.st && Busy(j.s.nodes[p].res[x].members) == {})
    && (forall x :: Has(c, p, x) ==> j.threads[(p, x)] == part.th)
  }

  type Cast = map<Id, Part>

  ghost predicate Scene(c: Config, j: Joint, cast: Cast)
    requires JointShape(c, j)
  {
    cast.Keys == c.specs.Keys && forall p :: p in cast ==> Plays(c, j, p, cast[p])
  }

  /** Only a's packets are on their way, sent at time t, and they announce no hold. */
  ghost predicate OnlyFrom(net: set<Packet>, a: Id, t: int) {
    forall pkt :: pkt in net ==> pkt.src == a && pkt.dst != a && !pkt.state.Acquired? && pkt.sentAt == t
  }

  // ---- the threads of one process ----

  /** The event e takes a thread from th to th'. */
  predicate Turns(e: B.Event, st: LockState, now: int, th: B.Thread, th': B.Thread) {
    match e
    case Start => th.Unborn? && th'.Ready?
    case Test => th.Ready? && st.Idle? && th' == B.Parking(now)
    case Park => th.Parking? && th'.Parked?
    case _ => false
  }

  /** As `Plays`, but the threads of the resources in todo are still to turn. */
  ghost predicate HalfTurned(c: Config, j: Joint, p: Id, part: Part, todo: set<Name>, th': B.Thread)
    requires JointShape(c, j)
  {
    && p in c.specs && p in j.s.alive && j.s.nodes[p].phase == part.ph
    && (forall x :: x in j.s.nodes[p].res ==>
         j.s.nodes[p].res[x].state == part.st && Busy(j.s.nodes[p].res[x].members) == {})
    && (forall x :: Has(c, p, x) ==> j.threads[(p, x)] == if x in todo then part.th else th')
  }

  lemma ThreadTurns(z: B.Timed, x: B.Sys, e: B.Event, th': B.Thread)
    requires Turns(e, x.state, x.now, x.thread, th')
    ensures B.Can(z, x, e) && B.Do(z, x, e).thread == th' && (e.Test? ==> !Announces(x))
    ensures e.Start? || e.Test? || e.Park?
  {
  }

  lemma TurnOne(c: Config, z: B.Timed, j: Joint, a: Id, part: Part, e: B.Event, th': B.Thread, todo: set<Name>, x: Name)
    returns (m: Joint)
    requires ValidConfig(c) && JointReachable(c, z, j) && HalfTurned(c, j, a, part, todo, th')
    requires x in todo && Has(c, a, x) && Turns(e, part.st, j.s.now, part.th, th')
    ensures JointReachable(c, z, m) && m.s == j.s && HalfTurned(c, m, a, part, todo - {x}, th')
    ensures forall q: Id, y: Name :: Has(c, q, y) && q != a ==> m.threads[(q, y)] == j.threads[(q, y)]
  {
    hide Turns, B.Can, B.Do, Shape, Busy, ValidConfig, JointDo, JointCan, JointReachable;
    ReachableShape(c, z, j);
    StateOf(c, j, a, part, todo, th', x);
    ThreadTurns(z, SeenIn(c, j, a, x), e, th');
    AfterInner(c, z, j, a, x, e);
    m := Onward(c, z, j, Inner(a, x, e));
  }

  lemma StateOf(c: Config, j: Joint, a: Id, part: Part, todo: set<Name>, th': B.Thread, x: Name)
    requires JointShape(c, j) && HalfTurned(c, j, a, part, todo, th') && x in todo && Has(c, a, x)
    ensures SeenIn(c, j, a, x).state == part.st && SeenIn(c, j, a, x).thread == part.th
  {
  }

  lemma {:induction false} TurnAll(c: Config, z: B.Timed, j: Joint, a: Id, part: Part, e: B.Event, th': B.Thread,
        todo: set<Name>)
    returns (j': Joint)
    requires ValidConfig(c) && JointReachable(c, z, j) && HalfTurned(c, j, a, part, todo, th')
    requires todo <= c.specs[a].count.Keys && Turns(e, part.st, j.s.now, part.th, th')
    ensures JointReachable(c, z, j') && j'.s == j.s && Plays(c, j', a, part.(th := th'))
    ensures forall q: Id, x: Name :: Has(c, q, x) && q != a ==> j'.threads[(q, x)] == j.threads[(q, x)]
    decreases |todo|
  {
    hide Turns, Busy, ValidConfig, JointReachable;
    ReachableShape(c, z, j);
    if todo == {} {
      j' := j;
    } else {
      var x :| x in todo;
      assert Has(c, a, x);
      var m := TurnOne(c, z, j, a, part, e, th', todo, x);
      j' := TurnAll(c, z, m, a, part, e, th', todo - {x});
    }
  }

  /** All threads of a take the event e. */
  lemma ThreadsTurn(c: Config, z: B.Timed, j: Joint, cast: Cast, a: Id, e: B.Event, th': B.Thread)
    returns (j': Joint)
    requires ValidConfig(c) && JointReachable(c, z, j) && Scene(c, j, cast) && a in cast
    requires Turns(e, cast[a].st, j.s.now, cast[a].th, th')
    ensures JointReachable(c, z, j') && j'.s == j.s && Scene(c, j', cast[a := cast[a].(th := th')])
  {
    hide Turns, Shape, Busy, ValidConfig, JointReachable;
    ReachableShape(c, z, j);
    assert Plays(c, j, a, cast[a]);
    j' := TurnAll(c, z, j, a, cast[a], e, th', c.specs[a].count.Keys);
    ReachableShape(c, z, j');
    forall p | p in cast && p != a ensures Plays(c, j', p, cast[p]) {
      assert Plays(c, j, p, cast[p]);
    }
  }

  // ---- the steps of one process ----

  /** A thread after its resource was set to a claim or to STARTING. */
  function Woken(z: B.Timed, now: int, th: B.Thread): B.Thread {
    if th.Parked? then B.Sleeping(now + z.tm.beacon) else th
  }

  lemma Leap(c: Config, z: B.Timed, j: Joint, cast: Cast, a: Id, act: Act, ph': Phase, st': LockState)
    returns (j': Joint)
    requires ValidConfig(c) && JointReachable(c, z, j) && Scene(c, j, cast) && a in cast
    requires |c.specs[a].order| > 0 && !cast[a].th.Unborn? && j.s.net == {}
    requires Leaps(c.tm, j.s.now, act, cast[a].ph, cast[a].st, ph', st') && !st'.Released? && !st'.Acquired?
    ensures JointReachable(c, z, j') && j'.s.now == j.s.now && OnlyFrom(j'.s.net, a, j.s.now)
    ensures act.Expire? ==> j'.s.net == {}
    ensures Scene(c, j',
                  cast[a := Part(ph', st', if act.Expire? then cast[a].th else Woken(z, j.s.now, cast[a].th))])
  {
    hide Leaps, ValidConfig, Acts, JointDo, JointCan, WindowTime, JointReachable, Leaped, Leapable, Shape, Busy;
    ReachableShape(c, z, j);
    CanLeap(c, z, j, cast[a], a, act, ph', st');
    LeapFacts(c, z, j, a, act, ph', st');
    LeapSends(c, j.s, a, act, ph', st');
    j' := Onward(c, z, j, Move(Do(a, act, {})));
    ReachableShape(c, z, j');
    Leapt(c, z, j, j', cast, a, act, ph', st');
  }

  lemma LeapFacts(c: Config, z: B.Timed, j: Joint, a: Id, act: Act, ph': Phase, st': LockState)
    requires ValidConfig(c) && JointShape(c, j) && CanDo(c, j.s, a, act, {}) && !act.Beacon?
    requires JointCan(c, z, j, Move(Do(a, act, {}))) && Leapable(c, j.s, a, act, ph', st')
    ensures var j' := JointDo(c, z, j, Move(Do(a, act, {})));
            j'.s == Acts(c, j.s, a, act, {}) && j'.s.now == j.s.now && Leaped(c, z, j, j', a, act, ph', st')
  {
    hide ValidConfig, Acts, Perform, Announced, CanAct, CanDo, JointDo, JointCan, ThreadLeaped;
    var j' := JointDo(c, z, j, Move(Do(a, act, {})));
    ActsNodes(c, j.s, a, act, {});
    JointStateAfter(c, z, j, Do(a, act, {}));
    forall p: Id, x: Name | Has(c, p, x) ensures ThreadLeaped(c, z, j, j', a, act, st', p, x) {
      ThreadLeaps(c, z, j, a, act, ph', st', p, x);
    }
  }

  lemma ThreadLeaps(c: Config, z: B.Timed, j: Joint, a: Id, act: Act, ph': Phase, st': LockState, p: Id, x: Name)
    requires ValidConfig(c) && JointShape(c, j) && CanDo(c, j.s, a, act, {}) && !act.Beacon? && Has(c, p, x)
    requires JointCan(c, z, j, Move(Do(a, act, {}))) && Leapable(c, j.s, a, act, ph', st')
    ensures ThreadLeaped(c, z, j, JointDo(c, z, j, Move(Do(a, act, {}))), a, act, st', p, x)
  {
    hide ValidConfig, Acts, Perform, Announced, CanAct, JointDo, JointCan, B.Notified;
    Moved(c, z, j, Do(a, act, {}), p, x);
    ActsNodes(c, j.s, a, act, {});
    if p == a {
      assert x in j.s.nodes[a].res;
    }
  }

  ghost predicate ThreadLeaped(c: Config, z: B.Timed, j: Joint, j': Joint, a: Id, act: Act, st': LockState, p: Id,
        x: Name)
    requires JointShape(c, j) && JointShape(c, j') && Has(c, p, x)
  {
    j'.threads[(p, x)] == if p != a || act.Expire? then j.threads[(p, x)]
                          else B.Notified(z, SeenIn(c, j, p, x), st')
  }

  /** Process a is in that phase, its resources in that state; nobody else's part has changed. */
  ghost predicate Leaped(c: Config, z: B.Timed, j: Joint, j': Joint, a: Id, act: Act, ph': Phase, st': LockState)
    requires JointShape(c, j) && JointShape(c, j') && a in c.specs
  {
    var s, s' := j.s, j'.s;
    && s'.alive == s.alive && s'.now == s.now && (forall p :: p in c.specs && p != a ==> s'.nodes[p] == s.nodes[p])
    && s'.nodes[a].phase == ph'
    && (forall r :: r in s.nodes[a].res ==>
         s'.nodes[a].res[r].state == st' && s'.nodes[a].res[r].members == s.nodes[a].res[r].members)
    && forall p: Id, x: Name :: Has(c, p, x) ==> ThreadLeaped(c, z, j, j', a, act, st', p, x)
  }

  lemma CanLeap(c: Config, z: B.Timed, j: Joint, part: Part, a: Id, act: Act, ph': Phase, st': LockState)
    requires ValidConfig(c) && JointShape(c, j) && Plays(c, j, a, part)
    requires |c.specs[a].order| > 0 && !part.th.Unborn? && Leaps(c.tm, j.s.now, act, part.ph, part.st, ph', st')
    ensures CanDo(c, j.s, a, act, {}) && JointCan(c, z, j, Move(Do(a, act, {}))) && Leapable(c, j.s, a, act, ph', st')
    ensures !act.Beacon?
  {
    hide Leaps, Busy, ValidConfig, Perform, Announced, CanAct, JointCan, WindowTime;
    NodeFits(c, j.s, a);
    LeapNow(c, j, part, a, act, ph', st');
    hide Leapable, Shape, CanDo;
    CanMove(c, z, j, a, act, {});
  }

  lemma LeapNow(c: Config, j: Joint, part: Part, a: Id, act: Act, ph': Phase, st': LockState)
    requires ValidConfig(c) && JointShape(c, j) && Plays(c, j, a, part)
    requires |c.specs[a].order| > 0 && Leaps(c.tm, j.s.now, act, part.ph, part.st, ph', st')
    ensures CanDo(c, j.s, a, act, {}) && Leapable(c, j.s, a, act, ph', st') && !act.Beacon?
  {
    hide Leaps, Busy, ValidConfig, Perform, Announced, CanAct, WindowTime;
    NodeFits(c, j.s, a);
    NodeLeaps(c.specs[a], c.tm, j.s.nodes[a], j.s.now, act, part.ph, part.st, ph', st');
  }

  /** What the act does to a's node, and what it announces. */
  ghost predicate Leapable(c: Config, s: State, a: Id, act: Act, ph': Phase, st': LockState)
    requires ValidConfig(c) && Shape(c, s) && CanDo(c, s, a, act, {})
  {
    var n, n' := s.nodes[a], Perform(c.specs[a], c.tm, s.nodes[a], act, s.now);
    && Announced(c.specs[a], c.tm, n, act, s.now) == (if act.Expire? then {} else n.res.Keys)
    && n'.phase == ph' && forall r :: r in n.res ==> n'.res[r].state == st' && n'.res[r].members == n.res[r].members
  }

  lemma LeapSends(c: Config, s: State, a: Id, act: Act, ph': Phase, st': LockState)
    requires ValidConfig(c) && Shape(c, s) && CanDo(c, s, a, act, {}) && s.net == {} && !st'.Acquired?
    requires Leapable(c, s, a, act, ph', st')
    ensures var net := Acts(c, s, a, act, {}).net; OnlyFrom(net, a, s.now) && (act.Expire? ==> net == {})
  {
    hide Acts, ValidConfig, Perform, Announced, CanAct;
    ActsNet(c, s, a, act, {});
    if act.Expire? {
      assert Acts(c, s, a, act, {}).net == {};
    }
  }

  lemma Leapt(c: Config, z: B.Timed, j: Joint, j': Joint, cast: Cast, a: Id, act: Act, ph': Phase, st': LockState)
    requires JointShape(c, j) && JointShape(c, j') && Scene(c, j, cast) && a in cast && !st'.Released?
    requires a in c.specs && a in j.s.alive && Leaped(c, z, j, j', a, act, ph', st')
    ensures Scene(c, j',
                  cast[a := Part(ph', st', if act.Expire? then cast[a].th else Woken(z, j.s.now, cast[a].th))])
  {
    hide Plays, ThreadLeaped;
    LeaperPlays(c, z, j, j', cast[a], a, act, ph', st');
    forall p | p in cast && p != a ensures Plays(c, j', p, cast[p]) {
      OthersPlay(c, z, j, j', a, act, st', p, cast[p]);
    }
  }

  lemma LeaperPlays(c: Config, z: B.Timed, j: Joint, j': Joint, part: Part, a: Id, act: Act, ph': Phase, st': LockState)
    requires JointShape(c, j) && JointShape(c, j') && Plays(c, j, a, part) && !st'.Released? && a in j'.s.alive
    requires j'.s.nodes[a].phase == ph'
    requires forall r :: r in j.s.nodes[a].res ==>
               j'.s.nodes[a].res[r].state == st' && j'.s.nodes[a].res[r].members == j.s.nodes[a].res[r].members
    requires forall x: Name :: Has(c, a, x) ==> ThreadLeaped(c, z, j, j', a, act, st', a, x)
    ensures Plays(c, j', a, Part(ph', st', if act.Expire? then part.th else Woken(z, j.s.now, part.th)))
  {
    hide Busy;
  }

  lemma OthersPlay(c: Config, z: B.Timed, j: Joint, j': Joint, a: Id, act: Act, st': LockState, p: Id, part: Part)
    requires JointShape(c, j) && JointShape(c, j') && Plays(c, j, p, part)
    requires j'.s.alive == j.s.alive && j'.s.nodes[p] == j.s.nodes[p]
    requires p != a && forall x: Name :: Has(c, p, x) ==> ThreadLeaped(c, z, j, j', a, act, st', p, x)
    ensures Plays(c, j', p, part)
  {
    hide Busy, B.Notified;
  }

  // ---- time ----

  /** A phase in which no packet of another process that announces no hold changes anything but tables. */
  predicate Deaf(ph: Phase) {
    ph.Resting? || ph.Checking?
  }

  lemma DeafNode(sp: Spec, tm: Timing, n: Node, pkt: Packet, now: int)
    requires pkt.name in n.res && pkt.name in sp.count && Deaf(n.phase) && !pkt.state.Acquired?
    ensures var n' := OnPacket(sp, tm, n, pkt, now);
            && n'.phase == n.phase && n'.res.Keys == n.res.Keys
            && forall x :: x in n.res ==>
                 n'.res[x].state == n.res[x].state && (Busy(n.res[x].members) == {} ==> Busy(n'.res[x].members) == {})
  {
    hide Busy;
    HeardTable(n.res[pkt.name], sp.count[pkt.name], pkt, now);
  }

  lemma DeafPlays(c: Config, z: B.Timed, j: Joint, j': Joint, p: Id, part: Part, pkt: Packet)
    requires JointShape(c, j) && JointShape(c, j') && Plays(c, j, p, part)
    requires !pkt.state.Acquired? && (pkt.dst == p ==> Deaf(part.ph))
    requires j'.s == Receive(c, j.s, pkt, false)
    requires forall q: Id, x: Name :: Has(c, q, x) ==> j'.threads[(q, x)] == j.threads[(q, x)]
    ensures Plays(c, j', p, part)
  {
    hide OnPacket, Busy, Receive, Deaf;
    ReceivedNode(c, j.s, pkt, p);
    if pkt.dst == p && Has(c, p, pkt.name) && pkt.src != p {
      DeafNode(c.specs[p], c.tm, j.s.nodes[p], pkt, j.s.now);
    }
  }

  /** What a sent before now reaches the others, and leaves everybody in his part. */
  lemma {:induction false} Drain(c: Config, z: B.Timed, j: Joint, cast: Cast, a: Id, t: int) returns (j': Joint)
    requires ValidConfig(c) && JointReachable(c, z, j) && Scene(c, j, cast) && OnlyFrom(j.s.net, a, t) && t < j.s.now
    requires forall p :: p in cast && p != a ==> Deaf(cast[p].ph)
    ensures JointReachable(c, z, j') && Scene(c, j', cast) && j'.s.net == {} && j'.s.now == j.s.now
    decreases |j.s.net|
  {
    hide Receive, Plays, Deaf, ValidConfig, JointDo, JointCan;
    if j.s.net == {} {
      j' := j;
    } else {
      var pkt :| pkt in j.s.net;
      AfterDelivery(c, z, j, pkt);
      var m := Onward(c, z, j, Move(Deliver(pkt, false)));
      Delivered(c, j.s, pkt);
      forall p | p in cast ensures Plays(c, m, p, cast[p]) {
        DeafPlays(c, z, j, m, p, cast[p], pkt);
      }
      j' := Drain(c, z, m, cast, a, t);
    }
  }

  lemma Delivered(c: Config, s: State, pkt: Packet)
    requires Shape(c, s) && pkt in s.net
    ensures Receive(c, s, pkt, false).net == s.net - {pkt} && Receive(c, s, pkt, false).now == s.now
  {
    hide OnPacket;
  }

  /** The thread lets time pass until t. */
  predicate Sits(z: B.Timed, th: B.Thread, t: int) {
    th.Unborn? || th.Parked? || (th.Parking? && t <= th.since + z.parkTime)
  }

  lemma {:induction false} Wait(c: Config, z: B.Timed, j: Joint, cast: Cast, a: Id, t: int) returns (j': Joint)
    requires ValidConfig(c) && JointReachable(c, z, j) && Scene(c, j, cast) && OnlyFrom(j.s.net, a, j.s.now)
    requires forall p :: p in cast ==> Sits(z, cast[p].th, t) && (p != a ==> Deaf(cast[p].ph))
    requires j.s.now < t || (j.s.now == t && j.s.net == {})
    ensures JointReachable(c, z, j') && Scene(c, j', cast) && j'.s.net == {} && j'.s.now == t
    decreases t - j.s.now
  {
    hide Plays, Deaf, ValidConfig, JointDo, JointCan, Shape, Sits;
    if j.s.now == t {
      j' := j;
    } else {
      CanPass(c, z, j, cast, a, t);
      var m := Onward(c, z, j, Pass);
      PassKeeps(c, z, j, cast);
      m := Drain(c, z, m, cast, a, j.s.now);
      j' := Wait(c, z, m, cast, a, t);
    }
  }

  lemma CanPass(c: Config, z: B.Timed, j: Joint, cast: Cast, a: Id, t: int)
    requires ValidConfig(c) && JointShape(c, j) && Scene(c, j, cast) && OnlyFrom(j.s.net, a, j.s.now)
    requires j.s.now < t && forall p :: p in cast ==> Sits(z, cast[p].th, t)
    ensures JointCan(c, z, j, Pass)
  {
    hide Shape, Busy;
    forall p, r | p in j.s.alive && Has(c, p, r) ensures B.Can(z, SeenIn(c, j, p, r), B.Tick) {
      assert Plays(c, j, p, cast[p]);
    }
  }

  lemma PassKeeps(c: Config, z: B.Timed, j: Joint, cast: Cast)
    requires ValidConfig(c) && JointShape(c, j) && Scene(c, j, cast) && JointCan(c, z, j, Pass)
    ensures var j' := JointDo(c, z, j, Pass);
            Scene(c, j', cast) && j'.s.now == j.s.now + 1 && j'.s.net == j.s.net
  {
    hide Busy, JointCan;
    var j' := JointDo(c, z, j, Pass);
    forall p | p in cast ensures Plays(c, j', p, cast[p]) {
      assert Plays(c, j, p, cast[p]);
    }
  }

  // ---- one turn ----

  const ABSENT := Part(Resting, Idle, B.Unborn)

  /** At its check, having announced ACQUIRING, with every thread asleep. */
  predicate Dozing(part: Part) {
    part.ph.Checking? && part.ph.k == 0 && part.st.Acquiring? && part.th.Parked?
  }

  ghost predicate Queue(c: Config, j: Joint, cast: Cast)
    requires JointShape(c, j)
  {
    Scene(c, j, cast) && j.s.net == {} && forall p :: p in cast ==> cast[p] == ABSENT || Dozing(cast[p])
  }

  /** One more process comes, announces its claim, and gets to its check unheard. */
  lemma OneComes(c: Config, z: B.Timed, j: Joint, cast: Cast, a: Id) returns (j': Joint, cast': Cast)
    requires ValidConfig(c) && z.tm == c.tm && z.parkTime >= WindowTime(z.tm)
    requires JointReachable(c, z, j) && Queue(c, j, cast) && a in cast && cast[a] == ABSENT && |c.specs[a].order| > 0
    ensures JointReachable(c, z, j') && Queue(c, j', cast') && cast' == cast[a := cast'[a]] && Dozing(cast'[a])
  {
    hide ValidConfig, JointReachable, Scene, WindowTime, JointShape;
    WindowPositive(c);
    var t0 := j.s.now;
    var t1 := t0 + WindowTime(c.tm);
    var t2 := t1 + WindowTime(c.tm);
    ReachableShape(c, z, j);
    j' := ThreadsTurn(c, z, j, cast, a, B.Start, B.Ready);
    cast' := cast[a := Part(Resting, Idle, B.Ready)];
    j' := ThreadsTurn(c, z, j', cast', a, B.Test, B.Parking(t0));
    cast' := cast'[a := Part(Resting, Idle, B.Parking(t0))];
    j' := Leap(c, z, j', cast', a, Listen, Listening(t0), Starting);
    cast' := cast'[a := Part(Listening(t0), Starting, B.Parking(t0))];
    j' := Wait(c, z, j', cast', a, t1);
    j' := Leap(c, z, j', cast', a, Announce, Window(t0, t1), Acquiring);
    cast' := cast'[a := Part(Window(t0, t1), Acquiring, B.Parking(t0))];
    j' := ThreadsTurn(c, z, j', cast', a, B.Park, B.Parked);
    cast' := cast'[a := Part(Window(t0, t1), Acquiring, B.Parked)];
    j' := Wait(c, z, j', cast', a, t2);
    j' := Leap(c, z, j', cast', a, Expire, Checking(t0, t1, 0), Acquiring);
    cast' := cast'[a := Part(Checking(t0, t1, 0), Acquiring, B.Parked)];
    ReachableShape(c, z, j');
  }

  lemma WindowPositive(c: Config)
    requires ValidConfig(c)
    ensures WindowTime(c.tm) > 0
  {
  }

  // ---- all of them ----

  lemma {:induction false} AllCome(c: Config, z: B.Timed, j: Joint, cast: Cast, todo: set<Id>)
    returns (j': Joint, cast': Cast)
    requires ValidConfig(c) && z.tm == c.tm && z.parkTime >= WindowTime(z.tm)
    requires JointReachable(c, z, j) && Queue(c, j, cast) && todo <= cast.Keys
    requires forall a :: a in todo ==> cast[a] == ABSENT && a in c.specs && |c.specs[a].order| > 0
    ensures JointReachable(c, z, j') && Queue(c, j', cast') && cast'.Keys == cast.Keys
    ensures forall a :: a in cast ==> if a in todo then Dozing(cast'[a]) else cast'[a] == cast[a]
    decreases |todo|
  {
    hide ValidConfig, JointReachable, Queue, WindowTime, JointShape, Dozing;
    ReachableShape(c, z, j);
    if todo == {} {
      j', cast' := j, cast;
    } else {
      var a :| a in todo;
      var m, next := OneComes(c, z, j, cast, a);
      ReachableShape(c, z, m);
      j', cast' := AllCome(c, z, m, next, todo - {a});
    }
  }

  lemma BeginQueue(c: Config)
    requires ValidConfig(c)
    ensures Queue(c, Begin(c), map p | p in c.specs :: ABSENT)
  {
    hide Plays, Init, ValidConfig;
    StartState(c);
    forall p | p in c.specs ensures Plays(c, Begin(c), p, ABSENT) {
      BeginPlays(c, p);
    }
  }

  lemma BeginPlays(c: Config, p: Id)
    requires p in c.specs
    ensures Plays(c, Begin(c), p, ABSENT)
  {
    StartAt(c, p);
    hide Init, Busy;
  }

  lemma DozerCommits(c: Config, j: Joint, a: Id, part: Part)
    requires ValidConfig(c) && JointShape(c, j) && Plays(c, j, a, part) && Dozing(part) && |c.specs[a].order| > 0
    ensures Commits(c, j, a, 0)
  {
    hide Busy;
    assert PartlyHeld(c.specs[a], j.s.nodes[a], part.ph.l, part.ph.t, 0);
  }

  /** With threads that take a whole window to park, all processes that share a resource, however many,
      can come to hold it and everything else they declare, in every system, the timely ones too. */
  lemma SlowAllGetIt(c: Config, z: B.Timed, k: set<Id>, r: Name) returns (j: Joint)
    requires ValidConfig(c) && z.tm == c.tm && z.parkTime >= WindowTime(z.tm) && forall a :: a in k ==> Has(c, a, r)
    ensures JointReachable(c, z, j) && Queued(c, j, k, {})
  {
    hide ValidConfig, JointReachable, JointShape, Begin, WindowTime, Plays, Dozing, Commits;
    NamesDeclared(c, k, r);
    BeginReachable(c, z);
    BeginQueue(c);
    var cast;
    j, cast := AllCome(c, z, Begin(c), map p | p in c.specs :: ABSENT, k);
    ReachableShape(c, z, j);
    forall a | a in k ensures Commits(c, j, a, 0) {
      DozerCommits(c, j, a, cast[a]);
    }
    j := EverybodyCommits(c, z, j, k, k);
  }
}
