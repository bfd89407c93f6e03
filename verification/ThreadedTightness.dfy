/** When exclusion holds in the system with beacon threads: exactly if the network is timely and the
    threads park in time, or nobody has to wait. */
module ThreadedTightness {
  import opened Protocol
  import opened Network
  import opened Invariants
  import opened Exclusion
  import opened Progress
  import opened Tightness
  import opened Threaded
  import opened JointRuns
  import opened SlowParking

  // ---- threads in step with the contest ----

  /** Where the threads of contender a stand at stage n: about to park, parked on a lost wakeup, asleep
      until the next beacon is due, anywhere. */
  ghost predicate Sync(c: Config, j: Joint, a: Id, n: nat)
    requires JointShape(c, j)
  {
    forall x :: Has(c, a, x) ==>
      if n == 0 then j.threads[(a, x)] == B.Parking(0)
      else if n == 1 then j.threads[(a, x)].Parked?
      else if n == 2 then j.threads[(a, x)] == B.Sleeping(j.s.clocks[a][x].due) && j.s.now <= j.s.clocks[a][x].due
      else !j.threads[(a, x)].Unborn?
  }

  /** The contenders in todo are at stage n, the others one further, with their threads; the threads of
      the bystanders are not there yet. */
  ghost predicate JointStep(c: Config, j: Joint, k: set<Id>, todo: set<Id>, n: nat)
    requires JointShape(c, j)
  {
    && InStep(c, j.s, k, todo, n)
    && (forall a :: a in k ==> Sync(c, j, a, if a in todo then n else n + 1))
    && (forall p: Id, x: Name :: Has(c, p, x) && p !in k ==> j.threads[(p, x)].Unborn?)
  }

  /** Nothing of process b's threads changes. */
  lemma SyncKept(c: Config, j: Joint, j': Joint, b: Id, n: nat)
    requires JointShape(c, j) && JointShape(c, j') && Sync(c, j, b, n)
    requires j'.s.now == j.s.now && (b in c.specs ==> j'.s.clocks[b] == j.s.clocks[b])
    requires forall x: Name :: Has(c, b, x) ==> j'.threads[(b, x)] == j.threads[(b, x)]
    ensures Sync(c, j', b, n)
  {
  }

  // ---- one contender's step ----

  /** What a step of stage n announces, and in which state. */
  ghost predicate StageSays(c: Config, s: State, a: Id, n: nat)
    requires ValidConfig(c) && Shape(c, s) && n <= 2 && a in c.specs
    requires CanDo(c, s, a, StageAct(n), StageLost(c, a, n))
  {
    var sp, act, x := c.specs[a], StageAct(n), s.nodes[a];
    && Announced(sp, c.tm, x, act, s.now) == (if n == 2 then {} else x.res.Keys)
    && (n < 2 ==> forall r :: r in x.res ==>
         Perform(sp, c.tm, x, act, s.now).res[r].state == if n == 0 then Starting else Acquiring)
  }

  lemma StageSaysIt(c: Config, s: State, a: Id, n: nat)
    requires ValidConfig(c) && Shape(c, s) && n <= 2 && Stage(c, s, a, n) && Moment(c, s.now, n)
          && |c.specs[a].order| > 0
    requires CanDo(c, s, a, StageAct(n), StageLost(c, a, n))
    ensures StageSays(c, s, a, n)
  {
    hide Perform, Announced, CanAct, ValidConfig, WindowTime, Sending, Busy;
    NodeFits(c, s, a);
    NodeActs(c.specs[a], c.tm, s.nodes[a], s.now, n);
  }

  /** One thread of a after the step of its stage; one that saw IDLE has still to park. */
  lemma ThreadMoves(c: Config, z: B.Timed, j: Joint, a: Id, n: nat, x: Name)
    requires ValidConfig(c) && z.tm == c.tm && JointShape(c, j) && n <= 2 && Has(c, a, x)
    requires CanDo(c, j.s, a, StageAct(n), StageLost(c, a, n)) && StageSays(c, j.s, a, n)
    requires JointCan(c, z, j, Move(Do(a, StageAct(n), StageLost(c, a, n))))
    ensures var j', th := JointDo(c, z, j, Move(Do(a, StageAct(n), StageLost(c, a, n)))), j.threads[(a, x)];
            && (n == 0 && th.Parking? ==> j'.threads[(a, x)] == th)
            && (n == 1 && th.Parked? ==>
                 j'.threads[(a, x)] == B.Sleeping(j.s.now + c.tm.beacon)
                 && j'.s.clocks[a][x].due == j.s.now + c.tm.beacon)
            && (n == 2 ==> j'.threads[(a, x)] == th)
  {
    hide Perform, Announced, CanAct, ValidConfig, JointDo, JointCan, StageLost, CanDo, Acts, ThreadAfter;
    assert x in j.s.nodes[a].res;
    SeenAfter(c, z, j, a, StageAct(n), StageLost(c, a, n), a, x);
  }

  /** The threads of a after the step of its stage; those that saw IDLE have still to park. */
  lemma SyncMoves(c: Config, z: B.Timed, j: Joint, a: Id, n: nat)
    requires ValidConfig(c) && z.tm == c.tm && JointShape(c, j) && a in c.specs && n <= 2
    requires Stage(c, j.s, a, n) && Moment(c, j.s.now, n) && |c.specs[a].order| > 0 && Sync(c, j, a, n)
    requires CanDo(c, j.s, a, StageAct(n), StageLost(c, a, n))
    requires JointCan(c, z, j, Move(Do(a, StageAct(n), StageLost(c, a, n))))
    ensures var j' := JointDo(c, z, j, Move(Do(a, StageAct(n), StageLost(c, a, n))));
            if n == 0 then Sync(c, j', a, 0) else Sync(c, j', a, n + 1)
  {
    hide Acts, ValidConfig, Stage, JointDo, JointCan, CanDo, StageAct, StageLost, StageSays, Moment;
    StageSaysIt(c, j.s, a, n);
    SameMoment(c, z, j, a, n);
    var j' := JointDo(c, z, j, Move(Do(a, StageAct(n), StageLost(c, a, n))));
    forall x | Has(c, a, x)
      ensures var th := j.threads[(a, x)];
              && (n == 0 && th.Parking? ==> j'.threads[(a, x)] == th)
              && (n == 1 && th.Parked? ==>
                   j'.threads[(a, x)] == B.Sleeping(j.s.now + c.tm.beacon)
                   && j'.s.clocks[a][x].due == j.s.now + c.tm.beacon)
              && (n == 2 ==> j'.threads[(a, x)] == th)
    {
      ThreadMoves(c, z, j, a, n, x);
    }
  }

  lemma SameMoment(c: Config, z: B.Timed, j: Joint, a: Id, n: nat)
    requires ValidConfig(c) && JointShape(c, j) && n <= 2 && a in c.specs
    requires CanDo(c, j.s, a, StageAct(n), StageLost(c, a, n))
    requires JointCan(c, z, j, Move(Do(a, StageAct(n), StageLost(c, a, n))))
    ensures JointDo(c, z, j, Move(Do(a, StageAct(n), StageLost(c, a, n)))).s.now == j.s.now
  {
    hide Acts, ValidConfig, JointDo, JointCan, CanDo, StageLost;
    JointStateAfter(c, z, j, Do(a, StageAct(n), StageLost(c, a, n)));
    ActsNodes(c, j.s, a, StageAct(n), StageLost(c, a, n));
  }

  lemma ContenderMoves(c: Config, z: B.Timed, j: Joint, k: set<Id>, todo: set<Id>, n: nat, a: Id) returns (j': Joint)
    requires ValidConfig(c) && z.tm == c.tm && JointReachable(c, z, j) && JointShape(c, j) && n <= 2
    requires todo <= k && a in todo && JointStep(c, j, k, todo, n) && Moment(c, j.s.now, n) && NetLate(c, j.s, k)
    requires a in c.specs && |c.specs[a].order| > 0
    ensures JointReachable(c, z, j') && JointShape(c, j') && j'.s.now == j.s.now && NetLate(c, j'.s, k)
    ensures JointStep(c, j', k, todo - {a}, n)
  {
    hide ValidConfig, JointReachable, JointCan, JointDo, Stage, NetLate, CanDo, Moment, Sync, Acts, Shape, Bystanders;
    ReachableShape(c, z, j);
    var act, lost := StageAct(n), StageLost(c, a, n);
    CanStage(c, j.s, a, n);
    ContenderBorn(c, j, a, n);
    CanMove(c, z, j, a, act, lost);
    MovedOne(c, j.s, k, todo, n, a);
    SyncMoves(c, z, j, a, n);
    JointStateAfter(c, z, j, Do(a, act, lost));
    var m := Onward(c, z, j, Move(Do(a, act, lost)));
    ReachableShape(c, z, m);
    OthersKept(c, z, j, m, k, todo, n, a, act, lost);
    j' := m;
    if n == 0 {
      j' := NowPark(c, z, m, a);
      ReachableShape(c, z, j');
      forall b | b in k && b != a ensures Sync(c, j', b, if b in todo - {a} then 0 else 1) {
        SyncKept(c, m, j', b, if b in todo then 0 else 1);
      }
    }
  }

  lemma ContenderBorn(c: Config, j: Joint, a: Id, n: nat)
    requires JointShape(c, j) && Sync(c, j, a, n)
    ensures forall x :: Has(c, a, x) ==> !j.threads[(a, x)].Unborn?
    ensures !StageAct(n).Beacon?
  {
  }

  lemma OthersKept(c: Config, z: B.Timed, j: Joint, m: Joint, k: set<Id>, todo: set<Id>, n: nat, a: Id, act: Act,
        lost: set<(Id, Name)>)
    requires ValidConfig(c) && JointShape(c, j) && JointShape(c, m) && JointStep(c, j, k, todo, n) && a in k
    requires JointCan(c, z, j, Move(Do(a, act, lost))) && m == JointDo(c, z, j, Move(Do(a, act, lost)))
    ensures forall b :: b in k && b != a ==> Sync(c, m, b, if b in todo then n else n + 1)
    ensures forall p: Id, x: Name :: Has(c, p, x) && p !in k ==> m.threads[(p, x)].Unborn?
  {
    hide ValidConfig, JointCan, JointDo, InStep, Sync, Acts, CanAct, Announced, B.Notified;
    AfterMove(c, z, j, a, act, lost);
    ActsNodes(c, j.s, a, act, lost);
    ActsClocks(c, j.s, a, act, lost);
    forall b | b in k && b != a ensures Sync(c, m, b, if b in todo then n else n + 1) {
      SyncKept(c, j, m, b, if b in todo then n else n + 1);
    }
  }

  /** The threads that saw IDLE, and missed that it is over, park. */
  lemma NowPark(c: Config, z: B.Timed, j: Joint, a: Id) returns (j': Joint)
    requires ValidConfig(c) && JointReachable(c, z, j) && JointShape(c, j) && a in c.specs
    requires Stage(c, j.s, a, 1) && Sync(c, j, a, 0)
    ensures JointReachable(c, z, j') && JointShape(c, j') && j'.s == j.s && Sync(c, j', a, 1)
    ensures forall q: Id, x: Name :: Has(c, q, x) && q != a ==> j'.threads[(q, x)] == j.threads[(q, x)]
  {
    hide ValidConfig, JointReachable, Busy, NeverLost, Shape;
    j' := TurnAll(c, z, j, a, Part(Listening(0), Starting, B.Parking(0)), B.Park, B.Parked, c.specs[a].count.Keys);
    ReachableShape(c, z, j');
  }

  lemma {:induction false} AllMoveOn(c: Config, z: B.Timed, j: Joint, k: set<Id>, todo: set<Id>, n: nat)
    returns (j': Joint)
    requires ValidConfig(c) && z.tm == c.tm && JointReachable(c, z, j) && JointShape(c, j) && n <= 2 && todo <= k
    requires JointStep(c, j, k, todo, n) && Moment(c, j.s.now, n) && NetLate(c, j.s, k)
    requires forall a :: a in k ==> a in c.specs && |c.specs[a].order| > 0
    ensures JointReachable(c, z, j') && JointShape(c, j') && j'.s.now == j.s.now
    ensures JointStep(c, j', k, {}, n) && NetLate(c, j'.s, k)
    decreases |todo|
  {
    hide ValidConfig, JointReachable, JointShape, JointStep, NetLate, Moment;
    if todo == {} {
      j' := j;
    } else {
      var a :| a in todo;
      var m := ContenderMoves(c, z, j, k, todo, n, a);
      j' := AllMoveOn(c, z, m, k, todo - {a}, n);
    }
  }

  // ---- waiting together ----

  /** Until two windows are over, whatever is urgent can be done with all contenders as they are. */
  lemma {:induction false} JointCalm(c: Config, z: B.Timed, j: Joint, k: set<Id>, n: nat) returns (j': Joint)
    requires ValidConfig(c) && z.tm == c.tm && !Timely(c) && JointReachable(c, z, j) && JointShape(c, j) && 1 <= n <= 2
    requires JointStep(c, j, k, k, n) && NetLate(c, j.s, k) && j.s.now < 2 * WindowTime(c.tm)
    ensures JointReachable(c, z, j') && JointShape(c, j') && j'.s.now == j.s.now
    ensures JointStep(c, j', k, k, n) && NetLate(c, j'.s, k) && Overdue(c, j'.s) == {} && Owed(c, j'.s) == {}
    decreases |Overdue(c, j.s)|, |Owed(c, j.s)|
  {
    hide JointReachable, Shape, ValidConfig, JointStep, NetLate, WindowTime;
    if Overdue(c, j.s) != {} {
      var pkt :| pkt in Overdue(c, j.s);
      var m := JointDelivery(c, z, j, k, n, pkt);
      j' := JointCalm(c, z, m, k, n);
    } else if Owed(c, j.s) != {} {
      var o :| o in Owed(c, j.s);
      var m := JointBeacon(c, z, j, k, n, o.0, o.1);
      j' := JointCalm(c, z, m, k, n);
    } else {
      j' := j;
    }
  }

  lemma JointDelivery(c: Config, z: B.Timed, j: Joint, k: set<Id>, n: nat, pkt: Packet) returns (m: Joint)
    requires ValidConfig(c) && !Timely(c) && JointReachable(c, z, j) && JointShape(c, j) && 1 <= n <= 2
    requires JointStep(c, j, k, k, n) && NetLate(c, j.s, k) && j.s.now < 2 * WindowTime(c.tm)
    requires pkt in Overdue(c, j.s)
    ensures JointReachable(c, z, m) && JointShape(c, m) && m.s.now == j.s.now
    ensures JointStep(c, m, k, k, n) && NetLate(c, m.s, k) && Overdue(c, m.s) == Overdue(c, j.s) - {pkt}
  {
    hide JointReachable, Shape, ValidConfig, InStep, Late, WindowTime, Receive, Enabled, JointDo, JointCan, Sync;
    BurstPositive(c);
    ReachableShape(c, z, j);
    DeliverOverdue(c, j.s, pkt);
    OverdueInNet(c, j.s, pkt);
    assert Late(c, pkt, k);
    NotUrgentYet(c, j.s, k, pkt);
    HarmlessDelivery(c, j.s, pkt, k, n);
    AfterDelivery(c, z, j, pkt);
    ReceiveSame(c, j.s, pkt, false);
    m := Onward(c, z, j, Move(Deliver(pkt, false)));
    ReachableShape(c, z, m);
    forall b | b in k ensures Sync(c, m, b, n) {
      SyncKept(c, j, m, b, n);
    }
  }

  lemma OverdueInNet(c: Config, s: State, pkt: Packet)
    requires ValidConfig(c) && Shape(c, s) && pkt in Overdue(c, s)
    ensures pkt in s.net && pkt.sentAt < s.now
  {
  }

  /** A beacon that is owed is a contender's, in its window, and its thread wakes up for it. */
  lemma OwedSleeper(c: Config, j: Joint, k: set<Id>, n: nat, a: Id, x: Name)
    requires ValidConfig(c) && JointShape(c, j) && 1 <= n <= 2 && JointStep(c, j, k, k, n) && (a, x) in Owed(c, j.s)
    ensures n == 2 && a in k && Has(c, a, x) && j.s.clocks[a][x].due == j.s.now && a in j.s.alive
    ensures j.threads[(a, x)] == B.Sleeping(j.s.now) && j.s.nodes[a].res[x].state.Acquiring?
    ensures exists i: nat :: SentTimes(c, j.s, a, x, i)
  {
    hide WindowTime, SentTimes, Busy;
    if a !in k {
      IdleOwesNothing(c, j.s, k, a, x);
      assert false;
    }
    assert Stage(c, j.s, a, n) && Sync(c, j, a, n);
  }

  lemma IdleOwesNothing(c: Config, s: State, k: set<Id>, a: Id, x: Name)
    requires Shape(c, s) && Bystanders(c, s, k) && a !in k
    ensures (a, x) !in Owed(c, s)
  {
    hide Busy;
  }

  lemma JointBeacon(c: Config, z: B.Timed, j: Joint, k: set<Id>, n: nat, a: Id, x: Name) returns (m: Joint)
    requires ValidConfig(c) && z.tm == c.tm && JointReachable(c, z, j) && JointShape(c, j) && 1 <= n <= 2
    requires JointStep(c, j, k, k, n) && NetLate(c, j.s, k) && (a, x) in Owed(c, j.s)
    ensures JointReachable(c, z, m) && JointShape(c, m) && m.s.now == j.s.now
    ensures JointStep(c, m, k, k, n) && NetLate(c, m.s, k)
    ensures Overdue(c, m.s) == Overdue(c, j.s) && Owed(c, m.s) == Owed(c, j.s) - {(a, x)}
  {
    hide JointReachable, Shape, ValidConfig, InStep, NetLate, SentTimes, Overdue, Owed, MayLose, CanDo, Acts, JointDo,
        JointCan, Sync, B.Can, B.Do;
    OwedSleeper(c, j, k, n, a, x);
    var i: nat :| SentTimes(c, j.s, a, x, i);
    NextBeacon(c, j.s, a, x, i, k);
    var lost := BeaconLost(c, j.s, a, x, i);
    SendOwed(c, j.s, a, x, lost);
    var w := WakeUp(c, z, j, a, x);
    WakesBorn(c, j, w, k, a, x);
    CanMove(c, z, w, a, Beacon(x), lost);
    JointStateAfter(c, z, w, Do(a, Beacon(x), lost));
    m := Onward(c, z, w, Move(Do(a, Beacon(x), lost)));
    ReachableShape(c, z, m);
    BeaconSync(c, z, j, w, k, a, x, lost);
  }

  lemma WakeUp(c: Config, z: B.Timed, j: Joint, a: Id, x: Name) returns (w: Joint)
    requires ValidConfig(c) && JointReachable(c, z, j) && JointShape(c, j) && Has(c, a, x) && a in j.s.alive
    requires j.threads[(a, x)] == B.Sleeping(j.s.now)
    ensures JointReachable(c, z, w) && JointShape(c, w) && w.s == j.s
    ensures forall q: Id, y: Name :: Has(c, q, y) ==>
              w.threads[(q, y)] == if q == a && y == x then B.Ready else j.threads[(q, y)]
  {
    hide JointReachable, ValidConfig, JointDo, JointCan, Shape;
    AfterInner(c, z, j, a, x, B.Wake);
    w := Onward(c, z, j, Inner(a, x, B.Wake));
    ReachableShape(c, z, w);
  }

  lemma WakesBorn(c: Config, j: Joint, w: Joint, k: set<Id>, a: Id, x: Name)
    requires JointShape(c, j) && JointShape(c, w) && JointStep(c, j, k, k, 2) && a in k && Has(c, a, x) && w.s == j.s
    requires forall q: Id, y: Name :: Has(c, q, y) ==>
               w.threads[(q, y)] == if q == a && y == x then B.Ready else j.threads[(q, y)]
    requires j.s.nodes[a].res[x].state.Acquiring?
    ensures Announces(SeenIn(c, w, a, x)) && forall y :: Has(c, a, y) ==> !w.threads[(a, y)].Unborn?
  {
    hide InStep;
    assert Sync(c, j, a, 2);
  }

  lemma BeaconSync(c: Config, z: B.Timed, j: Joint, w: Joint, k: set<Id>, a: Id, x: Name, lost: set<(Id, Name)>)
    requires ValidConfig(c) && z.tm == c.tm && JointShape(c, j) && JointShape(c, w) && JointStep(c, j, k, k, 2)
    requires a in k && Has(c, a, x) && w.s == j.s && j.s.clocks[a][x].due == j.s.now
    requires forall q: Id, y: Name :: Has(c, q, y) ==>
               w.threads[(q, y)] == if q == a && y == x then B.Ready else j.threads[(q, y)]
    requires JointCan(c, z, w, Move(Do(a, Beacon(x), lost)))
    ensures var m := JointDo(c, z, w, Move(Do(a, Beacon(x), lost)));
            && (forall b :: b in k ==> Sync(c, m, b, 2))
            && forall p: Id, y: Name :: Has(c, p, y) && p !in k ==> m.threads[(p, y)].Unborn?
  {
    hide ValidConfig, JointCan, JointDo, InStep, Acts, Sync;
    var m := JointDo(c, z, w, Move(Do(a, Beacon(x), lost)));
    forall b | b in k ensures Sync(c, m, b, 2) {
      assert Sync(c, j, b, 2);
      BeaconSyncOne(c, z, j, w, a, x, lost, b);
    }
    forall p: Id, y: Name | Has(c, p, y) && p !in k ensures m.threads[(p, y)].Unborn? {
      BeaconThreadIs(c, z, w, a, x, lost, p, y);
    }
  }

  /** The thread of y of p after a's beacon of x, and when its next beacon is due. */
  lemma BeaconThreadIs(c: Config, z: B.Timed, w: Joint, a: Id, x: Name, lost: set<(Id, Name)>, p: Id, y: Name)
    requires ValidConfig(c) && z.tm == c.tm && JointShape(c, w) && Has(c, a, x) && Has(c, p, y)
    requires JointCan(c, z, w, Move(Do(a, Beacon(x), lost)))
    ensures var m := JointDo(c, z, w, Move(Do(a, Beacon(x), lost)));
            && m.s.now == w.s.now
            && m.threads[(p, y)] == (if p == a && y == x then B.Sleeping(w.s.now + c.tm.beacon) else w.threads[(p, y)])
            && m.s.clocks[p][y].due == if p == a && y == x then w.s.now + c.tm.beacon else w.s.clocks[p][y].due
  {
    hide ValidConfig, JointDo, B.Notified, Acts, ThreadAfter;
    SeenAfter(c, z, w, a, Beacon(x), lost, p, y);
  }

  lemma BeaconSyncOne(c: Config, z: B.Timed, j: Joint, w: Joint, a: Id, x: Name, lost: set<(Id, Name)>, b: Id)
    requires ValidConfig(c) && z.tm == c.tm && JointShape(c, j) && JointShape(c, w) && Sync(c, j, b, 2)
    requires Has(c, a, x) && w.s == j.s && j.s.clocks[a][x].due == j.s.now
    requires forall q: Id, y: Name :: Has(c, q, y) ==>
               w.threads[(q, y)] == if q == a && y == x then B.Ready else j.threads[(q, y)]
    requires JointCan(c, z, w, Move(Do(a, Beacon(x), lost)))
    ensures Sync(c, JointDo(c, z, w, Move(Do(a, Beacon(x), lost))), b, 2)
  {
    hide ValidConfig, JointCan, JointDo;
    var m := JointDo(c, z, w, Move(Do(a, Beacon(x), lost)));
    forall y | Has(c, b, y)
      ensures m.threads[(b, y)] == B.Sleeping(m.s.clocks[b][y].due) && m.s.now <= m.s.clocks[b][y].due
    {
      BeaconThreadIs(c, z, w, a, x, lost, b, y);
    }
  }

  lemma PassOn(c: Config, z: B.Timed, j: Joint, k: set<Id>, n: nat)
    requires ValidConfig(c) && JointShape(c, j) && 1 <= n <= 2 && JointStep(c, j, k, k, n) && NetLate(c, j.s, k)
    requires Overdue(c, j.s) == {} && Owed(c, j.s) == {}
    ensures JointCan(c, z, j, Pass)
    ensures var j' := JointDo(c, z, j, Pass);
            j'.s.now == j.s.now + 1 && JointStep(c, j', k, k, n) && NetLate(c, j'.s, k)
  {
    hide ValidConfig, Late, WindowTime, Shape;
    BurstPositive(c);
    NothingUrgent(c, j.s);
    LaterInStep(c, j.s, k, n);
    hide InStep;
    SleepersPass(c, z, j, k, n);
  }

  lemma SleepersPass(c: Config, z: B.Timed, j: Joint, k: set<Id>, n: nat)
    requires ValidConfig(c) && JointShape(c, j) && 1 <= n <= 2 && JointStep(c, j, k, k, n) && CanTick(c, j.s)
    ensures JointCan(c, z, j, Pass)
    ensures forall a :: a in k ==> Sync(c, JointDo(c, z, j, Pass), a, n)
  {
    hide WindowTime, Busy, SentTimes;
    forall p, r | p in j.s.alive && Has(c, p, r) ensures B.Can(z, SeenIn(c, j, p, r), B.Tick) {
      assert p in k ==> Stage(c, j.s, p, n) && Sync(c, j, p, n);
    }
    var j' := JointDo(c, z, j, Pass);
    forall a | a in k ensures Sync(c, j', a, n) {
      assert Stage(c, j.s, a, n) && Sync(c, j, a, n) && a in c.specs;
    }
  }

  lemma {:induction false} AllWaitOn(c: Config, z: B.Timed, j: Joint, k: set<Id>, n: nat, t: int) returns (j': Joint)
    requires ValidConfig(c) && z.tm == c.tm && !Timely(c) && JointReachable(c, z, j) && JointShape(c, j) && 1 <= n <= 2
    requires JointStep(c, j, k, k, n) && NetLate(c, j.s, k) && j.s.now <= t <= 2 * WindowTime(c.tm)
    ensures JointReachable(c, z, j') && JointShape(c, j') && j'.s.now == t
    ensures JointStep(c, j', k, k, n) && NetLate(c, j'.s, k)
    decreases t - j.s.now
  {
    hide JointReachable, Shape, ValidConfig, JointStep, NetLate, WindowTime, Timely, JointCan, JointDo, Overdue, Owed;
    if j.s.now == t {
      j' := j;
    } else {
      var m := JointCalm(c, z, j, k, n);
      PassOn(c, z, m, k, n);
      m := Onward(c, z, m, Pass);
      ReachableShape(c, z, m);
      j' := AllWaitOn(c, z, m, k, n, t);
    }
  }

  // ---- the whole contest ----

  /** Nothing has happened but that the threads of the contenders outside todo saw IDLE. */
  ghost predicate Opening(c: Config, j: Joint, k: set<Id>, todo: set<Id>)
    requires JointShape(c, j)
  {
    && j.s == Init(c)
    && forall p: Id, x: Name :: Has(c, p, x) ==>
         j.threads[(p, x)] == if p in k && p !in todo then B.Parking(0) else B.Unborn
  }

  lemma {:induction false} AllOpen(c: Config, z: B.Timed, j: Joint, k: set<Id>, todo: set<Id>) returns (j': Joint)
    requires ValidConfig(c) && JointReachable(c, z, j) && JointShape(c, j) && todo <= k <= c.specs.Keys
    requires Opening(c, j, k, todo)
    ensures JointReachable(c, z, j') && JointShape(c, j') && Opening(c, j', k, {})
    decreases |todo|
  {
    hide ValidConfig, JointReachable, JointShape, Opening;
    if todo == {} {
      j' := j;
    } else {
      var a :| a in todo;
      var m := OneOpens(c, z, j, k, todo, a);
      j' := AllOpen(c, z, m, k, todo - {a});
    }
  }

  lemma OneOpens(c: Config, z: B.Timed, j: Joint, k: set<Id>, todo: set<Id>, a: Id) returns (j': Joint)
    requires ValidConfig(c) && JointReachable(c, z, j) && JointShape(c, j) && todo <= k <= c.specs.Keys && a in todo
    requires Opening(c, j, k, todo)
    ensures JointReachable(c, z, j') && JointShape(c, j') && Opening(c, j', k, todo - {a})
  {
    hide ValidConfig, JointReachable, Busy, Init, Shape;
    StartAt(c, a);
    StartState(c);
    var m := TurnAll(c, z, j, a, Part(Resting, Idle, B.Unborn), B.Start, B.Ready, c.specs[a].count.Keys);
    ReachableShape(c, z, m);
    j' := TurnAll(c, z, m, a, Part(Resting, Idle, B.Ready), B.Test, B.Parking(0), c.specs[a].count.Keys);
    ReachableShape(c, z, j');
  }

  lemma OpeningBegins(c: Config, k: set<Id>)
    requires ValidConfig(c) && k <= c.specs.Keys
    ensures Opening(c, Begin(c), k, k)
  {
    hide Init;
  }

  lemma OpeningIsStep(c: Config, j: Joint, k: set<Id>)
    requires ValidConfig(c) && JointShape(c, j) && k <= c.specs.Keys && Opening(c, j, k, {})
    ensures JointStep(c, j, k, k, 0) && NetLate(c, j.s, k) && Moment(c, j.s.now, 0)
  {
    hide InStep, NetLate, Init;
    StartInStep(c, k);
  }

  lemma NextJointStep(c: Config, j: Joint, k: set<Id>, n: nat)
    requires JointShape(c, j) && JointStep(c, j, k, {}, n)
    ensures JointStep(c, j, k, k, n + 1)
  {
    hide Stage;
  }

  lemma StepQueues(c: Config, j: Joint, k: set<Id>)
    requires ValidConfig(c) && JointShape(c, j) && JointStep(c, j, k, k, 3)
    requires forall a :: a in k ==> a in c.specs && |c.specs[a].order| > 0
    ensures Queued(c, j, k, k)
  {
    hide WindowTime, ValidConfig, Busy, PartlyHeld;
    forall a | a in k ensures Commits(c, j, a, 0) {
      assert Stage(c, j.s, a, 3) && Sync(c, j, a, 3);
      ChecksBegin(c, j.s, a);
    }
  }

  /** When the network is not timely, all processes that share a resource can come to hold it, however
      fast their beacon threads are. */
  lemma LateAllGetIt(c: Config, z: B.Timed, k: set<Id>, r: Name) returns (j: Joint)
    requires ValidConfig(c) && z.tm == c.tm && !Timely(c) && forall a :: a in k ==> Has(c, a, r)
    ensures JointReachable(c, z, j) && JointShape(c, j) && Queued(c, j, k, {})
  {
    hide JointReachable, Shape, ValidConfig, JointStep, NetLate, Timely, Begin, WindowTime, Queued, Opening;
    var w := WindowTime(c.tm);
    NamesDeclared(c, k, r);
    BeginReachable(c, z);
    OpeningBegins(c, k);
    j := AllOpen(c, z, Begin(c), k, k);
    OpeningIsStep(c, j, k);
    j := AllMoveOn(c, z, j, k, k, 0);
    NextJointStep(c, j, k, 0);
    MomentIs(c, j.s.now, 0);
    j := AllWaitOn(c, z, j, k, 1, w);
    j := AllMoveOn(c, z, j, k, k, 1);
    NextJointStep(c, j, k, 1);
    j := AllWaitOn(c, z, j, k, 2, 2 * w);
    j := AllMoveOn(c, z, j, k, k, 2);
    NextJointStep(c, j, k, 2);
    StepQueues(c, j, k);
    j := EverybodyCommits(c, z, j, k, k);
    ReachableShape(c, z, j);
  }

  lemma MomentIs(c: Config, now: int, n: nat)
    requires Moment(c, now, n)
    ensures n == 0 ==> now == 0
  {
  }

  // ---- when exclusion holds ----

  lemma ThreadedFew(c: Config, z: B.Timed, j: Joint, r: Name, count: nat)
    requires ValidConfig(c) && JointReachable(c, z, j) && |Contenders(c, r, count)| <= count
    ensures AtMost(c, j.s, r, count)
  {
    SubsetSize(Holders(c, j.s, r, count), Contenders(c, r, count));
  }

  lemma ThreadedHolds(c: Config, z: B.Timed, j: Joint, r: Name, count: nat)
    requires ValidConfig(c) && z.tm == c.tm && JointReachable(c, z, j) && Timely(c) && z.parkTime < WindowTime(z.tm)
    ensures AtMost(c, j.s, r, count)
  {
    hide WindowTime, Timely, Holders, JointAt, Shape;
    var run :| IsJointRun(c, z, run) && run[|run| - 1] == j;
    ThreadedExclusion(c, z, run, |run| - 1, r, count);
  }

  lemma ThreadedBreaks(c: Config, z: B.Timed, r: Name, count: nat) returns (j: Joint)
    requires ValidConfig(c) && z.tm == c.tm && (Timely(c) ==> z.parkTime >= WindowTime(z.tm))
    ensures JointReachable(c, z, j) && JointShape(c, j) && Contenders(c, r, count) <= Holders(c, j.s, r, count)
  {
    hide JointReachable, Shape, ValidConfig, Timely, WindowTime, Queued, Holders, Contenders;
    ContendersDeclare(c, r, count);
    BurstPositive(c);
    if Timely(c) {
      j := SlowAllGetIt(c, z, Contenders(c, r, count), r);
    } else {
      j := LateAllGetIt(c, z, Contenders(c, r, count), r);
    }
    ReachableShape(c, z, j);
    CommittedHold(c, j, Contenders(c, r, count), r, count);
  }

  /** In every system with beacon threads, for every resource and count: mutual exclusion holds in every
      run if and only if no more processes declare it than the count allows, or the network is timely
      and the threads take less than one window to park. */
  lemma ThreadedExclusionIff(c: Config, z: B.Timed, r: Name, count: nat)
    requires ValidConfig(c) && z.tm == c.tm
    ensures (forall j :: JointReachable(c, z, j) ==> AtMost(c, j.s, r, count))
            <==> |Contenders(c, r, count)| <= count || (Timely(c) && z.parkTime < WindowTime(z.tm))
  {
    hide JointReachable, Shape, ValidConfig, Timely, WindowTime, Holders, Contenders;
    BurstPositive(c);
    if |Contenders(c, r, count)| <= count {
      forall j | JointReachable(c, z, j) ensures AtMost(c, j.s, r, count) {
        ThreadedFew(c, z, j, r, count);
      }
    } else if Timely(c) && z.parkTime < WindowTime(z.tm) {
      forall j | JointReachable(c, z, j) ensures AtMost(c, j.s, r, count) {
        ThreadedHolds(c, z, j, r, count);
      }
    } else {
      var j := ThreadedBreaks(c, z, r, count);
      SubsetSize(Contenders(c, r, count), Holders(c, j.s, r, count));
      assert !AtMost(c, j.s, r, count);
    }
  }
}
