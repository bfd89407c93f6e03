/** Going on from a reachable state of the system with beacon threads. */
module JointRuns {
  import opened Protocol
  import opened Network
  import opened Invariants
  import opened Progress
  import opened Tightness
  import opened Threaded

  ghost predicate JointReachable(c: Config, z: B.Timed, j: Joint)
    requires ValidConfig(c)
  {
    JointShape(c, j) && exists run :: IsJointRun(c, z, run) && run[|run| - 1] == j
  }

  lemma Onward(c: Config, z: B.Timed, j: Joint, t: JointStep) returns (j': Joint)
    requires ValidConfig(c) && JointReachable(c, z, j) && JointCan(c, z, j, t)
    ensures j' == JointDo(c, z, j, t) && JointReachable(c, z, j')
  {
    hide JointCan, JointDo, JointShape, Begin, ValidConfig;
    j' := JointDo(c, z, j, t);
    var run :| IsJointRun(c, z, run) && run[|run| - 1] == j;
    var longer := run + [j'];
    forall i ensures JointAt(c, z, longer, i) {
      assert JointAt(c, z, run, i);
      if i == |run| - 1 {
        assert JointNext(c, z, longer[i], longer[i + 1]);
      }
    }
    assert IsJointRun(c, z, longer) && longer[|longer| - 1] == j';
  }

  lemma BeginReachable(c: Config, z: B.Timed)
    requires ValidConfig(c)
    ensures JointReachable(c, z, Begin(c))
  {
    hide Begin, JointNext, JointShape;
    assert IsJointRun(c, z, [Begin(c)]) && [Begin(c)][|[Begin(c)]| - 1] == Begin(c);
  }

  /** A step of process a, with the threads of the resources it announces. */
  lemma CanMove(c: Config, z: B.Timed, j: Joint, a: Id, act: Act, lost: set<(Id, Name)>)
    requires ValidConfig(c) && JointShape(c, j) && CanDo(c, j.s, a, act, lost)
    requires act.Beacon? && Has(c, a, act.name) ==> Announces(SeenIn(c, j, a, act.name))
    requires forall x :: Has(c, a, x) ==> !j.threads[(a, x)].Unborn?
    ensures JointCan(c, z, j, Move(Do(a, act, lost)))
  {
    hide CanAct, Announced, Announces, ValidConfig;
  }

  /** The joint state after a step of process a. */
  lemma AfterMove(c: Config, z: B.Timed, j: Joint, a: Id, act: Act, lost: set<(Id, Name)>)
    requires ValidConfig(c) && JointShape(c, j) && JointCan(c, z, j, Move(Do(a, act, lost)))
    ensures CanDo(c, j.s, a, act, lost)
    ensures var j' := JointDo(c, z, j, Move(Do(a, act, lost)));
            && j'.s == Acts(c, j.s, a, act, lost)
            && forall p: Id, x: Name :: Has(c, p, x) ==>
                 j'.threads[(p, x)]
                 == if p != a || x !in Announced(c.specs[a], c.tm, j.s.nodes[a], act, j.s.now) then j.threads[(p, x)]
                    else if act.Beacon? then B.Sleeping(j.s.now + z.tm.beacon)
                    else B.Notified(z, SeenIn(c, j, p, x), j'.s.nodes[p].res[x].state)
  {
    hide Announced, Acts, CanAct, B.Notified, ValidConfig, JointDo;
    var j' := JointDo(c, z, j, Move(Do(a, act, lost)));
    forall p: Id, x: Name | Has(c, p, x) ensures j'.threads[(p, x)] == ThreadAfter(c, z, j, Do(a, act, lost), p, x) {
      Moved(c, z, j, Do(a, act, lost), p, x);
    }
    JointStateAfter(c, z, j, Do(a, act, lost));
  }

  lemma JointStateAfter(c: Config, z: B.Timed, j: Joint, step: Step)
    requires ValidConfig(c) && JointShape(c, j) && JointCan(c, z, j, Move(step))
    ensures JointDo(c, z, j, Move(step)).s == Apply(c, j.s, step)
  {
    hide Apply, Enabled, ThreadAfter, Shape;
  }

  /** A delivery leaves every thread where it is. */
  lemma AfterDelivery(c: Config, z: B.Timed, j: Joint, pkt: Packet)
    requires ValidConfig(c) && JointShape(c, j) && pkt in j.s.net && pkt.sentAt < j.s.now
    ensures JointCan(c, z, j, Move(Deliver(pkt, false)))
    ensures var j' := JointDo(c, z, j, Move(Deliver(pkt, false)));
            && j'.s == Receive(c, j.s, pkt, false)
            && forall p: Id, x: Name :: Has(c, p, x) ==> j'.threads[(p, x)] == j.threads[(p, x)]
  {
    hide Receive, ValidConfig, JointDo;
    var step := Deliver(pkt, false);
    var j' := JointDo(c, z, j, Move(step));
    forall p: Id, x: Name | Has(c, p, x) ensures j'.threads[(p, x)] == j.threads[(p, x)] {
      Moved(c, z, j, step, p, x);
    }
    JointStateAfter(c, z, j, step);
  }

  /** An event of one thread. */
  lemma AfterInner(c: Config, z: B.Timed, j: Joint, p: Id, r: Name, e: B.Event)
    requires ValidConfig(c) && JointShape(c, j) && p in j.s.alive && Has(c, p, r)
    requires e.Start? || e.Test? || e.Park? || e.Wake?
    requires B.Can(z, SeenIn(c, j, p, r), e) && (e.Test? ==> !Announces(SeenIn(c, j, p, r)))
    ensures JointCan(c, z, j, Inner(p, r, e))
    ensures var j' := JointDo(c, z, j, Inner(p, r, e));
            && j'.s == j.s
            && forall q: Id, x: Name :: Has(c, q, x) ==>
                 j'.threads[(q, x)] == if q == p && x == r then B.Do(z, SeenIn(c, j, p, r), e).thread
                                       else j.threads[(q, x)]
  {
    hide B.Can, B.Do, Shape;
  }

  lemma ReachableShape(c: Config, z: B.Timed, j: Joint)
    requires ValidConfig(c) && JointReachable(c, z, j)
    ensures JointShape(c, j) && Shape(c, j.s)
  {
  }

  // ---- commits ----

  ghost predicate AtCheck(sp: Spec, n: Node, i: nat) {
    exists l, t :: PartlyHeld(sp, n, l, t, i)
  }

  /** Process a has committed its first i resources and knows of no holder; its threads are there. */
  ghost predicate Commits(c: Config, j: Joint, a: Id, i: nat)
    requires JointShape(c, j)
  {
    && a in c.specs && a in j.s.alive && AtCheck(c.specs[a], j.s.nodes[a], i)
    && forall x :: Has(c, a, x) ==> !j.threads[(a, x)].Unborn?
  }

  lemma CommitNode(c: Config, s: State, a: Id, i: nat)
    requires ValidConfig(c) && Shape(c, s) && a in c.specs && a in s.alive && i < |c.specs[a].order|
    requires AtCheck(c.specs[a], s.nodes[a], i)
    ensures CanDo(c, s, a, Check, {})
    ensures var s' := Acts(c, s, a, Check, {});
            && s'.alive == s.alive && s'.nodes == s.nodes[a := s'.nodes[a]]
            && AtCheck(c.specs[a], s'.nodes[a], i + 1)
  {
    hide ValidConfig, Acts, Perform, CanAct, Announced, PartlyHeld;
    NodeFits(c, s, a);
    var l, t :| PartlyHeld(c.specs[a], s.nodes[a], l, t, i);
    CheckCommits(c.specs[a], c.tm, s.nodes[a], s.now, l, t, i);
    ActsNodes(c, s, a, Check, {});
    assert PartlyHeld(c.specs[a], Acts(c, s, a, Check, {}).nodes[a], l, t, i + 1);
  }

  lemma CommitNext(c: Config, z: B.Timed, j: Joint, a: Id, i: nat) returns (j': Joint)
    requires ValidConfig(c) && JointReachable(c, z, j) && Commits(c, j, a, i) && i < |c.specs[a].order|
    ensures JointReachable(c, z, j') && Commits(c, j', a, i + 1)
    ensures forall b, n: nat :: b != a && Commits(c, j, b, n) ==> Commits(c, j', b, n)
  {
    hide ValidConfig, JointReachable, JointCan, JointDo, Acts, AtCheck, CanDo, Shape;
    ReachableShape(c, z, j);
    CommitNode(c, j.s, a, i);
    CanMove(c, z, j, a, Check, {});
    JointStateAfter(c, z, j, Do(a, Check, {}));
    j' := Onward(c, z, j, Move(Do(a, Check, {})));
    ReachableShape(c, z, j');
    StillBorn(c, z, j, a, Check, {});
    forall b, n: nat | b != a && Commits(c, j, b, n) ensures Commits(c, j', b, n) {
      StillCommits(c, j, j', b, n);
    }
  }

  lemma StillCommits(c: Config, j: Joint, j': Joint, b: Id, n: nat)
    requires JointShape(c, j) && JointShape(c, j') && Commits(c, j, b, n)
    requires j'.s.alive == j.s.alive && (b in j.s.nodes ==> j'.s.nodes[b] == j.s.nodes[b])
    requires forall p: Id, x: Name :: Has(c, p, x) && !j.threads[(p, x)].Unborn? ==> !j'.threads[(p, x)].Unborn?
    ensures Commits(c, j', b, n)
  {
    hide AtCheck;
  }

  /** A thread that is there stays there. */
  lemma StillBorn(c: Config, z: B.Timed, j: Joint, a: Id, act: Act, lost: set<(Id, Name)>)
    requires ValidConfig(c) && JointShape(c, j) && JointCan(c, z, j, Move(Do(a, act, lost)))
    ensures var j' := JointDo(c, z, j, Move(Do(a, act, lost)));
            forall p: Id, x: Name :: Has(c, p, x) && !j.threads[(p, x)].Unborn? ==> !j'.threads[(p, x)].Unborn?
  {
    hide Announced, Acts, CanAct, ValidConfig, JointDo, JointCan;
    AfterMove(c, z, j, a, act, lost);
  }

  lemma {:induction false} CommitsAll(c: Config, z: B.Timed, j: Joint, a: Id, i: nat) returns (j': Joint)
    requires ValidConfig(c) && JointReachable(c, z, j) && a in c.specs && Commits(c, j, a, i)
    requires i <= |c.specs[a].order|
    ensures JointReachable(c, z, j') && Commits(c, j', a, |c.specs[a].order|)
    ensures forall b, n: nat :: b != a && Commits(c, j, b, n) ==> Commits(c, j', b, n)
    decreases |c.specs[a].order| - i
  {
    hide ValidConfig, JointReachable, Commits;
    if i == |c.specs[a].order| {
      j' := j;
    } else {
      var m := CommitNext(c, z, j, a, i);
      j' := CommitsAll(c, z, m, a, i + 1);
    }
  }

  /** The processes in todo are at their first check; the others of k have committed everything. */
  ghost predicate Queued(c: Config, j: Joint, k: set<Id>, todo: set<Id>)
    requires JointShape(c, j)
  {
    forall a :: a in k ==> a in c.specs && Commits(c, j, a, if a in todo then 0 else |c.specs[a].order|)
  }

  lemma {:induction false} EverybodyCommits(c: Config, z: B.Timed, j: Joint, k: set<Id>, todo: set<Id>)
    returns (j': Joint)
    requires ValidConfig(c) && JointReachable(c, z, j) && todo <= k && Queued(c, j, k, todo)
    ensures JointReachable(c, z, j') && Queued(c, j', k, {})
    decreases |todo|
  {
    hide ValidConfig, JointReachable, Commits, JointShape;
    ReachableShape(c, z, j);
    if todo == {} {
      j' := j;
    } else {
      var a :| a in todo;
      var m := CommitsAll(c, z, j, a, 0);
      ReachableShape(c, z, m);
      j' := EverybodyCommits(c, z, m, k, todo - {a});
    }
  }

  lemma CommittedHold(c: Config, j: Joint, k: set<Id>, r: Name, count: nat)
    requires ValidConfig(c) && JointShape(c, j) && Queued(c, j, k, {}) && k == Contenders(c, r, count)
    ensures k <= Holders(c, j.s, r, count)
  {
    forall a | a in k ensures a in Holders(c, j.s, r, count) {
      assert Commits(c, j, a, |c.specs[a].order|) && ValidSpec(c.specs[a]) && r in c.specs[a].order;
    }
  }
}
