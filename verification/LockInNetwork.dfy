/** The lock object inside the distributed system: however its path is interleaved with the steps of
    time, of the medium and of the other processes, the result is a segment of a run, so what holds
    of all runs holds of the object. */
module LockInNetwork {
  import opened Protocol
  import opened Network
  import opened Invariants
  import opened LockSpec
  import opened LockResults
  import opened LockRefines
  import opened Exclusion
  import opened Traces
  import opened Answers

  // ---- one event ----

  /** The step is the event e of process me; what it loses, the medium may lose. */
  ghost predicate Performs(c: Config, s: State, step: Step, me: Id, e: Event)
    requires ValidConfig(c) && Shape(c, s) && me in c.specs
  {
    && s.now == e.at
    && match e
       case Did(act, _) =>
         && step.Do? && step.id == me && step.act == act
         && (CanAct(c.specs[me], c.tm, s.nodes[me], act, s.now) ==>
              forall q, r :: (q, r) in step.lost ==>
                r in Announced(c.specs[me], c.tm, s.nodes[me], act, s.now) && Missed(s, me, q, r) + 1 < c.burst)
       case Heard(pkt, _) =>
         step.Deliver? && step.pkt == pkt && pkt.dst == me && pkt in s.net && pkt.sentAt < s.now
  }

  lemma {:induction false} SaidIsThere(sp: Spec, order: seq<Name>, n: Node, rs: set<Name>, i: nat)
    requires i < |Says(sp, order, n, rs)|
    ensures var a := Says(sp, order, n, rs)[i];
            a.name in rs && a.name in n.res && a.name in sp.count
                && a == Announcement(a.name, n.res[a.name].state, sp.count[a.name])
  {
    if |order| > 0 {
      var head := if order[0] in rs && order[0] in n.res && order[0] in sp.count
                  then [Announcement(order[0], n.res[order[0]].state, sp.count[order[0]])] else [];
      if i >= |head| {
        SaidIsThere(sp, order[1..], n, rs, i - |head|);
      }
    }
  }

  /** An announcement of `me` is on its way to q, or this step lost it. */
  ghost predicate OnItsWay(c: Config, s: State, step: Step, s': State, me: Id, a: Announcement, q: Id) {
    || Packet(me, q, a.name, a.state, a.count, s.now) in s'.net
    || (step.Do? && (q, a.name) in step.lost)
  }

  /** An event that the path allows is an enabled step of the system, whatever permitted packets are
      lost; it takes the process where the path goes, and every announcement the object makes goes
      out to every other process. */
  lemma EventIsStep(c: Config, s: State, step: Step, me: Id, p: Proc, e: Event)
    requires ValidConfig(c) && Shape(c, s) && me in s.alive && me in c.specs && s.nodes[me] == p.node
    requires Possible(c.specs[me], c.tm, p, e) && Performs(c, s, step, me, e)
    ensures Enabled(c, s, step)
    ensures var s', p' := Apply(c, s, step), After(me, c.specs[me], c.tm, p, e);
            && s'.nodes[me] == p'.node && s'.alive == s.alive && p.out <= p'.out
            && forall i, q :: |p.out| <= i < |p'.out| && q in c.specs && q != me ==>
                 OnItsWay(c, s, step, s', me, p'.out[i], q)
  {
    var sp := c.specs[me];
    if e.Did? {
      var n', rs := Perform(sp, c.tm, p.node, e.act, e.at), Announced(sp, c.tm, p.node, e.act, e.at);
      hide Perform, Announced, CanAct;
      var says, s' := Says(sp, sp.order, n', rs), Apply(c, s, step);
      forall i, q | 0 <= i < |says| && q in c.specs && q != me ensures OnItsWay(c, s, step, s', me, says[i], q) {
        SaidIsThere(sp, sp.order, n', rs, i);
        assert (q, says[i].name) !in step.lost ==>
          Packet(me, q, says[i].name, says[i].state, says[i].count, s.now) in Broadcast(c, me, n', rs, step.lost,
              s.now);
      }
      assert After(me, sp, c.tm, p, e).out == p.out + says;
    }
  }

  // ---- whole paths ----

  /** A step that is none of me's, or its beacon thread's. */
  predicate Foreign(step: Step, me: Id) {
    match step
    case Tick => true
    case Crash(p) => p != me
    case Deliver(pkt, _) => pkt.dst != me
    case Do(p, act, _) => p != me || act.Beacon?
  }

  lemma ForeignKeeps(c: Config, s: State, step: Step, me: Id)
    requires ValidConfig(c) && Shape(c, s) && Enabled(c, s, step) && Foreign(step, me) && me in s.alive
    ensures var s' := Apply(c, s, step); me in s'.alive && s'.nodes[me] == s.nodes[me]
  {
    hide Acts, CanAct, Announced, OnPacket, ValidConfig;
    if step.Do? {
      ActsNodes(c, s, step.id, step.act, step.lost);
    }
  }

  /** The steps are the events es of process me, in order, and steps that are not its own; each of
      the latter is enabled where it happens. That me's own steps are enabled is not assumed. */
  ghost predicate Interleaves(c: Config, run: seq<State>, steps: seq<Step>, me: Id, es: seq<Event>)
    requires ValidConfig(c) && me in c.specs
    decreases |steps|
  {
    && |run| == |steps| + 1 && Shape(c, run[0])
    && if |steps| == 0 then |es| == 0
       else
         || (Foreign(steps[0], me) && NextVia(c, run[0], steps[0], run[1])
             && Interleaves(c, run[1..], steps[1..], me, es))
         || (|es| > 0 && Performs(c, run[0], steps[0], me, es[0])
             && (Enabled(c, run[0], steps[0]) ==> run[1] == Apply(c, run[0], steps[0]))
             && Interleaves(c, run[1..], steps[1..], me, es[1..]))
  }

  /** A path of process me, interleaved in any way with what the rest of the system does and with
      any permitted losses, is a segment of the system that leaves me where the path ends. */
  lemma {:induction false} PathInNetwork(c: Config, run: seq<State>, steps: seq<Step>, me: Id, pkts: set<Packet>,
        p: Proc, from: int, es: seq<Event>, p': Proc, to: int)
    requires ValidConfig(c) && me in c.specs && Interleaves(c, run, steps, me, es)
    requires me in run[0].alive && run[0].nodes[me] == p.node && Path(me, c.specs[me], c.tm, pkts, p, from, es, p', to)
    ensures Segment(c, run, steps) && Shape(c, run[|steps|])
    ensures me in run[|steps|].alive && run[|steps|].nodes[me] == p'.node
    decreases |steps|
  {
    hide Apply, Enabled, Shape, Performs, Foreign, After, Possible;
    if |steps| > 0 {
      if Foreign(steps[0], me) && NextVia(c, run[0], steps[0], run[1]) && Interleaves(c, run[1..], steps[1..], me, es) {
        ForeignKeeps(c, run[0], steps[0], me);
        PathInNetwork(c, run[1..], steps[1..], me, pkts, p, from, es, p', to);
      } else {
        EventIsStep(c, run[0], steps[0], me, p, es[0]);
        PathInNetwork(c, run[1..], steps[1..], me, pkts,
                      After(me, c.specs[me], c.tm, p, es[0]), es[0].at, es[1..], p', to);
      }
      SegmentCons(c, run, steps);
      assert run[1..][|steps[1..]|] == run[|steps|];
    } else {
      SegmentOne(c, run, steps);
    }
  }

  lemma SegmentOne(c: Config, run: seq<State>, steps: seq<Step>)
    requires ValidConfig(c) && |run| == 1 && |steps| == 0 && Shape(c, run[0])
    ensures Segment(c, run, steps)
  {
  }

  // ---- acquire, as its caller sees it ----

  /** The lock object of process me lives in a system: from a reachable state in which it rests with
      these tables, the system does the events es and whatever else. */
  ghost predicate LivesIn(c: Config, run: seq<State>, steps: seq<Step>, me: Id, res: map<Name, Res>, es: seq<Event>)
    requires ValidConfig(c) && me in c.specs
  {
    && Interleaves(c, run, steps, me, es)
    && Reachable(c, run[0]) && me in run[0].alive && run[0].nodes[me] == Node(Resting, res)
  }

  /** Process me is one of at most `count` live holders of each of its resources. */
  ghost predicate HoldsAll(c: Config, s: State, me: Id)
    requires me in c.specs
  {
    && Shape(c, s)
    && forall r :: r in c.specs[me].count ==>
         var k := c.specs[me].count[r]; me in Holders(c, s, r, k) && |Holders(c, s, r, k)| <= k
  }

  /** What `acquire` of all resources of me does in that environment. */
  ghost function AcquireAll(c: Config, me: Id, x: Local, env: seq<Script>, retryMax: nat): Acquisition
    requires ValidConfig(c) && me in c.specs && Covers(c.specs[me].count, x.res)
  {
    var sp := c.specs[me];
    NamesKnown(sp);
    Acquire(me, sp.count, c.tm, sp.order, SetStates(sp.count, x, sp.order, Starting, 0), env, 0, retryMax)
  }

  lemma HoldsWhenHeld(c: Config, s: State, me: Id)
    requires ValidConfig(c) && Timely(c) && Reachable(c, s) && Shape(c, s) && me in c.specs && me in s.alive
    requires AllHeld(s.nodes[me].res, c.specs[me].order)
    ensures HoldsAll(c, s, me)
  {
    hide Reachable, Timely;
    forall r | r in c.specs[me].count
      ensures var k := c.specs[me].count[r]; me in Holders(c, s, r, k) && |Holders(c, s, r, k)| <= k
    {
      assert ValidSpec(c.specs[me]) && r in c.specs[me].order;
      CountingExclusion(c, s, r, c.specs[me].count[r]);
    }
  }

  lemma SegmentToHold(c: Config, run: seq<State>, steps: seq<Step>, me: Id, pkts: set<Packet>, x: Local,
        es: seq<Event>, z: Local, ph: Phase)
    requires ValidConfig(c) && Timely(c) && me in c.specs && LivesIn(c, run, steps, me, x.res, es)
    requires Path(me, c.specs[me], c.tm, pkts, Proc(Node(Resting, x.res), x.out), x.now, es,
          Proc(Node(ph, z.res), z.out), z.now)
    requires AllHeld(z.res, c.specs[me].order)
    ensures |run| == |steps| + 1 && HoldsAll(c, run[|steps|], me)
  {
    hide Path, Reachable, Segment, Shape, HoldsAll, AllHeld, Timely;
    PathInNetwork(c, run, steps, me, pkts, Proc(Node(Resting, x.res), x.out), x.now, es,
                  Proc(Node(ph, z.res), z.out), z.now);
    SegmentReachable(c, run, steps, |steps|);
    HoldsWhenHeld(c, run[|steps|], me);
  }

  /** The events es take the resting process me with tables and announcements x to those of z, in
      the time between. */
  ghost predicate Acquires(c: Config, me: Id, pkts: set<Packet>, x: Local, es: seq<Event>, z: Local)
    requires me in c.specs
  {
    exists ph :: Path(me, c.specs[me], c.tm, pkts, Proc(Node(Resting, x.res), x.out), x.now, es,
                      Proc(Node(ph, z.res), z.out), z.now)
  }

  /** When `acquire` of all resources returns true, its process is one of at most `count` live holders
      of every resource: its acquisition is a sequence of events of the process, and every run of a
      timely system in which the process does such a sequence, whatever else happens and is lost
      meanwhile, leads there. */
  lemma AcquiredInNetwork(c: Config, me: Id, pkts: set<Packet>, x: Local, env: seq<Script>, retryMax: nat)
    requires ValidConfig(c) && Timely(c) && me in c.specs && |c.specs[me].order| > 0 && Covers(c.specs[me].count, x.res)
    requires forall a :: a in env ==> GoodScript(c.tm, a) && Heardable(a) <= pkts
    requires AcquireAll(c, me, x, env, retryMax).outcome.Locked?
    ensures var z := AcquireAll(c, me, x, env, retryMax).x;
            && (exists es :: Acquires(c, me, pkts, x, es, z))
            && forall es, run, steps :: Acquires(c, me, pkts, x, es, z) && LivesIn(c, run, steps, me, x.res, es) ==>
                 |run| == |steps| + 1 && HoldsAll(c, run[|steps|], me)
  {
    hide Path, Acquire, SetStates, GoodScript, Heardable, LivesIn, HoldsAll, AllHeld, Timely;
    var sp := c.specs[me];
    NamesKnown(sp);
    var es0, ph0 := AdquireLockIsPath(me, sp, c.tm, pkts, x, env, retryMax);
    var z := AcquireAll(c, me, x, env, retryMax).x;
    assert Acquires(c, me, pkts, x, es0, z);
    StartedEnds(me, sp.count, c.tm, sp.order, x, env, retryMax);
    forall es, run, steps | Acquires(c, me, pkts, x, es, z) && LivesIn(c, run, steps, me, x.res, es)
      ensures |run| == |steps| + 1 && HoldsAll(c, run[|steps|], me)
    {
      var ph :| Path(me, sp, c.tm, pkts, Proc(Node(Resting, x.res), x.out), x.now, es,
                     Proc(Node(ph, z.res), z.out), z.now);
      SegmentToHold(c, run, steps, me, pkts, x, es, z, ph);
    }
  }

  // ---- a query, as its caller sees it ----

  /** The events es are a query of r by me, from x to the answer that the table of z gives. */
  ghost predicate Asks(c: Config, me: Id, pkts: set<Packet>, x: Local, r: Name, es: seq<Event>, z: Asked)
    requires me in c.specs
  {
    Path(me, c.specs[me], c.tm, pkts, Proc(Node(Resting, x.res), x.out), x.now, es,
         Proc(Node(Answered(r, x.now, SeesHolder(z.members)), z.x.res), z.x.out), z.x.now)
  }

  /** Somebody else has held r since time t. */
  ghost predicate HeldSince(c: Config, s: State, me: Id, r: Name, t: int) {
    Shape(c, s) && exists p :: p != me && HoldsSince(c, s, p, r, t)
  }

  lemma SegmentToAnswer(c: Config, run: seq<State>, steps: seq<Step>, me: Id, pkts: set<Packet>, x: Local, r: Name,
        es: seq<Event>, z: Asked)
    requires ValidConfig(c) && QueriesTimely(c) && me in c.specs && LivesIn(c, run, steps, me, x.res, es)
    requires Asks(c, me, pkts, x, r, es, z)
    ensures |run| == |steps| + 1 && (HeldSince(c, run[|steps|], me, r, x.now) ==> SeesHolder(z.members))
  {
    hide Path, Reachable, Segment, Shape, HoldsSince, QueriesTimely, SeesHolder;
    PathInNetwork(c, run, steps, me, pkts, Proc(Node(Resting, x.res), x.out), x.now, es,
                  Proc(Node(Answered(r, x.now, SeesHolder(z.members)), z.x.res), z.x.out), z.x.now);
    SegmentReachable(c, run, steps, |steps|);
    var s := run[|steps|];
    if HeldSince(c, s, me, r, x.now) {
      var p :| p != me && HoldsSince(c, s, p, r, x.now);
      AnswerStands(c, s, p, me);
    }
  }

  /** The object's `isBusy` never misses a holder: it answers true in every run of a timely system in
      which somebody else held the resource from the beginning of the query to its end. */
  lemma AskedInNetwork(c: Config, me: Id, pkts: set<Packet>, x: Local, r: Name, short: seq<Arrival>,
        long: seq<Arrival>)
    requires ValidConfig(c) && QueriesTimely(c) && me in c.specs && Covers(c.specs[me].count, x.res)
    requires r in c.specs[me].count && PacketsOf(short) <= pkts && PacketsOf(long) <= pkts
    ensures var z := Ask(me, c.specs[me].count, c.tm, x, r, short, long);
            && (exists es :: Asks(c, me, pkts, x, r, es, z))
            && forall es, run, steps :: Asks(c, me, pkts, x, r, es, z) && LivesIn(c, run, steps, me, x.res, es) ==>
                 |run| == |steps| + 1 && (HeldSince(c, run[|steps|], me, r, x.now) ==> SeesHolder(z.members))
  {
    hide Path, Ask, LivesIn, HeldSince, SeesHolder, QueriesTimely;
    var z := Ask(me, c.specs[me].count, c.tm, x, r, short, long);
    var es0 := AskIsPath(me, c.specs[me], c.tm, pkts, x, r, short, long);
    assert Asks(c, me, pkts, x, r, es0, z);
    hide Asks;
    forall es, run, steps | Asks(c, me, pkts, x, r, es, z) && LivesIn(c, run, steps, me, x.res, es)
      ensures |run| == |steps| + 1 && (HeldSince(c, run[|steps|], me, r, x.now) ==> SeesHolder(z.members))
    {
      SegmentToAnswer(c, run, steps, me, pkts, x, r, es, z);
    }
  }
}
