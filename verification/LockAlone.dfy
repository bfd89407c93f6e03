/** The results about the lock object in the network speak of something: whatever the object does
    while it hears nothing happens in a run of the system, and left alone it acquires. */
module LockAlone {
  import opened Protocol
  import opened Network
  import opened Progress
  import opened Tightness
  import opened LockSpec
  import opened LockLaws
  import opened LockResults
  import opened LockRefines
  import opened LockInNetwork

  /** A step before the rest of an interleaving. */
  lemma StepsOn(c: Config, s: State, step: Step, run: seq<State>, steps: seq<Step>, me: Id, es: seq<Event>)
    requires ValidConfig(c) && me in c.specs && |run| > 0 && Foreign(step, me)
    requires NextVia(c, s, step, run[0]) && Interleaves(c, run, steps, me, es)
    ensures Interleaves(c, [s] + run, [step] + steps, me, es)
  {
    hide Foreign, Enabled, Apply, Shape;
    assert ([s] + run)[1..] == run && ([step] + steps)[1..] == steps;
  }

  lemma EventOn(c: Config, s: State, step: Step, run: seq<State>, steps: seq<Step>, me: Id, es: seq<Event>)
    requires ValidConfig(c) && me in c.specs && |es| > 0 && |run| > 0
    requires NextVia(c, s, step, run[0]) && Performs(c, s, step, me, es[0])
    requires Interleaves(c, run, steps, me, es[1..])
    ensures Interleaves(c, [s] + run, [step] + steps, me, es)
  {
    hide Performs, Enabled, Apply, Shape;
    assert ([s] + run)[1..] == run && ([step] + steps)[1..] == steps;
  }

  /** Something else than me can happen before the clock reaches t, and leads closer to t. */
  lemma Passes(c: Config, s: State, me: Id, t: int) returns (step: Step)
    requires ValidConfig(c) && Shape(c, s) && Alone(c, s, me) && s.now < t
    ensures Enabled(c, s, step) && Foreign(step, me)
    ensures var s' := Apply(c, s, step);
            && Alone(c, s', me) && s'.nodes == s.nodes && s'.now <= t
            && (|| (s'.now == s.now && Overdue(c, s') < Overdue(c, s))
                || (s'.now == s.now && Overdue(c, s') == Overdue(c, s) && Owed(c, s') < Owed(c, s))
                || s'.now == s.now + 1)
  {
    hide Apply, Shape, ValidConfig, Alone, Receive, Enabled;
    if Overdue(c, s) != {} {
      var pkt :| pkt in Overdue(c, s);
      DeliverOverdue(c, s, pkt);
      OverdueKeeps(c, s, pkt, me);
      NotToMe(c, s, pkt, me);
      step := Deliver(pkt, false);
    } else if Owed(c, s) != {} {
      var o :| o in Owed(c, s);
      SendOwed(c, s, o.0, o.1, {});
      SendKeeps(c, s, o.0, o.1, me);
      step := Do(o.0, Beacon(o.1), {});
    } else {
      NothingUrgent(c, s);
      TickKeeps(c, s, me);
      step := Tick;
    }
  }

  lemma NotToMe(c: Config, s: State, pkt: Packet, me: Id)
    requires Shape(c, s) && Alone(c, s, me) && pkt in Overdue(c, s)
    ensures pkt.dst != me
  {
  }

  lemma TickKeeps(c: Config, s: State, me: Id)
    requires ValidConfig(c) && Shape(c, s) && Alone(c, s, me) && CanTick(c, s)
    ensures Enabled(c, s, Tick)
    ensures var s' := Apply(c, s, Tick); Alone(c, s', me) && s'.nodes == s.nodes && s'.now == s.now + 1
  {
  }

  /** An event of a process that hears nothing is a step that leaves it alone. */
  lemma EventAlone(c: Config, s: State, me: Id, p: Proc, e: Event)
    requires ValidConfig(c) && Shape(c, s) && me in c.specs && Alone(c, s, me) && s.nodes[me] == p.node
    requires e.Did? && e.at == s.now && Possible(c.specs[me], c.tm, p, e)
    ensures var step := Do(me, e.act, {});
            && Performs(c, s, step, me, e) && Enabled(c, s, step)
            && var s' := Apply(c, s, step);
               s'.now == s.now && Alone(c, s', me) && s'.nodes[me] == After(me, c.specs[me], c.tm, p, e).node
  {
    hide Apply, Enabled, Alone, Perform, Announced, CanAct;
    OwnStep(c, s, me, e.act);
    EventIsStep(c, s, Do(me, e.act, {}), me, p, e) by {
      AliveAlone(c, s, me);
    }
  }

  lemma AliveAlone(c: Config, s: State, me: Id)
    requires Shape(c, s) && Alone(c, s, me)
    ensures me in s.alive
  {
  }

  /** Every path that hears nothing happens in the system, from every state in which the process is
      alone and stands where the path begins. */
  lemma {:induction false} PathHappens(c: Config, s: State, me: Id, p: Proc, from: int, es: seq<Event>, p': Proc,
        to: int) returns (run: seq<State>, steps: seq<Step>)
    requires ValidConfig(c) && Shape(c, s) && me in c.specs && Alone(c, s, me) && s.nodes[me] == p.node && s.now <= from
    requires Path(me, c.specs[me], c.tm, {}, p, from, es, p', to)
    ensures |run| > 0 && run[0] == s && Interleaves(c, run, steps, me, es)
    decreases |es|, if |es| == 0 then 0 else es[0].at - s.now, |Overdue(c, s)|, |Owed(c, s)|
  {
    hide Apply, Enabled, Shape, Alone, Possible, After, Foreign, Performs, Overdue, Owed;
    if |es| == 0 {
      run, steps := [s], [];
    } else if s.now < es[0].at {
      var step := Passes(c, s, me, es[0].at);
      var s' := Apply(c, s, step);
      SmallerSets(Overdue(c, s'), Overdue(c, s));
      SmallerSets(Owed(c, s'), Owed(c, s));
      var rest, more := PathHappens(c, s', me, p, es[0].at, es, p', to);
      StepsOn(c, s, step, rest, more, me, es);
      run, steps := [s] + rest, [step] + more;
    } else {
      EventAlone(c, s, me, p, es[0]);
      var step := Do(me, es[0].act, {});
      var s' := Apply(c, s, step);
      var rest, more := PathHappens(c, s', me, After(me, c.specs[me], c.tm, p, es[0]), es[0].at, es[1..], p', to);
      EventOn(c, s, step, rest, more, me, es);
      run, steps := [s] + rest, [step] + more;
    }
  }

  lemma SmallerSets<T>(a: set<T>, b: set<T>)
    ensures a < b ==> |a| < |b|
  {
    if a < b {
      assert |b| == |a| + |b - a| by {
        assert b == a + (b - a);
      }
      assert b - a != {};
    }
  }

  // ---- an acquisition that hears nothing ----

  /** The environment of one attempt in which nothing arrives. */
  predicate Silent(a: Script) {
    a.listen == [] && a.window == [] && a.backoff == []
  }

  /** The tables of a lock whose process has done nothing yet. */
  function Fresh(counts: Counts): (res: map<Name, Res>)
    ensures Covers(counts, res)
  {
    map r | r in counts :: Res(Idle, map[])
  }

  lemma SilentWins(me: Id, counts: Counts, tm: Timing, targets: seq<Name>, x: Local, a: Script)
    requires Covers(counts, x.res) && GoodScript(tm, a) && Silent(a) && forall r :: r in targets ==> r in counts
    requires forall r :: r in targets ==> Busy(x.res[r].members) == {} && counts[r] >= 1
    ensures TryOnce(me, counts, tm, targets, x, a).1.Won?
  {
    hide TryOnce, Busy;
    forall r | r in targets ensures HasRoom(Windowed(me, counts, tm, targets, x, a).res[r].members, counts[r]) {
      HasRoomIff(x.res[r].members, counts[r]);
      assert Acquirable(x.res[r].members, counts[r]);
    }
    hide HasRoom;
    AttemptWinsIff(me, counts, tm, targets, x, a);
  }

  /** In every system the lock object of any process, left alone, acquires everything it declares at
      its first attempt, and does so in a run of the system. */
  lemma AloneAcquires(c: Config, me: Id, a: Script, retryMax: nat)
    returns (es: seq<Event>, run: seq<State>, steps: seq<Step>)
    requires ValidConfig(c) && me in c.specs && |c.specs[me].order| > 0 && GoodScript(c.tm, a) && Silent(a)
    ensures var x := Local(Fresh(c.specs[me].count), 0, []);
            var z := AcquireAll(c, me, x, [a], retryMax);
            z.outcome.Locked? && Acquires(c, me, {}, x, es, z.x) && LivesIn(c, run, steps, me, x.res, es)
  {
    hide Path, Acquire, GoodScript, Interleaves, Heardable, TryOnce, ValidSpec, Init, Shape, ValidConfig;
    var sp := c.specs[me];
    var x := Local(Fresh(sp.count), 0, []);
    SpecFacts(c, me);
    SilentScript(a);
    var ph;
    es, ph := AdquireLockIsPath(me, sp, c.tm, {}, x, [a], retryMax);
    StartsAlone(c, me);
    var y := AcquireAll(c, me, x, [a], retryMax).x;
    run, steps := PathHappens(c, Init(c), me, Proc(Node(Resting, x.res), x.out), x.now, es,
                              Proc(Node(ph, y.res), y.out), y.now);
    StartReachable(c);
    StartedWins(me, sp, c.tm, x, a, retryMax);
  }

  lemma SpecFacts(c: Config, me: Id)
    requires ValidConfig(c) && me in c.specs
    ensures ValidSpec(c.specs[me]) && Named(c.specs[me])
  {
  }

  lemma SilentScript(a: Script)
    requires Silent(a)
    ensures Heardable(a) == {}
  {
  }

  lemma StartsAlone(c: Config, me: Id)
    requires ValidConfig(c) && me in c.specs
    ensures Shape(c, Init(c)) && Alone(c, Init(c), me) && Init(c).now == 0
    ensures me in Init(c).alive && Init(c).nodes[me] == Node(Resting, Fresh(c.specs[me].count))
  {
  }

  lemma StartedWins(me: Id, sp: Spec, tm: Timing, x: Local, a: Script, retryMax: nat)
    requires ValidSpec(sp) && Named(sp) && GoodScript(tm, a) && Silent(a) && x.res == Fresh(sp.count)
    ensures Acquire(me, sp.count, tm, sp.order, SetStates(sp.count, x, sp.order, Starting, 0), [a], 0,
                    retryMax).outcome.Locked?
  {
    hide SetStates, TryOnce, GoodScript;
    WholeRound(sp.count, x, sp.order, Starting);
    var y := SetStates(sp.count, x, sp.order, Starting, 0);
    forall r | r in sp.order ensures Busy(y.res[r].members) == {} && sp.count[r] >= 1 {
      assert y.res[r].members == map[];
    }
    hide Painted, Said;
    SilentWins(me, sp.count, tm, sp.order, y, a);
    AcquireUnfolds(me, sp.count, tm, sp.order, y, [a], 0, retryMax);
  }
}
