/** The member tables over whole runs: what they hold, how fresh it is, and what they forget. */
module Tables {
  import opened Protocol
  import opened Network
  import opened Invariants
  import opened Exclusion
  import opened Traces

  // ---- the last delivery that counts ----

  predicate Declares(c: Config, s: State, q: Id, r: Name) {
    Has(c, q, r) && q in s.nodes && r in s.nodes[q].res
  }

  /** The step delivers a packet of p about r to q, and it passes: q lives, its resource is not IDLE,
      and the declared counts agree or q is querying. */
  predicate Counts(c: Config, s: State, step: Step, p: Id, q: Id, r: Name) {
    && step.Deliver? && OnLink(step.pkt, p, q, r) && p != q
    && q in s.alive && Declares(c, s, q, r) && !s.nodes[q].res[r].state.Idle?
    && (step.pkt.count == c.specs[q].count[r] || s.nodes[q].res[r].state.Querying?)
  }

  /** The step is the reset of r by q. */
  predicate Clears(c: Config, s: State, step: Step, q: Id, r: Name) {
    && step.Do? && step.id == q && step.act.Reset? && q in s.nodes && q in c.specs && s.nodes[q].phase.Resetting?
    && s.nodes[q].phase.k < |c.specs[q].order| && c.specs[q].order[s.nodes[q].phase.k] == r
  }

  /** The index of the last step before i that delivers a counting packet and is followed by no
      reset, -1 if there is none. */
  function LastAt(c: Config, run: seq<State>, steps: seq<Step>, p: Id, q: Id, r: Name, i: nat): (j: int)
    requires i <= |steps| < |run|
    ensures -1 <= j < i
    ensures j >= 0 ==> Counts(c, run[j], steps[j], p, q, r)
    ensures forall k :: j < k < i && Counts(c, run[k], steps[k], p, q, r) ==>
              exists m :: k < m < i && Clears(c, run[m], steps[m], q, r)
    ensures j >= 0 ==> forall m :: j < m < i ==> !Clears(c, run[m], steps[m], q, r)
    ensures j >= 0 ==> forall m :: j < m < i ==> !Counts(c, run[m], steps[m], p, q, r)
  {
    if i == 0 then -1
    else if Counts(c, run[i - 1], steps[i - 1], p, q, r) then i - 1
    else if Clears(c, run[i - 1], steps[i - 1], q, r) then -1
    else LastAt(c, run, steps, p, q, r, i - 1)
  }

  predicate SameEntry(a: Table, b: Table, p: Id) {
    (p in a <==> p in b) && (p in a ==> a[p] == b[p])
  }

  /** What one step does to the entry that q has of p. */
  ghost predicate EntryMoves(c: Config, s: State, step: Step, s': State, p: Id, q: Id, r: Name)
    requires Declares(c, s, q, r) && Declares(c, s', q, r)
  {
    var m, m' := s.nodes[q].res[r].members, s'.nodes[q].res[r].members;
    if Counts(c, s, step, p, q, r) then p in m' && m'[p] == Member(step.pkt.state, step.pkt.count, s.now)
    else if Clears(c, s, step, q, r) then m' == map[]
    else SameEntry(m, m', p)
  }

  lemma EntryReceive(c: Config, s: State, pkt: Packet, keep: bool, p: Id, q: Id, r: Name)
    requires Shape(c, s) && Has(c, q, r)
    ensures EntryMoves(c, s, Deliver(pkt, keep), Receive(c, s, pkt, keep), p, q, r)
  {
  }

  /** Acting never adds a table entry: it keeps a table or clears it. */
  lemma TableStep(sp: Spec, tm: Timing, n: Node, act: Act, now: int, r: Name)
    requires ValidSpec(sp) && NodeOk(sp, tm, n, now) && CanAct(sp, tm, n, act, now) && r in sp.count
    ensures Perform(sp, tm, n, act, now).res[r].members
         == if act.Reset? && sp.order[n.phase.k] == r then map[] else n.res[r].members
  {
    hide NodeOk, WindowTime, ShortTime, LongTime;
    NodeKeys(sp, tm, n, now);
  }

  lemma NodeKeys(sp: Spec, tm: Timing, n: Node, now: int)
    requires NodeOk(sp, tm, n, now)
    ensures n.res.Keys == sp.count.Keys && forall r :: r in sp.order ==> r in n.res
  {
  }

  lemma EntryActs(c: Config, s: State, a: Id, act: Act, lost: set<(Id, Name)>, p: Id, q: Id, r: Name)
    requires ValidConfig(c) && Shape(c, s) && CanDo(c, s, a, act, lost) && Local(c, s, a) && Has(c, q, r)
    ensures EntryMoves(c, s, Do(a, act, lost), Acts(c, s, a, act, lost), p, q, r)
  {
    hide Acts, Perform, NodeOk, Local, ValidSpec, Announced;
    ActsNodes(c, s, a, act, lost);
    NodeOkOf(c, s, a);
    if q == a {
      TableStep(c.specs[a], c.tm, s.nodes[a], act, s.now, r);
    }
  }

  lemma EntryStep(c: Config, s: State, step: Step, p: Id, q: Id, r: Name)
    requires ValidConfig(c) && Basics(c, s) && Shape(c, s) && Enabled(c, s, step) && Has(c, q, r)
    ensures Declares(c, s, q, r) && Declares(c, Apply(c, s, step), q, r)
    ensures EntryMoves(c, s, step, Apply(c, s, step), p, q, r)
  {
    hide PacketOk, Receive, Acts, EntryMoves, Local;
    match step
    case Tick => EntryRests(c, s, step, p, q, r);
    case Crash(x) => EntryRests(c, s, step, p, q, r);
    case Deliver(pkt, keep) => EntryReceive(c, s, pkt, keep, p, q, r);
    case Do(a, act, lost) =>
      assert Local(c, s, a);
      EntryActs(c, s, a, act, lost, p, q, r);
  }

  lemma EntryRests(c: Config, s: State, step: Step, p: Id, q: Id, r: Name)
    requires ValidConfig(c) && Shape(c, s) && Enabled(c, s, step) && Has(c, q, r) && (step.Tick? || step.Crash?)
    ensures EntryMoves(c, s, step, Apply(c, s, step), p, q, r)
  {
  }

  /** The entry at time i is what the last counting delivery said. */
  ghost predicate EntryIs(c: Config, run: seq<State>, steps: seq<Step>, i: nat, p: Id, q: Id, r: Name)
    requires i <= |steps| < |run|
  {
    && Declares(c, run[i], q, r)
    && var m, j := run[i].nodes[q].res[r].members, LastAt(c, run, steps, p, q, r, i);
       && (p in m <==> j >= 0)
       && (j >= 0 ==> m[p] == Member(steps[j].pkt.state, steps[j].pkt.count, run[j].now))
  }

  lemma EntryNext(c: Config, run: seq<State>, steps: seq<Step>, i: nat, p: Id, q: Id, r: Name)
    requires i < |steps| < |run| && EntryIs(c, run, steps, i, p, q, r)
    requires Declares(c, run[i + 1], q, r) && EntryMoves(c, run[i], steps[i], run[i + 1], p, q, r)
    ensures EntryIs(c, run, steps, i + 1, p, q, r)
  {
    hide Counts, Clears, Declares;
  }

  lemma {:induction false} EntryAt(c: Config, run: seq<State>, steps: seq<Step>, i: nat, p: Id, q: Id, r: Name)
    requires ValidConfig(c) && IsTrace(c, run, steps) && i <= |steps| < |run| && Has(c, q, r)
    ensures EntryIs(c, run, steps, i, p, q, r)
    decreases i
  {
    hide Basics, Apply, Enabled, EntryIs, EntryMoves, Segment, Shape, Declares;
    if i == 0 {
      EntryFirst(c, run, steps, p, q, r);
    } else {
      EntryAt(c, run, steps, i - 1, p, q, r);
      BasicsAt(c, run, steps, i - 1);
      StepOfTrace(c, run, steps, i - 1);
      EntryStep(c, run[i - 1], steps[i - 1], p, q, r);
      EntryNext(c, run, steps, i - 1, p, q, r);
    }
  }

  lemma EntryFirst(c: Config, run: seq<State>, steps: seq<Step>, p: Id, q: Id, r: Name)
    requires ValidConfig(c) && IsTrace(c, run, steps) && |steps| < |run| && Has(c, q, r)
    ensures EntryIs(c, run, steps, 0, p, q, r)
  {
    hide Via, Shape;
  }

  /** The table of q about r holds an entry of p exactly when some counting packet of p was
      delivered since the last reset, and the entry is what the last of them said, with its time. */
  lemma TableIsLastDelivered(c: Config, run: seq<State>, steps: seq<Step>, i: nat, p: Id, q: Id, r: Name)
    requires ValidConfig(c) && IsTrace(c, run, steps) && i < |run| && Has(c, q, r)
    ensures |run| == |steps| + 1 && Declares(c, run[i], q, r)
    ensures var m, j := run[i].nodes[q].res[r].members, LastAt(c, run, steps, p, q, r, i);
            && (p in m <==> j >= 0)
            && (j >= 0 ==> m[p] == Member(steps[j].pkt.state, steps[j].pkt.count, run[j].now))
  {
    hide IsTrace, LastAt, Declares;
    TraceLength(c, run, steps);
    EntryAt(c, run, steps, i, p, q, r);
  }

  // ---- freshness ----

  /** What a step that is no reset of r by q leaves alone. */
  ghost predicate Forward(c: Config, s: State, s': State, q: Id, r: Name)
    requires Shape(c, s) && Shape(c, s') && Has(c, q, r)
  {
    s.sent <= s'.sent && s.now <= s'.now && s'.clocks[q][r].resetAt == s.clocks[q][r].resetAt
  }

  lemma StepForward(c: Config, s: State, step: Step, q: Id, r: Name)
    requires ValidConfig(c) && Shape(c, s) && Enabled(c, s, step) && Has(c, q, r) && !Clears(c, s, step, q, r)
    ensures Forward(c, s, Apply(c, s, step), q, r)
  {
    hide Acts, CanDo, CanTick;
    if step.Do? {
      ActsForward(c, s, step.id, step.act, step.lost, q, r);
    }
  }

  lemma ActsForward(c: Config, s: State, a: Id, act: Act, lost: set<(Id, Name)>, q: Id, r: Name)
    requires ValidConfig(c) && Shape(c, s) && CanDo(c, s, a, act, lost) && Has(c, q, r)
          && !Clears(c, s, Do(a, act, lost), q, r)
    ensures Forward(c, s, Acts(c, s, a, act, lost), q, r)
  {
    hide Acts, Announced, Perform, Broadcast, ValidConfig;
    NamesIn(c, s, a);
    ActsNodes(c, s, a, act, lost);
    ActsNet(c, s, a, act, lost);
    ActsClocks(c, s, a, act, lost);
    if act.Reset? && a == q {
      ResetAnnounces(c.specs[q], c.tm, s.nodes[q], s.now, r);
    }
  }

  lemma ResetAnnounces(sp: Spec, tm: Timing, n: Node, now: int, r: Name)
    requires (forall r :: r in sp.order ==> r in n.res) && CanAct(sp, tm, n, Reset, now)
    ensures r in Announced(sp, tm, n, Reset, now) ==> sp.order[n.phase.k] == r
  {
  }

  lemma {:induction false} NotCleared(c: Config, run: seq<State>, steps: seq<Step>, j: nat, i: nat, q: Id, r: Name)
    requires ValidConfig(c) && IsTrace(c, run, steps) && j <= i < |run| && Has(c, q, r)
    requires forall m :: j <= m < i ==> !Clears(c, run[m], steps[m], q, r)
    ensures Shape(c, run[i]) && Shape(c, run[j]) && Forward(c, run[j], run[i], q, r)
    decreases i
  {
    hide Basics, Apply, Enabled, Clears, Init, Shape;
    BasicsAt(c, run, steps, i);
    BasicsAt(c, run, steps, j);
    if j < i {
      NotCleared(c, run, steps, j, i - 1, q, r);
      StepOfSegment(c, run, steps, i - 1);
      StepForward(c, run[i - 1], steps[i - 1], q, r);
    }
  }

  /** A packet that was delivered was sent, and not longer than the delay ago. */
  lemma DeliveredWasSent(c: Config, s: State, step: Step)
    requires ValidConfig(c) && Basics(c, s) && Shape(c, s) && Enabled(c, s, step) && step.Deliver?
    ensures step.pkt in s.sent && step.pkt.sentAt < s.now <= step.pkt.sentAt + c.delay
  {
    hide Local, DueOk, ClockOk, MissedOk;
    assert PacketOk(c, s, step.pkt);
  }

  lemma ResetInPast(c: Config, s: State, q: Id, r: Name)
    requires ValidConfig(c) && Basics(c, s) && Shape(c, s) && Has(c, q, r)
    ensures s.clocks[q][r].resetAt <= s.now
  {
    hide Local, DueOk, MissedOk, PacketOk;
    assert ClockOk(c, s, q, r);
  }

  /** Every entry repeats a packet that was really sent by that process, about this resource, to this
      lock: received since the table was last cleared, hence sent no earlier than that minus the delay. */
  lemma TableSoundness(c: Config, s: State, q: Id, r: Name, p: Id)
    requires ValidConfig(c) && Reachable(c, s) && Shape(c, s)
    requires Has(c, q, r) && p in s.nodes[q].res[r].members
    ensures var m := s.nodes[q].res[r].members[p];
            exists pkt :: pkt in s.sent && OnLink(pkt, p, q, r) && pkt.state == m.state && pkt.count == m.count
                          && s.clocks[q][r].resetAt - c.delay <= pkt.sentAt < m.heardAt <= s.now
  {
    hide Reachable, IsTrace, Basics, Clears, Shape;
    var run, steps := ReachableTrace(c, s);
    TraceLength(c, run, steps);
    var i := |steps|;
    var j := LastAt(c, run, steps, p, q, r, i);
    TableIsLastDelivered(c, run, steps, i, p, q, r);
    assert !Clears(c, run[j], steps[j], q, r) by {
      DeliveryNoReset(c, run[j], steps[j], p, q, r);
    }
    NotCleared(c, run, steps, j, i, q, r);
    BasicsAt(c, run, steps, j);
    StepOfTrace(c, run, steps, j);
    DeliveredWasSent(c, run[j], steps[j]);
    ResetInPast(c, run[j], q, r);
    assert steps[j].pkt in s.sent;
  }

  lemma DeliveryNoReset(c: Config, s: State, step: Step, p: Id, q: Id, r: Name)
    requires Counts(c, s, step, p, q, r)
    ensures step.Deliver? && OnLink(step.pkt, p, q, r) && !Clears(c, s, step, q, r)
  {
  }

  lemma TraceLength(c: Config, run: seq<State>, steps: seq<Step>)
    requires ValidConfig(c) && IsTrace(c, run, steps)
    ensures |run| == |steps| + 1
  {
  }

  /** A process that sent no ACQUIRED packet after time x, because it crashed or released, does not
      count as a holder in a table that was cleared later than x plus the delay. */
  lemma StaleHolderForgotten(c: Config, s: State, q: Id, r: Name, p: Id, x: int)
    requires ValidConfig(c) && Reachable(c, s) && Shape(c, s) && Has(c, q, r)
    requires forall pkt :: pkt in s.sent && OnLink(pkt, p, q, r) && pkt.state.Acquired? ==> pkt.sentAt <= x
    requires s.clocks[q][r].resetAt > x + c.delay
    ensures p !in Busy(s.nodes[q].res[r].members)
  {
    if p in Busy(s.nodes[q].res[r].members) {
      TableSoundness(c, s, q, r, p);
    }
  }

  /** An IDLE resource remembers nobody. */
  lemma IdleTableEmpty(c: Config, s: State, q: Id, r: Name)
    requires ValidConfig(c) && Reachable(c, s) && Shape(c, s) && Has(c, q, r)
    requires s.nodes[q].res[r].state.Idle?
    ensures s.nodes[q].res[r].members == map[]
  {
    hide Reachable, PacketOk, DueOk, ClockOk, MissedOk, PhaseOk, ValidSpec;
    ReachableBasics(c, s);
    assert Local(c, s, q);
  }
}
