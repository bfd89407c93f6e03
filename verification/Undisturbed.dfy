/** Solo progress over all runs: an attempt that no foreign ACQUIRING packet reaches, and that finds
    room at its checks, cannot fail. */
module Undisturbed {
  import opened Protocol
  import opened Network
  import opened Invariants
  import opened Exclusion
  import opened Traces

  /** The step does not disturb the attempt of process a: it brings a no ACQUIRING packet about a
      known resource, a commit check finds room, and a neither crashes nor releases. */
  ghost predicate Harmless(c: Config, s: State, step: Step, a: Id)
    requires a in c.specs && a in s.nodes
  {
    match step
    case Tick => true
    case Crash(p) => p != a
    case Deliver(pkt, _) => pkt.dst == a && pkt.src != a && pkt.name in c.specs[a].count ==> !pkt.state.Acquiring?
    case Do(p, act, _) => p == a ==> !act.Release? && (act.Check? ==> FindsRoom(c.specs[a], s.nodes[a]))
  }

  ghost predicate FindsRoom(sp: Spec, n: Node) {
    n.phase.Checking? && n.phase.k < |sp.order| ==>
      var r := sp.order[n.phase.k];
      r in n.res && r in sp.count ==> HasRoom(n.res[r].members, sp.count[r])
  }

  /** A step with which a drives its attempt on. */
  predicate Drives(step: Step, a: Id) {
    step.Do? && step.id == a && !step.act.Beacon?
  }

  function Driven(steps: seq<Step>, a: Id, from: nat, to: nat): nat
    requires from <= to <= |steps|
  {
    if from == to then 0 else Driven(steps, a, from, to - 1) + if Drives(steps[to - 1], a) then 1 else 0
  }

  /** How many steps an attempt has behind it. */
  function Rank(sp: Spec, ph: Phase): nat {
    match ph
    case Window(_, _) => 1
    case Checking(_, _, k) => 2 + k
    case Held(_, _) => 2 + |sp.order|
    case _ => 0
  }

  /** The attempt that began to listen at l is under way with that many steps, or has succeeded. */
  predicate OnCourse(sp: Spec, n: Node, l: int, k: nat) {
    && Rank(sp, n.phase) == k
    && (n.phase.Listening? || n.phase.Window? || n.phase.Checking? || n.phase.Held?) && n.phase.l == l
    && (n.phase.Held? ==> forall r :: r in n.res ==> n.res[r].state.Acquired?)
  }

  lemma ActsOnCourse(sp: Spec, tm: Timing, n: Node, act: Act, now: int, l: int, k: nat)
    requires ValidSpec(sp) && NodeOk(sp, tm, n, now) && CanAct(sp, tm, n, act, now) && OnCourse(sp, n, l, k)
    requires !act.Release? && (act.Check? ==> FindsRoom(sp, n))
    ensures OnCourse(sp, Perform(sp, tm, n, act, now), l, if act.Beacon? then k else k + 1)
  {
    hide WindowTime, LongTime, ShortTime, Acquirable, HasRoom;
    if act.Check? {
      HasRoomIff(n.res[sp.order[n.phase.k]].members, sp.count[sp.order[n.phase.k]]);
      AttemptEnds(sp, tm, n, act, now, sp.order[n.phase.k]);
      forall r | r in Perform(sp, tm, n, act, now).res && Perform(sp, tm, n, act, now).phase.Held?
        ensures Perform(sp, tm, n, act, now).res[r].state.Acquired?
      {
        AttemptEnds(sp, tm, n, act, now, r);
      }
    }
  }

  lemma HearsOnCourse(sp: Spec, tm: Timing, n: Node, pkt: Packet, now: int, l: int, k: nat)
    requires pkt.name in n.res && pkt.name in sp.count && !pkt.state.Acquiring? && OnCourse(sp, n, l, k)
    ensures OnCourse(sp, OnPacket(sp, tm, n, pkt, now), l, k)
  {
  }

  lemma StepOnCourse(c: Config, s: State, step: Step, a: Id, l: int, k: nat)
    requires ValidConfig(c) && Basics(c, s) && Shape(c, s) && Enabled(c, s, step) && a in c.specs
          && Harmless(c, s, step, a)
    requires OnCourse(c.specs[a], s.nodes[a], l, k)
    ensures a in Apply(c, s, step).nodes
    ensures OnCourse(c.specs[a], Apply(c, s, step).nodes[a], l, if Drives(step, a) then k + 1 else k)
  {
    hide Basics, Receive, OnCourse, Acts, FindsRoom, CanDo, CanTick, ValidConfig;
    match step
    case Tick =>
    case Crash(_) =>
    case Deliver(pkt, keep) => HearOnCourse(c, s, pkt, keep, a, l, k);
    case Do(p, act, lost) => DoOnCourse(c, s, p, act, lost, a, l, k);
  }

  lemma HearOnCourse(c: Config, s: State, pkt: Packet, keep: bool, a: Id, l: int, k: nat)
    requires Shape(c, s) && a in c.specs && OnCourse(c.specs[a], s.nodes[a], l, k)
    requires Harmless(c, s, Deliver(pkt, keep), a)
    ensures a in Receive(c, s, pkt, keep).nodes && OnCourse(c.specs[a], Receive(c, s, pkt, keep).nodes[a], l, k)
  {
    hide OnPacket, OnCourse;
    if pkt.dst == a && pkt.src != a && Has(c, a, pkt.name) {
      HearsOnCourse(c.specs[a], c.tm, s.nodes[a], pkt, s.now, l, k);
    }
  }

  lemma DoOnCourse(c: Config, s: State, p: Id, act: Act, lost: set<(Id, Name)>, a: Id, l: int, k: nat)
    requires ValidConfig(c) && Basics(c, s) && Shape(c, s) && CanDo(c, s, p, act, lost) && a in c.specs
    requires Harmless(c, s, Do(p, act, lost), a) && OnCourse(c.specs[a], s.nodes[a], l, k)
    ensures OnCourse(c.specs[a], Acts(c, s, p, act, lost).nodes[a], l, if Drives(Do(p, act, lost), a) then k + 1 else k)
  {
    hide Basics, Perform, OnCourse, Acts, FindsRoom, Announced, CanAct, ValidConfig;
    ActsNodes(c, s, p, act, lost);
    if p == a {
      LocalOf(c, s, a);
      ActsOnCourse(c.specs[a], c.tm, s.nodes[a], act, s.now, l, k);
    }
  }

  lemma LocalOf(c: Config, s: State, a: Id)
    requires ValidConfig(c) && Basics(c, s) && Shape(c, s) && a in c.specs
    ensures ValidSpec(c.specs[a]) && NodeOk(c.specs[a], c.tm, s.nodes[a], s.now)
  {
    hide DueOk, ClockOk, MissedOk, PacketOk, Local, NodeOk;
    assert Local(c, s, a);
    NodeOkOf(c, s, a);
  }

  ghost predicate AllHarmless(c: Config, run: seq<State>, steps: seq<Step>, a: Id, from: nat, to: nat)
    requires to <= |steps| < |run| && a in c.specs
  {
    forall i :: from <= i < to ==> a in run[i].nodes && Harmless(c, run[i], steps[i], a)
  }

  lemma {:induction false} StaysOnCourse(c: Config, run: seq<State>, steps: seq<Step>, a: Id, i: nat, n: nat)
    requires ValidConfig(c) && IsTrace(c, run, steps) && i < n <= |steps| < |run| && a in c.specs
    requires steps[i].Do? && steps[i].id == a && steps[i].act.Listen? && AllHarmless(c, run, steps, a, i + 1, n)
    ensures a in run[n].nodes
    ensures OnCourse(c.specs[a], run[n].nodes[a], run[i].now, Driven(steps, a, i + 1, n))
    decreases n
  {
    hide Basics, Enabled, Apply, Harmless, OnCourse, IsTrace, Shape;
    StepOfTrace(c, run, steps, n - 1);
    BasicsAt(c, run, steps, n - 1);
    if n == i + 1 {
      ListenBegins(c, run[i], a, steps[i].lost);
    } else {
      StaysOnCourse(c, run, steps, a, i, n - 1);
      StepOnCourse(c, run[n - 1], steps[n - 1], a, run[i].now, Driven(steps, a, i + 1, n - 1));
    }
  }

  lemma ListenBegins(c: Config, s: State, a: Id, lost: set<(Id, Name)>)
    requires ValidConfig(c) && Shape(c, s) && Enabled(c, s, Do(a, Listen, lost))
    ensures var s' := Apply(c, s, Do(a, Listen, lost));
            a in s'.nodes && a in c.specs && OnCourse(c.specs[a], s'.nodes[a], s.now, 0)
  {
    hide Acts;
    ActsNodes(c, s, a, Listen, lost);
  }

  /** In every run, from the moment process a begins to listen and for as long as nothing disturbs
      it, its attempt goes forward by one with each of its own steps and never back; after the
      announcement, the expiry and one check for each resource it holds all of them. */
  lemma UndisturbedSucceeds(c: Config, run: seq<State>, steps: seq<Step>, a: Id, i: nat, n: nat)
    requires ValidConfig(c) && IsTrace(c, run, steps) && i < n <= |steps| < |run| && a in c.specs
    requires steps[i].Do? && steps[i].id == a && steps[i].act.Listen? && AllHarmless(c, run, steps, a, i + 1, n)
    ensures a in run[n].nodes && Driven(steps, a, i + 1, n) <= |c.specs[a].order| + 2
    ensures !run[n].nodes[a].phase.Resting? && !run[n].nodes[a].phase.Resetting?
    ensures Driven(steps, a, i + 1, n) == |c.specs[a].order| + 2 ==>
              run[n].nodes[a].phase.Held?
              && forall r :: r in run[n].nodes[a].res ==> run[n].nodes[a].res[r].state.Acquired?
  {
    hide IsTrace, AllHarmless, Basics, Shape;
    StaysOnCourse(c, run, steps, a, i, n);
    BasicsAt(c, run, steps, n);
    LocalOf(c, run[n], a);
    ChecksLeft(c.specs[a], c.tm, run[n].nodes[a], run[n].now);
  }

  lemma ChecksLeft(sp: Spec, tm: Timing, n: Node, now: int)
    requires NodeOk(sp, tm, n, now)
    ensures n.phase.Checking? ==> n.phase.k < |sp.order|
  {
  }
}
