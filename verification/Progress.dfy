/** The distributed model is not vacuous: whatever has happened, time can go on, and a process that
    is left alone can acquire everything it asks for. */
module Progress {
  import opened Protocol
  import opened Network

  /** A sequence of steps from wherever it begins. */
  ghost predicate Leads(c: Config, s: State, path: seq<State>, s': State)
    requires ValidConfig(c)
  {
    |path| > 0 && path[0] == s && path[|path| - 1] == s' && forall i :: StepAt(c, path, i)
  }

  lemma LeadsOne(c: Config, s: State, step: Step) returns (path: seq<State>)
    requires ValidConfig(c) && Shape(c, s) && Enabled(c, s, step)
    ensures Leads(c, s, path, Apply(c, s, step))
  {
    hide Enabled, Apply, Shape;
    var s' := Apply(c, s, step);
    path := [s, s'];
    assert NextVia(c, s, step, s');
    assert Next(c, s, s');
  }

  lemma LeadsOn(c: Config, s: State, p: seq<State>, s': State, q: seq<State>, s'': State) returns (path: seq<State>)
    requires ValidConfig(c) && Leads(c, s, p, s') && Leads(c, s', q, s'')
    ensures Leads(c, s, path, s'')
  {
    hide Next;
    path := p + q[1..];
    forall i ensures StepAt(c, path, i) {
      assert StepAt(c, p, i) && StepAt(c, q, i - |p| + 1);
      if |p| - 1 <= i < |path| - 1 {
        assert path[i] == q[i - |p| + 1] && path[i + 1] == q[i - |p| + 2];
      }
    }
  }

  /** Nobody but a does anything: the others are idle, and only a's packets are on their way. */
  ghost predicate Alone(c: Config, s: State, a: Id)
    requires Shape(c, s)
  {
    && (forall q :: q in c.specs && q != a ==>
         s.nodes[q].phase.Resting? && forall r :: r in s.nodes[q].res ==> s.nodes[q].res[r].state.Idle?)
    && (forall pkt :: pkt in s.net ==> pkt.dst != a)
    && a in s.alive
  }

  /** s' differs from s in nothing that a process knows. */
  ghost predicate Kept(c: Config, s: State, s': State, a: Id)
    requires Shape(c, s) && Shape(c, s')
  {
    Alone(c, s, a) ==> Alone(c, s', a) && s'.nodes == s.nodes
  }

  // ---- time can pass ----

  /** The packets that must be delivered before time may pass. */
  ghost function Overdue(c: Config, s: State): set<Packet> {
    set pkt | pkt in s.net && s.now >= pkt.sentAt + c.delay
  }

  /** The beacons that must be sent before time may pass. */
  ghost function Owed(c: Config, s: State): set<(Id, Name)>
    requires Shape(c, s)
  {
    set p, r | p in s.alive && r in c.specs[p].count && IsClaim(s.nodes[p].res[r].state)
        && s.now >= s.clocks[p][r].due :: (p, r)
  }

  lemma DeliverOverdue(c: Config, s: State, pkt: Packet)
    requires ValidConfig(c) && Shape(c, s) && pkt in Overdue(c, s)
    ensures Enabled(c, s, Deliver(pkt, false))
    ensures var s' := Apply(c, s, Deliver(pkt, false)); s'.now == s.now && Overdue(c, s') == Overdue(c, s) - {pkt}
  {
    hide OnPacket;
  }

  lemma DeliverKeeps(c: Config, s: State, pkt: Packet, a: Id)
    requires Shape(c, s) && pkt in s.net
    ensures Kept(c, s, Receive(c, s, pkt, false), a)
  {
    if Alone(c, s, a) && pkt.dst in s.alive && Has(c, pkt.dst, pkt.name) && pkt.src != pkt.dst {
      var n := s.nodes[pkt.dst];
      assert OnPacket(c.specs[pkt.dst], c.tm, n, pkt, s.now) == n;
    }
    hide OnPacket;
  }

  /** The medium may lose these packets of a beacon. */
  ghost predicate MayLose(c: Config, s: State, p: Id, r: Name, lost: set<(Id, Name)>) {
    forall q, x :: (q, x) in lost ==> x == r && Missed(s, p, q, r) + 1 < c.burst
  }

  /** What a beacon of process p changes. */
  lemma BeaconEffect(c: Config, s: State, p: Id, r: Name, lost: set<(Id, Name)>)
    requires ValidConfig(c) && Shape(c, s) && p in s.alive && Has(c, p, r) && MayLose(c, s, p, r, lost)
    ensures Enabled(c, s, Do(p, Beacon(r), lost))
    ensures var s' := Apply(c, s, Do(p, Beacon(r), lost));
            && s'.now == s.now && s'.nodes == s.nodes && s'.alive == s.alive
            && s.net <= s'.net && (forall pkt :: pkt in s'.net - s.net ==> pkt.sentAt == s.now && pkt.dst != p)
            && (forall q, x :: q in c.specs && x in c.specs[q].count ==>
                 s'.clocks[q][x].due == if q == p && x == r then s.now + c.tm.beacon else s.clocks[q][x].due)
  {
    hide NewMissed, Broadcast, ValidSpec;
  }

  lemma SendOwed(c: Config, s: State, p: Id, r: Name, lost: set<(Id, Name)>)
    requires ValidConfig(c) && Shape(c, s) && (p, r) in Owed(c, s) && MayLose(c, s, p, r, lost)
    ensures Enabled(c, s, Do(p, Beacon(r), lost))
    ensures var s' := Apply(c, s, Do(p, Beacon(r), lost));
            s'.now == s.now && Overdue(c, s') == Overdue(c, s) && Owed(c, s') == Owed(c, s) - {(p, r)}
  {
    hide Apply, Enabled;
    BeaconEffect(c, s, p, r, lost);
  }

  lemma SendKeeps(c: Config, s: State, p: Id, r: Name, a: Id)
    requires ValidConfig(c) && Shape(c, s) && (p, r) in Owed(c, s) && Enabled(c, s, Do(p, Beacon(r), {}))
    ensures Kept(c, s, Apply(c, s, Do(p, Beacon(r), {})), a)
  {
    hide Apply, Enabled;
    BeaconEffect(c, s, p, r, {});
  }

  /** Whatever is urgent can be done, without time passing. */
  lemma {:induction false} Settle(c: Config, s: State, a: Id) returns (path: seq<State>, s': State)
    requires ValidConfig(c) && Shape(c, s)
    ensures Leads(c, s, path, s') && Shape(c, s') && CanTick(c, s') && s'.now == s.now && Kept(c, s, s', a)
    decreases |Overdue(c, s)|, |Owed(c, s)|
  {
    hide Apply, Enabled, Leads, Shape, ValidConfig, Alone;
    if Overdue(c, s) == {} && Owed(c, s) == {} {
      path, s' := [s], s;
      NothingUrgent(c, s);
    } else {
      var step;
      if Overdue(c, s) != {} {
        var pkt :| pkt in Overdue(c, s);
        DeliverOverdue(c, s, pkt);
        step := Deliver(pkt, false);
        OverdueKeeps(c, s, pkt, a);
      } else {
        var o :| o in Owed(c, s);
        SendOwed(c, s, o.0, o.1, {});
        SendKeeps(c, s, o.0, o.1, a);
        step := Do(o.0, Beacon(o.1), {});
      }
      var m := Apply(c, s, step);
      var p := LeadsOne(c, s, step);
      var q;
      q, s' := Settle(c, m, a);
      path := LeadsOn(c, s, p, m, q, s');
    }
  }

  lemma OverdueKeeps(c: Config, s: State, pkt: Packet, a: Id)
    requires ValidConfig(c) && Shape(c, s) && pkt in Overdue(c, s) && Enabled(c, s, Deliver(pkt, false))
    ensures Kept(c, s, Apply(c, s, Deliver(pkt, false)), a)
  {
    hide Receive, Alone, Kept;
    DeliverKeeps(c, s, pkt, a);
  }

  lemma NothingUrgent(c: Config, s: State)
    requires ValidConfig(c) && Shape(c, s) && Overdue(c, s) == {} && Owed(c, s) == {}
    ensures CanTick(c, s) && Leads(c, s, [s], s)
  {
    forall pkt | pkt in s.net ensures s.now < pkt.sentAt + c.delay {
      assert pkt !in Overdue(c, s);
    }
    forall p, r | p in s.alive && Has(c, p, r) && IsClaim(s.nodes[p].res[r].state) ensures s.now < s.clocks[p][r].due {
      assert (p, r) !in Owed(c, s);
    }
  }

  /** From every state, reachable or not, steps lead to a state one tick later: no obligation to
      deliver or to send ever blocks the clock. */
  lemma TimeNeverStuck(c: Config, s: State, a: Id) returns (path: seq<State>, s': State)
    requires ValidConfig(c) && Shape(c, s)
    ensures Leads(c, s, path, s') && Shape(c, s') && s'.now == s.now + 1 && Kept(c, s, s', a)
  {
    hide CanTick, Leads, Shape, ValidConfig;
    var p, m := Settle(c, s, a);
    var q := LeadsOne(c, m, Tick);
    s' := Apply(c, m, Tick);
    path := LeadsOn(c, s, p, m, q, s');
  }

  // ---- a process that is left alone ----

  /** Process a stands in that phase, all its resources in that state, and has heard nothing. */
  ghost predicate Stands(c: Config, s: State, a: Id, ph: Phase, st: LockState)
    requires Shape(c, s)
  {
    && Alone(c, s, a) && a in c.specs && s.nodes[a].phase == ph
    && forall r :: r in s.nodes[a].res ==> s.nodes[a].res[r] == Res(st, map[])
  }

  lemma {:induction false} LetPass(c: Config, s: State, a: Id, ph: Phase, st: LockState, t: int)
    returns (path: seq<State>, s': State)
    requires ValidConfig(c) && Shape(c, s) && Stands(c, s, a, ph, st) && s.now <= t
    ensures Leads(c, s, path, s') && Shape(c, s') && Stands(c, s', a, ph, st) && s'.now == t
    decreases t - s.now
  {
    hide Shape, ValidConfig, Alone, Next;
    if s.now == t {
      path, s' := [s], s;
    } else {
      var p, m := TimeNeverStuck(c, s, a);
      var q;
      q, s' := LetPass(c, m, a, ph, st, t);
      path := LeadsOn(c, s, p, m, q, s');
    }
  }

  /** A step of a changes a's node alone, and sends nothing to a. */
  lemma OwnStep(c: Config, s: State, a: Id, act: Act)
    requires ValidConfig(c) && Shape(c, s) && a in c.specs && Alone(c, s, a)
          && CanAct(c.specs[a], c.tm, s.nodes[a], act, s.now)
    ensures Enabled(c, s, Do(a, act, {}))
    ensures var s' := Apply(c, s, Do(a, act, {}));
            && s'.now == s.now && Alone(c, s', a)
            && s'.nodes == s.nodes[a := Perform(c.specs[a], c.tm, s.nodes[a], act, s.now)]
  {
    hide Perform, Announced, CanAct, NewMissed, NewClock, Broadcast, ValidSpec;
  }

  /** The act takes a process from one phase and state to the next. */
  predicate Leaps(tm: Timing, now: int, act: Act, ph: Phase, st: LockState, ph': Phase, st': LockState) {
    match act
    case Listen => ph.Resting? && ph' == Listening(now) && st'.Starting?
    case Announce => ph.Listening? && now >= ph.l + WindowTime(tm) && ph' == Window(ph.l, now) && st'.Acquiring?
    case Expire => ph.Window? && now >= ph.t + WindowTime(tm) && ph' == Checking(ph.l, ph.t, 0) && st' == st
    case _ => false
  }

  lemma NodeLeaps(sp: Spec, tm: Timing, n: Node, now: int, act: Act, ph: Phase, st: LockState, ph': Phase,
        st': LockState)
    requires n.res.Keys == sp.count.Keys && (forall r :: r in sp.order ==> r in n.res) && |sp.order| > 0
    requires n.phase == ph && (forall r :: r in n.res ==> n.res[r].state == st)
    requires Leaps(tm, now, act, ph, st, ph', st')
    ensures CanAct(sp, tm, n, act, now) && (act.Listen? || act.Announce? || act.Expire?)
    ensures Announced(sp, tm, n, act, now) == if act.Expire? then {} else n.res.Keys
    ensures var n' := Perform(sp, tm, n, act, now);
            && n'.phase == ph' && n'.res.Keys == n.res.Keys
            && forall r :: r in n.res ==> n'.res[r].state == st' && n'.res[r].members == n.res[r].members
  {
    hide WindowTime;
  }

  /** A step of a that announces all its resources. */
  lemma AllAtOnce(c: Config, s: State, a: Id, act: Act, ph: Phase, st: LockState, ph': Phase, st': LockState)
    requires ValidConfig(c) && Shape(c, s) && Stands(c, s, a, ph, st) && |c.specs[a].order| > 0
    requires Leaps(c.tm, s.now, act, ph, st, ph', st')
    ensures Enabled(c, s, Do(a, act, {}))
    ensures var s' := Apply(c, s, Do(a, act, {})); s'.now == s.now && Stands(c, s', a, ph', st')
  {
    hide Apply, Enabled, Alone, ValidSpec, WindowTime;
    OwnStep(c, s, a, act);
  }

  lemma Moves(c: Config, s: State, a: Id, act: Act, ph: Phase, st: LockState, ph': Phase, st': LockState)
    returns (path: seq<State>, s': State)
    requires ValidConfig(c) && Shape(c, s) && Stands(c, s, a, ph, st) && |c.specs[a].order| > 0
    requires Leaps(c.tm, s.now, act, ph, st, ph', st')
    ensures Leads(c, s, path, s') && Shape(c, s') && s'.now == s.now && Stands(c, s', a, ph', st')
  {
    AllAtOnce(c, s, a, act, ph, st, ph', st');
    hide Shape, ValidConfig, Enabled, Apply, Leads, Stands;
    path := LeadsOne(c, s, Do(a, act, {}));
    s' := Apply(c, s, Do(a, act, {}));
  }

  /** The first k resources are committed; nobody was heard to hold any. */
  ghost predicate PartlyHeld(sp: Spec, n: Node, l: int, t: int, k: nat) {
    && k <= |sp.order| && n.phase == (if k < |sp.order| then Checking(l, t, k) else Held(l, t))
    && (forall r :: r in n.res ==> Busy(n.res[r].members) == {})
    && (forall i :: 0 <= i < k ==> sp.order[i] in n.res && n.res[sp.order[i]].state.Acquired?)
  }

  ghost predicate Committed(c: Config, s: State, a: Id, l: int, t: int, k: nat)
    requires Shape(c, s)
  {
    Alone(c, s, a) && a in c.specs && PartlyHeld(c.specs[a], s.nodes[a], l, t, k)
  }

  lemma CheckCommits(sp: Spec, tm: Timing, n: Node, now: int, l: int, t: int, k: nat)
    requires ValidSpec(sp) && n.res.Keys == sp.count.Keys && (forall r :: r in sp.order ==> r in n.res)
    requires PartlyHeld(sp, n, l, t, k) && k < |sp.order|
    ensures CanAct(sp, tm, n, Check, now) && PartlyHeld(sp, Perform(sp, tm, n, Check, now), l, t, k + 1)
  {
    var r := sp.order[k];
    assert r in sp.order && Busy(n.res[r].members) == {};
  }

  lemma CommitOne(c: Config, s: State, a: Id, l: int, t: int, k: nat)
    requires ValidConfig(c) && Shape(c, s) && Committed(c, s, a, l, t, k) && k < |c.specs[a].order|
    ensures Enabled(c, s, Do(a, Check, {}))
    ensures var s' := Apply(c, s, Do(a, Check, {})); s'.now == s.now && Committed(c, s', a, l, t, k + 1)
  {
    hide Apply, Enabled, Alone, Perform, CanAct, PartlyHeld;
    assert forall r :: r in c.specs[a].order ==> r in s.nodes[a].res by {
      assert ValidSpec(c.specs[a]);
    }
    CheckCommits(c.specs[a], c.tm, s.nodes[a], s.now, l, t, k);
    OwnStep(c, s, a, Check);
  }

  lemma {:induction false} CommitAll(c: Config, s: State, a: Id, l: int, t: int, k: nat)
    returns (path: seq<State>, s': State)
    requires ValidConfig(c) && Shape(c, s) && Committed(c, s, a, l, t, k)
    ensures Leads(c, s, path, s') && Shape(c, s') && s'.now == s.now && Committed(c, s', a, l, t, |c.specs[a].order|)
    decreases |c.specs[a].order| - k
  {
    hide Shape, ValidConfig, Enabled, Apply, Alone, Next;
    if k == |c.specs[a].order| {
      path, s' := [s], s;
    } else {
      CommitOne(c, s, a, l, t, k);
      var m := Apply(c, s, Do(a, Check, {}));
      var p := LeadsOne(c, s, Do(a, Check, {}));
      var q;
      q, s' := CommitAll(c, m, a, l, t, k + 1);
      path := LeadsOn(c, s, p, m, q, s');
    }
  }

  lemma BeginsAlone(c: Config, a: Id)
    requires ValidConfig(c) && a in c.specs
    ensures Stands(c, Init(c), a, Resting, Idle)
  {
  }

  lemma Checks(c: Config, s: State, a: Id, l: int, t: int)
    requires Shape(c, s) && a in c.specs && |c.specs[a].order| > 0 && Stands(c, s, a, Checking(l, t, 0), Acquiring)
    ensures Committed(c, s, a, l, t, 0)
  {
  }

  predicate Holding(s: State, a: Id, r: Name) {
    a in s.nodes && r in s.nodes[a].res && s.nodes[a].res[r].state.Acquired?
  }

  lemma AllCommitted(c: Config, s: State, a: Id, l: int, t: int)
    requires ValidConfig(c) && Shape(c, s) && a in c.specs && Committed(c, s, a, l, t, |c.specs[a].order|)
    ensures a in s.nodes && s.nodes[a].phase == Held(l, t)
    ensures forall r :: r in c.specs[a].count ==> Holding(s, a, r)
  {
    assert ValidSpec(c.specs[a]);
  }

  /** In every system, a process that is left alone can acquire all its resources in two windows, and as
      much later as its timers are late. */
  lemma LeftAloneAcquires(c: Config, a: Id, late1: nat, late2: nat) returns (path: seq<State>, s: State)
    requires ValidConfig(c) && a in c.specs && |c.specs[a].order| > 0
    ensures Leads(c, Init(c), path, s) && Shape(c, s)
    ensures s.now == 2 * (c.tm.sense * c.tm.beacon) + late1 + late2
    ensures a in s.nodes && s.nodes[a].phase.Held?
    ensures forall r :: r in c.specs[a].count ==> Holding(s, a, r)
  {
    hide Shape, ValidConfig, Stands, Committed, Leads, Init, WindowTime;
    WindowIs(c.tm);
    var t1 := WindowTime(c.tm) + late1;
    var t2 := t1 + WindowTime(c.tm) + late2;
    BeginsAlone(c, a);
    BeginsAtZero(c);
    var p, s1 := Moves(c, Init(c), a, Listen, Resting, Idle, Listening(0), Starting);
    var q, s2 := LetPass(c, s1, a, Listening(0), Starting, t1);
    path := LeadsOn(c, Init(c), p, s1, q, s2);
    q, s := Moves(c, s2, a, Announce, Listening(0), Starting, Window(0, t1), Acquiring);
    path := LeadsOn(c, Init(c), path, s2, q, s);
    var q4, s4 := LetPass(c, s, a, Window(0, t1), Acquiring, t2);
    path := LeadsOn(c, Init(c), path, s, q4, s4);
    var q5, s5 := Moves(c, s4, a, Expire, Window(0, t1), Acquiring, Checking(0, t1, 0), Acquiring);
    path := LeadsOn(c, Init(c), path, s4, q5, s5);
    Checks(c, s5, a, 0, t1);
    q, s := CommitAll(c, s5, a, 0, t1, 0);
    path := LeadsOn(c, Init(c), path, s5, q, s);
    AllCommitted(c, s, a, 0, t1);
  }

  lemma BeginsAtZero(c: Config)
    ensures Init(c).now == 0
  {
  }
}
