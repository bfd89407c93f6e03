/** The lock object refines the process of the distributed model: whatever an acquisition or a
    query does, in any environment, is a sequence of steps of module Protocol, with the same
    resource tables, the same announcements in the same order, and its guards respected. */
module LockRefines {
  import opened Protocol
  import opened LockSpec
  import opened LockLaws
  import opened LockResults

  datatype Event = Did(act: Act, at: int) | Heard(pkt: Packet, at: int)

  /** A process with what it has announced so far. */
  datatype Proc = Proc(node: Node, out: seq<Announcement>)

  /** The announcements of one step, in the order of the resources. */
  function Says(sp: Spec, order: seq<Name>, n: Node, rs: set<Name>): seq<Announcement> {
    if |order| == 0 then []
    else (if order[0] in rs && order[0] in n.res && order[0] in sp.count
          then [Announcement(order[0], n.res[order[0]].state, sp.count[order[0]])] else [])
         + Says(sp, order[1..], n, rs)
  }

  ghost predicate Fits(sp: Spec, n: Node) {
    ValidSpec(sp) && n.res.Keys == sp.count.Keys && forall r :: r in sp.order ==> r in n.res
  }

  ghost predicate Possible(sp: Spec, tm: Timing, p: Proc, e: Event) {
    Fits(sp, p.node) && (e.Did? ==> CanAct(sp, tm, p.node, e.act, e.at))
  }

  ghost function After(me: Id, sp: Spec, tm: Timing, p: Proc, e: Event): Proc
    requires Possible(sp, tm, p, e)
  {
    match e
    case Did(act, at) =>
      var n' := Perform(sp, tm, p.node, act, at);
      Proc(n', p.out + Says(sp, sp.order, n', Announced(sp, tm, p.node, act, at)))
    case Heard(pkt, at) =>
      p.(node := if pkt.src != me && pkt.name in p.node.res then OnPacket(sp, tm, p.node, pkt, at) else p.node)
  }

  function PacketsOf(arr: seq<Arrival>): set<Packet> {
    set a | a in arr :: a.pkt
  }

  /** The events take p to p', at times that do not decrease, between from and to; every packet
      heard is one of pkts. */
  ghost predicate Path(me: Id, sp: Spec, tm: Timing, pkts: set<Packet>, p: Proc, from: int, es: seq<Event>,
        p': Proc, to: int)
    decreases |es|
  {
    if |es| == 0 then p' == p && from <= to
    else Possible(sp, tm, p, es[0]) && (es[0].Heard? ==> es[0].pkt in pkts) && from <= es[0].at
         && Path(me, sp, tm, pkts, After(me, sp, tm, p, es[0]), es[0].at, es[1..], p', to)
  }

  lemma {:induction false} PathAppend(me: Id, sp: Spec, tm: Timing, pkts: set<Packet>, p: Proc, a: int,
        es: seq<Event>, q: Proc, b: int, fs: seq<Event>, r: Proc, c: int)
    requires Path(me, sp, tm, pkts, p, a, es, q, b) && Path(me, sp, tm, pkts, q, b, fs, r, c)
    ensures Path(me, sp, tm, pkts, p, a, es + fs, r, c)
    decreases |es|
  {
    hide Possible, After;
    if |es| == 0 {
      assert es + fs == fs;
      if |fs| > 0 {
        assert a <= fs[0].at;
      }
    } else {
      PathAppend(me, sp, tm, pkts, After(me, sp, tm, p, es[0]), es[0].at, es[1..], q, b, fs, r, c);
      assert (es + fs)[0] == es[0] && (es + fs)[1..] == es[1..] + fs;
    }
  }

  lemma PathStep(me: Id, sp: Spec, tm: Timing, pkts: set<Packet>, p: Proc, a: int, e: Event, q: Proc,
        fs: seq<Event>, r: Proc, c: int)
    requires Possible(sp, tm, p, e) && (e.Heard? ==> e.pkt in pkts) && After(me, sp, tm, p, e) == q && a <= e.at
    requires Path(me, sp, tm, pkts, q, e.at, fs, r, c)
    ensures Path(me, sp, tm, pkts, p, a, [e] + fs, r, c)
  {
    hide Possible, After;
    assert ([e] + fs)[0] == e && ([e] + fs)[1..] == fs;
  }

  // ---- waits ----

  /** The phase a wait leaves. */
  function PhaseAfter(ph: Phase, woken: bool, now: int, tm: Timing): Phase {
    if !woken then ph
    else match ph
      case Listening(l) => Resting
      case Window(l, t) => Resetting(l, t, 0)
      case ShortListen(x, since) => LongListen(x, since, now + LongTime(tm))
      case _ => ph
  }

  /** A phase, and the condition variable waited on in that phase. */
  ghost predicate WaitsOn(n: Node, w: Waiting) {
    match n.phase
    case Listening(_) => w.OnListen?
    case Window(_, _) => w.OnWindow?
    case ShortListen(_, _) => w.OnAny?
    case LongListen(_, _, _) => w.OnBackoff?
    case Resting => w.OnBackoff?
    case _ => false
  }

  /** Handling one packet is `OnPacket`: the same tables, and the phase moves on exactly when the
      packet notifies the condition waited on. */
  lemma PacketIsOnPacket(me: Id, sp: Spec, tm: Timing, n: Node, w: Waiting, pkt: Packet, now: int)
    requires Fits(sp, n) && WaitsOn(n, w)
    ensures (if pkt.src != me && pkt.name in n.res then OnPacket(sp, tm, n, pkt, now) else n)
         == Node(PhaseAfter(n.phase, Wakes(me, n.res, w, pkt), now, tm), HandlePacket(me, sp.count, n.res, pkt, now))
  {
  }

  lemma HeardIsStep(me: Id, sp: Spec, tm: Timing, p: Proc, w: Waiting, pkt: Packet, at: int)
    requires Fits(sp, p.node) && WaitsOn(p.node, w)
    ensures var woken := Wakes(me, p.node.res, w, pkt);
            var res := HandlePacket(me, sp.count, p.node.res, pkt, at);
            var q := Proc(Node(PhaseAfter(p.node.phase, woken, at, tm), res), p.out);
            && Possible(sp, tm, p, Heard(pkt, at)) && After(me, sp, tm, p, Heard(pkt, at)) == q
            && Fits(sp, q.node) && (!woken ==> WaitsOn(q.node, w))
  {
    PacketIsOnPacket(me, sp, tm, p.node, w, pkt, at);
    hide HandlePacket, Wakes, OnPacket, ValidSpec;
  }

  lemma PacketsOfTail(arr: seq<Arrival>)
    requires |arr| > 0
    ensures arr[0].pkt in PacketsOf(arr) && PacketsOf(arr[1..]) <= PacketsOf(arr)
  {
  }

  lemma {:induction false} WaitIsPath(me: Id, sp: Spec, tm: Timing, pkts: set<Packet>, p: Proc, w: Waiting,
        arr: seq<Arrival>, now: int, deadline: int)
    returns (es: seq<Event>)
    requires Fits(sp, p.node) && WaitsOn(p.node, w) && now <= deadline
    requires Covers(sp.count, p.node.res) && PacketsOf(arr) <= pkts
    ensures var o := WaitFor(me, sp.count, p.node.res, w, arr, now, deadline);
            Path(me, sp, tm, pkts, p, now, es, Proc(Node(PhaseAfter(p.node.phase, o.woken, o.now, tm), o.res), p.out),
                o.now)
    decreases |arr|
  {
    hide HandlePacket, Wakes, Fits, WaitsOn, Possible, After, Path, PacketsOf;
    var o := WaitFor(me, sp.count, p.node.res, w, arr, now, deadline);
    var end := Proc(Node(PhaseAfter(p.node.phase, o.woken, o.now, tm), o.res), p.out);
    if |arr| == 0 || now + arr[0].gap >= deadline {
      es := [];
      WaitedOut(me, sp, tm, pkts, p, now, deadline);
    } else {
      var t, pkt := now + arr[0].gap, arr[0].pkt;
      HeardIsStep(me, sp, tm, p, w, pkt, t);
      PacketsOfTail(arr);
      var q := After(me, sp, tm, p, Heard(pkt, t));
      if Wakes(me, p.node.res, w, pkt) {
        es := [];
        Nowhere(me, sp, tm, pkts, q, t);
      } else {
        es := WaitIsPath(me, sp, tm, pkts, q, w, arr[1..], t, deadline);
      }
      PathStep(me, sp, tm, pkts, p, now, Heard(pkt, t), q, es, end, o.now);
      es := [Heard(pkt, t)] + es;
    }
  }

  lemma WaitedOut(me: Id, sp: Spec, tm: Timing, pkts: set<Packet>, p: Proc, now: int, deadline: int)
    requires now <= deadline
    ensures Path(me, sp, tm, pkts, p, now, [], p, deadline)
  {
  }

  // ---- rounds over the resources ----

  /** A step that announces every resource, all in the same state, says what a round says. */
  lemma {:induction false} SaysAll(sp: Spec, order: seq<Name>, n: Node, rs: set<Name>, st: LockState)
    requires forall r :: r in order ==> r in rs && r in n.res && r in sp.count && n.res[r].state == st
    ensures Says(sp, order, n, rs) == Said(sp.count, order, st)
  {
    if |order| > 0 {
      assert order[0] in order;
      SaysAll(sp, order[1..], n, rs, st);
    }
  }

  lemma {:induction false} SaysNothing(sp: Spec, order: seq<Name>, n: Node, rs: set<Name>)
    requires forall r :: r in order ==> r !in rs
    ensures Says(sp, order, n, rs) == []
  {
    if |order| > 0 {
      assert order[0] in order;
      SaysNothing(sp, order[1..], n, rs);
    }
  }

  lemma {:induction false} SaysOne(sp: Spec, order: seq<Name>, n: Node, r: Name)
    requires Distinct(order) && r in order && r in n.res && r in sp.count
    ensures Says(sp, order, n, {r}) == [Announcement(r, n.res[r].state, sp.count[r])]
  {
    if order[0] == r {
      SaysNothing(sp, order[1..], n, {r});
    } else {
      SaysOne(sp, order[1..], n, r);
    }
  }

  lemma PaintedIsSetAll(sp: Spec, n: Node, st: LockState)
    requires Fits(sp, n)
    ensures Painted(n.res, sp.order, st) == SetAll(n.res, st)
  {
  }

  /** The events of a round that sets all resources at once. */
  lemma SetAllIsStep(me: Id, sp: Spec, tm: Timing, p: Proc, act: Act, at: int, ph: Phase, st: LockState)
    requires Fits(sp, p.node) && |sp.order| > 0
    requires (act.Prepare? && p.node.phase.Resting? && ph.Resting? && st.Starting?)
          || (act.Listen? && p.node.phase.Resting? && ph == Listening(at) && st.Starting?)
          || (act.Announce? && p.node.phase.Listening? && at >= p.node.phase.l + WindowTime(tm)
              && ph == Window(p.node.phase.l, at) && st.Acquiring?)
    ensures Possible(sp, tm, p, Did(act, at))
    ensures After(me, sp, tm, p, Did(act, at))
         == Proc(Node(ph, Painted(p.node.res, sp.order, st)), p.out + Said(sp.count, sp.order, st))
  {
    PaintedIsSetAll(sp, p.node, st);
    var n' := Perform(sp, tm, p.node, act, at);
    SaysAll(sp, sp.order, n', n'.res.Keys, st);
  }

  // ---- commit and reset ----

  lemma {:induction false} CommitIsPath(me: Id, sp: Spec, tm: Timing, pkts: set<Packet>, x: Local, l: int, t: int,
        k: nat) returns (es: seq<Event>)
    requires ValidSpec(sp) && Covers(sp.count, x.res) && k < |sp.order|
    ensures var (y, ok) := Commit(sp.count, x, sp.order, k);
            Path(me, sp, tm, pkts, Proc(Node(Checking(l, t, k), x.res), x.out), x.now, es,
                 Proc(Node(if ok then Held(l, t) else Resetting(l, t, 0), y.res), y.out), x.now)
    decreases |sp.order| - k
  {
    var p := Proc(Node(Checking(l, t, k), x.res), x.out);
    var r := sp.order[k];
    var e := Did(Check, x.now);
    var (y, ok) := Commit(sp.count, x, sp.order, k);
    var goal := Proc(Node(if ok then Held(l, t) else Resetting(l, t, 0), y.res), y.out);
    CheckIsStep(me, sp, tm, x, l, t, k);
    var room := Acquirable(x.res[r].members, sp.count[r]);
    hide Possible, After, Path, Acquirable, Perform, CanAct, Announced;
    var x' := if room then Local(SetOne(x.res, r, Acquired), x.now, x.out + [Announcement(r, Acquired, sp.count[r])])
        else x;
    assert room ==> (y, ok) == Commit(sp.count, x', sp.order, k + 1);
    assert !room ==> (y, ok) == (x, false);
    if room && k + 1 < |sp.order| {
      es := CommitIsPath(me, sp, tm, pkts, x', l, t, k + 1);
    } else {
      es := [];
      assert After(me, sp, tm, p, e) == goal;
      Nowhere(me, sp, tm, pkts, goal, x.now);
    }
    PathStep(me, sp, tm, pkts, p, x.now, e, After(me, sp, tm, p, e), es, goal, x.now);
    es := [e] + es;
  }

  lemma Nowhere(me: Id, sp: Spec, tm: Timing, pkts: set<Packet>, p: Proc, at: int)
    ensures Path(me, sp, tm, pkts, p, at, [], p, at)
  {
  }

  lemma CheckIsStep(me: Id, sp: Spec, tm: Timing, x: Local, l: int, t: int, k: nat)
    requires ValidSpec(sp) && Covers(sp.count, x.res) && k < |sp.order|
    ensures sp.order[k] in sp.count
    ensures var r, p := sp.order[k], Proc(Node(Checking(l, t, k), x.res), x.out);
            && Possible(sp, tm, p, Did(Check, x.now))
            && After(me, sp, tm, p, Did(Check, x.now))
               == if Acquirable(x.res[r].members, sp.count[r])
                  then Proc(Node(if k + 1 == |sp.order| then Held(l, t) else Checking(l, t, k + 1),
                      SetOne(x.res, r, Acquired)),
                            x.out + [Announcement(r, Acquired, sp.count[r])])
                  else Proc(Node(Resetting(l, t, 0), x.res), x.out)
  {
    var r, n := sp.order[k], Node(Checking(l, t, k), x.res);
    var n' := CheckNext(sp, n);
    if Acquirable(x.res[r].members, sp.count[r]) {
      SaysOne(sp, sp.order, n', r);
    } else {
      SaysNothing(sp, sp.order, n', {});
    }
  }

  lemma {:induction false} ResetIsPath(me: Id, sp: Spec, tm: Timing, pkts: set<Packet>, x: Local, l: int, t: int,
        k: nat) returns (es: seq<Event>)
    requires ValidSpec(sp) && Covers(sp.count, x.res) && k < |sp.order|
    ensures var y := ResetFrom(sp.count, x, sp.order, k);
            Path(me, sp, tm, pkts, Proc(Node(Resetting(l, t, k), x.res), x.out), x.now, es,
                Proc(Node(Resting, y.res), y.out), x.now)
    decreases |sp.order| - k
  {
    var p := Proc(Node(Resetting(l, t, k), x.res), x.out);
    var r := sp.order[k];
    var e := Did(Reset, x.now);
    var y := ResetFrom(sp.count, x, sp.order, k);
    ResetIsStep(me, sp, tm, x, l, t, k);
    hide Possible, After, Path, Perform, CanAct, Announced;
    var x' := Local(x.res[r := Res(Idle, map[])], x.now, x.out + [Announcement(r, Idle, sp.count[r])]);
    assert y == ResetFrom(sp.count, x', sp.order, k + 1);
    if k + 1 == |sp.order| {
      es := [];
      assert After(me, sp, tm, p, e) == Proc(Node(Resting, y.res), y.out);
      Nowhere(me, sp, tm, pkts, Proc(Node(Resting, y.res), y.out), x.now);
    } else {
      es := ResetIsPath(me, sp, tm, pkts, x', l, t, k + 1);
    }
    PathStep(me, sp, tm, pkts, p, x.now, e, After(me, sp, tm, p, e), es, Proc(Node(Resting, y.res), y.out), x.now);
    es := [e] + es;
  }

  lemma ResetIsStep(me: Id, sp: Spec, tm: Timing, x: Local, l: int, t: int, k: nat)
    requires ValidSpec(sp) && Covers(sp.count, x.res) && k < |sp.order|
    ensures sp.order[k] in sp.count
    ensures var r, p := sp.order[k], Proc(Node(Resetting(l, t, k), x.res), x.out);
            && Possible(sp, tm, p, Did(Reset, x.now))
            && After(me, sp, tm, p, Did(Reset, x.now))
               == Proc(Node(if k + 1 == |sp.order| then Resting else Resetting(l, t, k + 1),
                   x.res[r := Res(Idle, map[])]),
                       x.out + [Announcement(r, Idle, sp.count[r])])
  {
    var r, n := sp.order[k], Node(Resetting(l, t, k), x.res);
    SaysOne(sp, sp.order, ResetNext(sp, n), r);
  }

  // ---- one attempt ----

  predicate Named(sp: Spec) {
    forall r :: r in sp.order ==> r in sp.count
  }

  lemma NamesKnown(sp: Spec)
    requires ValidSpec(sp)
    ensures Named(sp)
  {
  }

  /** A step followed by a wait. */
  lemma StepAndWait(me: Id, sp: Spec, tm: Timing, pkts: set<Packet>, p: Proc, now: int, act: Act, q: Proc,
        w: Waiting, arr: seq<Arrival>, deadline: int)
    returns (es: seq<Event>)
    requires Possible(sp, tm, p, Did(act, now)) && After(me, sp, tm, p, Did(act, now)) == q
    requires Fits(sp, q.node) && WaitsOn(q.node, w) && now <= deadline
    requires PacketsOf(arr) <= pkts
    ensures var o := WaitFor(me, sp.count, q.node.res, w, arr, now, deadline);
            Path(me, sp, tm, pkts, p, now, es, Proc(Node(PhaseAfter(q.node.phase, o.woken, o.now, tm), o.res), q.out),
                o.now)
  {
    hide Possible, After, WaitsOn, WaitFor, Path;
    es := WaitIsPath(me, sp, tm, pkts, q, w, arr, now, deadline);
    var o := WaitFor(me, sp.count, q.node.res, w, arr, now, deadline);
    PathStep(me, sp, tm, pkts, p, now, Did(act, now), q, es,
             Proc(Node(PhaseAfter(q.node.phase, o.woken, o.now, tm), o.res), q.out), o.now);
    es := [Did(act, now)] + es;
  }

  lemma PaintedFits(sp: Spec, ph: Phase, res: map<Name, Res>, st: LockState)
    requires ValidSpec(sp) && Covers(sp.count, res)
    ensures Covers(sp.count, Painted(res, sp.order, st))
    ensures Fits(sp, Node(ph, res)) && Fits(sp, Node(ph, Painted(res, sp.order, st)))
  {
  }

  /** Where listening leads. */
  ghost function AfterListening(me: Id, sp: Spec, x: Local, a: Script): Proc
    requires Covers(sp.count, x.res) && ValidSpec(sp)
  {
    var o := Listened(me, sp.count, sp.order, x, a);
    Proc(Node(if o.woken then Resting else Listening(x.now), o.res), x.out + Said(sp.count, sp.order, Starting))
  }

  /** Where the collision window leads. */
  ghost function AfterWindow(me: Id, sp: Spec, tm: Timing, x: Local, a: Script): Proc
    requires Covers(sp.count, x.res) && ValidSpec(sp)
  {
    var o1, o2 := Listened(me, sp.count, sp.order, x, a), Windowed(me, sp.count, tm, sp.order, x, a);
    Proc(Node(if o2.woken then Resetting(x.now, o1.now, 0) else Window(x.now, o1.now), o2.res),
         x.out + Said(sp.count, sp.order, Starting) + Said(sp.count, sp.order, Acquiring))
  }

  lemma ListenIsPath(me: Id, sp: Spec, tm: Timing, pkts: set<Packet>, x: Local, a: Script) returns (es: seq<Event>)
    requires ValidSpec(sp) && Covers(sp.count, x.res) && |sp.order| > 0
    requires PacketsOf(a.listen) <= pkts
    ensures Path(me, sp, tm, pkts, Proc(Node(Resting, x.res), x.out), x.now, es,
                 AfterListening(me, sp, x, a), Listened(me, sp.count, sp.order, x, a).now)
  {
    hide Possible, After, WaitFor, Path, Painted, Said, Fits, ValidSpec, WaitsOn;
    ListenStep(me, sp, tm, x);
    var p := Proc(Node(Resting, x.res), x.out);
    var q := Proc(Node(Listening(x.now), Painted(x.res, sp.order, Starting)),
        x.out + Said(sp.count, sp.order, Starting));
    es := StepAndWait(me, sp, tm, pkts, p, x.now, Listen, q, OnListen, a.listen, x.now + a.listenTime);
  }

  lemma ListenStep(me: Id, sp: Spec, tm: Timing, x: Local)
    requires ValidSpec(sp) && Covers(sp.count, x.res) && |sp.order| > 0
    ensures Named(sp)
    ensures var p := Proc(Node(Resting, x.res), x.out);
            var q := Proc(Node(Listening(x.now), Painted(x.res, sp.order, Starting)),
                x.out + Said(sp.count, sp.order, Starting));
            && Fits(sp, q.node) && WaitsOn(q.node, OnListen)
            && Possible(sp, tm, p, Did(Listen, x.now)) && After(me, sp, tm, p, Did(Listen, x.now)) == q
  {
    PaintedFits(sp, Listening(x.now), x.res, Starting);
    PaintedFits(sp, Resting, x.res, Starting);
    hide Possible, After, Said, Fits, Painted;
    SetAllIsStep(me, sp, tm, Proc(Node(Resting, x.res), x.out), Listen, x.now, Listening(x.now), Starting);
  }

  lemma WindowIsPath(me: Id, sp: Spec, tm: Timing, pkts: set<Packet>, x: Local, a: Script) returns (es: seq<Event>)
    requires ValidSpec(sp) && Covers(sp.count, x.res) && |sp.order| > 0 && GoodScript(tm, a)
    requires !Listened(me, sp.count, sp.order, x, a).woken
    requires PacketsOf(a.window) <= pkts
    ensures var o1, o2 := Listened(me, sp.count, sp.order, x, a), Windowed(me, sp.count, tm, sp.order, x, a);
            Path(me, sp, tm, pkts, AfterListening(me, sp, x, a), o1.now, es, AfterWindow(me, sp, tm, x, a), o2.now)
  {
    hide Possible, After, WaitFor, Path, Painted, Said, Fits, ValidSpec, WaitsOn, Listened;
    var p, o1 := AfterListening(me, sp, x, a), Listened(me, sp.count, sp.order, x, a);
    AnnounceStep(me, sp, tm, Local(o1.res, o1.now, p.out), x.now);
    var q := Proc(Node(Window(x.now, o1.now), Painted(o1.res, sp.order, Acquiring)),
        p.out + Said(sp.count, sp.order, Acquiring));
    es := StepAndWait(me, sp, tm, pkts, p, o1.now, Announce, q, OnWindow, a.window, o1.now + WindowTime(tm));
  }

  lemma AnnounceStep(me: Id, sp: Spec, tm: Timing, x: Local, l: int)
    requires ValidSpec(sp) && Covers(sp.count, x.res) && |sp.order| > 0 && x.now >= l + WindowTime(tm)
    ensures Named(sp)
    ensures var p := Proc(Node(Listening(l), x.res), x.out);
            var q := Proc(Node(Window(l, x.now), Painted(x.res, sp.order, Acquiring)),
                x.out + Said(sp.count, sp.order, Acquiring));
            && Fits(sp, q.node) && WaitsOn(q.node, OnWindow)
            && Possible(sp, tm, p, Did(Announce, x.now)) && After(me, sp, tm, p, Did(Announce, x.now)) == q
  {
    PaintedFits(sp, Window(l, x.now), x.res, Acquiring);
    PaintedFits(sp, Listening(l), x.res, Acquiring);
    hide Possible, After, Said, Fits, Painted;
    SetAllIsStep(me, sp, tm, Proc(Node(Listening(l), x.res), x.out), Announce, x.now, Window(l, x.now), Acquiring);
  }

  lemma ExpireIsStep(me: Id, sp: Spec, tm: Timing, x: Local, l: int, t: int)
    requires ValidSpec(sp) && Covers(sp.count, x.res) && x.now >= t + WindowTime(tm)
    ensures var p := Proc(Node(Window(l, t), x.res), x.out);
            Possible(sp, tm, p, Did(Expire, x.now))
            && After(me, sp, tm, p, Did(Expire, x.now)) == Proc(Node(Checking(l, t, 0), x.res), x.out)
  {
    SaysNothing(sp, sp.order, Node(Checking(l, t, 0), x.res), {});
  }

  /** After the window: commit or reset, as one path. */
  lemma ConcludeIsPath(me: Id, sp: Spec, tm: Timing, pkts: set<Packet>, x: Local, l: int, t: int, woken: bool)
    returns (es: seq<Event>)
    requires ValidSpec(sp) && Covers(sp.count, x.res) && |sp.order| > 0 && (!woken ==> x.now >= t + WindowTime(tm))
    ensures var (y, ok) := Conclude(sp.count, x, sp.order, woken);
            Path(me, sp, tm, pkts, Proc(Node(if woken then Resetting(l, t, 0) else Window(l, t), x.res), x.out),
                 x.now, es, Proc(Node(if ok then Held(l, t) else Resting, y.res), y.out), x.now)
  {
    if woken {
      es := ResetIsPath(me, sp, tm, pkts, x, l, t, 0);
    } else {
      ExpireIsStep(me, sp, tm, x, l, t);
      var p, q := Proc(Node(Window(l, t), x.res), x.out), Proc(Node(Checking(l, t, 0), x.res), x.out);
      hide Possible, After, Path, Commit, ResetFrom;
      var fs := CommitIsPath(me, sp, tm, pkts, x, l, t, 0);
      var (y, ok) := Commit(sp.count, x, sp.order, 0);
      var r := Proc(Node(if ok then Held(l, t) else Resetting(l, t, 0), y.res), y.out);
      PathStep(me, sp, tm, pkts, p, x.now, Did(Expire, x.now), q, fs, r, x.now);
      es := [Did(Expire, x.now)] + fs;
      if !ok {
        var gs := ResetIsPath(me, sp, tm, pkts, y, l, t, 0);
        var (z, _) := Conclude(sp.count, x, sp.order, woken);
        PathAppend(me, sp, tm, pkts, p, x.now, es, r, x.now, gs, Proc(Node(Resting, z.res), z.out), x.now);
        es := es + gs;
      }
    }
  }

  /** The packets of a script. */
  function Heardable(a: Script): set<Packet> {
    PacketsOf(a.listen) + PacketsOf(a.window) + PacketsOf(a.backoff)
  }

  /** Where an attempt leads: the process holds, or rests again. */
  function PhaseOf(v: Verdict, l: int, t: int): Phase {
    if v.Won? then Held(l, t) else Resting
  }

  /** One attempt of the lock object is a path of the process. */
  lemma TryIsPath(me: Id, sp: Spec, tm: Timing, pkts: set<Packet>, x: Local, a: Script) returns (es: seq<Event>)
    requires ValidSpec(sp) && Covers(sp.count, x.res) && |sp.order| > 0 && GoodScript(tm, a)
    requires Heardable(a) <= pkts
    ensures var (y, v) := TryOnce(me, sp.count, tm, sp.order, x, a);
            Path(me, sp, tm, pkts, Proc(Node(Resting, x.res), x.out), x.now, es,
                 Proc(Node(PhaseOf(v, x.now, x.now + a.listenTime), y.res), y.out), y.now)
  {
    hide Path, TryOnce, Conclude, WaitFor, Said, Painted;
    TryOnceIs(me, sp.count, tm, sp.order, x, a);
    var p := Proc(Node(Resting, x.res), x.out);
    var o1, o2 := Listened(me, sp.count, sp.order, x, a), Windowed(me, sp.count, tm, sp.order, x, a);
    es := ListenIsPath(me, sp, tm, pkts, x, a);
    if !o1.woken {
      var fs := WindowIsPath(me, sp, tm, pkts, x, a);
      PathAppend(me, sp, tm, pkts, p, x.now, es, AfterListening(me, sp, x, a), o1.now, fs,
          AfterWindow(me, sp, tm, x, a), o2.now);
      es := es + fs;
      var x2 := Local(o2.res, o2.now, AfterWindow(me, sp, tm, x, a).out);
      fs := ConcludeIsPath(me, sp, tm, pkts, x2, x.now, o1.now, o2.woken);
      var (y, v) := TryOnce(me, sp.count, tm, sp.order, x, a);
      PathAppend(me, sp, tm, pkts, p, x.now, es, AfterWindow(me, sp, tm, x, a), o2.now, fs,
                 Proc(Node(PhaseOf(v, x.now, x.now + a.listenTime), y.res), y.out), y.now);
      es := es + fs;
    }
  }

  lemma BackOffIsPath(me: Id, sp: Spec, tm: Timing, pkts: set<Packet>, x: Local, a: Script) returns (es: seq<Event>)
    requires ValidSpec(sp) && Covers(sp.count, x.res)
    requires PacketsOf(a.backoff) <= pkts
    ensures var y := BackOff(me, sp.count, x, a);
            Path(me, sp, tm, pkts, Proc(Node(Resting, x.res), x.out), x.now, es, Proc(Node(Resting, y.res), y.out),
                y.now)
  {
    hide Path, WaitFor, Fits, ValidSpec, Painted, PacketsOf, Covers;
    PaintedFits(sp, Resting, x.res, Starting);
    es := WaitIsPath(me, sp, tm, pkts, Proc(Node(Resting, x.res), x.out), OnBackoff, a.backoff, x.now,
        x.now + a.backoffTime);
  }

  lemma AttemptIsPath(me: Id, sp: Spec, tm: Timing, pkts: set<Packet>, x: Local, a: Script) returns (es: seq<Event>)
    requires ValidSpec(sp) && Covers(sp.count, x.res) && |sp.order| > 0 && GoodScript(tm, a)
    requires Heardable(a) <= pkts
    ensures var (y, v) := Attempt(me, sp.count, tm, sp.order, x, a);
            Path(me, sp, tm, pkts, Proc(Node(Resting, x.res), x.out), x.now, es,
                 Proc(Node(PhaseOf(v, x.now, x.now + a.listenTime), y.res), y.out), y.now)
  {
    assert Named(sp);
    hide Path, TryOnce, BackOff, ValidSpec;
    es := TryIsPath(me, sp, tm, pkts, x, a);
    var (y, v) := TryOnce(me, sp.count, tm, sp.order, x, a);
    if !v.Won? {
      var fs := BackOffIsPath(me, sp, tm, pkts, y, a);
      var z := BackOff(me, sp.count, y, a);
      PathAppend(me, sp, tm, pkts, Proc(Node(Resting, x.res), x.out), x.now, es, Proc(Node(Resting, y.res), y.out),
          y.now,
                 fs, Proc(Node(Resting, z.res), z.out), z.now);
      es := es + fs;
    }
  }

  // ---- whole acquisitions ----

  /** The phase fits the outcome. */
  predicate Ends(ph: Phase, outcome: Outcome) {
    match outcome
    case Locked => ph.Held?
    case Failed => ph.GaveUp?
    case Unfinished => ph.Resting?
  }

  lemma GiveUpIsPath(me: Id, sp: Spec, tm: Timing, pkts: set<Packet>, x: Local) returns (es: seq<Event>)
    requires ValidSpec(sp) && Covers(sp.count, x.res)
    ensures Path(me, sp, tm, pkts, Proc(Node(Resting, x.res), x.out), x.now, es, Proc(Node(GaveUp, x.res), x.out),
          x.now)
  {
    var p, q := Proc(Node(Resting, x.res), x.out), Proc(Node(GaveUp, x.res), x.out);
    SaysNothing(sp, sp.order, q.node, {});
    assert Possible(sp, tm, p, Did(GiveUp, x.now)) && After(me, sp, tm, p, Did(GiveUp, x.now)) == q;
    Nowhere(me, sp, tm, pkts, q, x.now);
    es := [Did(GiveUp, x.now)];
    hide Possible, After, Path;
    PathStep(me, sp, tm, pkts, p, x.now, Did(GiveUp, x.now), q, [], q, x.now);
    assert es == [Did(GiveUp, x.now)] + [];
  }

  /** The acquire loop is a path of the process, from any retry count on. */
  lemma {:induction false} AcquireIsPath(me: Id, sp: Spec, tm: Timing, pkts: set<Packet>, x: Local,
        env: seq<Script>, retry: nat, retryMax: nat)
    returns (es: seq<Event>, ph: Phase)
    requires ValidSpec(sp) && Covers(sp.count, x.res) && |sp.order| > 0 && forall a :: a in env ==> GoodScript(tm, a)
    requires forall a :: a in env ==> Heardable(a) <= pkts
    ensures var z := Acquire(me, sp.count, tm, sp.order, x, env, retry, retryMax);
            && Ends(ph, z.outcome)
            && Path(me, sp, tm, pkts, Proc(Node(Resting, x.res), x.out), x.now, es, Proc(Node(ph, z.x.res), z.x.out),
                z.x.now)
    decreases |env|
  {
    hide Path, Attempt, ValidSpec, GoodScript, Covers, Acquire;
    NamesKnown(sp);
    AcquireUnfolds(me, sp.count, tm, sp.order, x, env, retry, retryMax);
    if retryMax != 0 && retry >= retryMax {
      es := GiveUpIsPath(me, sp, tm, pkts, x);
      ph := GaveUp;
    } else if |env| == 0 {
      es, ph := [], Resting;
      Nowhere(me, sp, tm, pkts, Proc(Node(Resting, x.res), x.out), x.now);
    } else {
      var (y, v) := Attempt(me, sp.count, tm, sp.order, x, env[0]);
      es := AttemptIsPath(me, sp, tm, pkts, x, env[0]);
      ph := PhaseOf(v, x.now, x.now + env[0].listenTime);
      if !v.Won? {
        var next := if v.Lost? then retry + 1 else retry;
        var fs;
        fs, ph := AcquireIsPath(me, sp, tm, pkts, y, env[1..], next, retryMax);
        var z := Acquire(me, sp.count, tm, sp.order, y, env[1..], next, retryMax);
        PathAppend(me, sp, tm, pkts, Proc(Node(Resting, x.res), x.out), x.now, es, Proc(Node(Resting, y.res), y.out),
            y.now,
                   fs, Proc(Node(ph, z.x.res), z.x.out), z.x.now);
        es := es + fs;
      }
    }
  }

  /** `acquire` of all resources, with the STARTING round before the loop. */
  lemma AdquireLockIsPath(me: Id, sp: Spec, tm: Timing, pkts: set<Packet>, x: Local, env: seq<Script>, retryMax: nat)
    returns (es: seq<Event>, ph: Phase)
    requires ValidSpec(sp) && Covers(sp.count, x.res) && |sp.order| > 0 && forall a :: a in env ==> GoodScript(tm, a)
    requires forall a :: a in env ==> Heardable(a) <= pkts
    ensures var z := Acquire(me, sp.count, tm, sp.order, SetStates(sp.count, x, sp.order, Starting, 0), env, 0,
          retryMax);
            && Ends(ph, z.outcome)
            && Path(me, sp, tm, pkts, Proc(Node(Resting, x.res), x.out), x.now, es, Proc(Node(ph, z.x.res), z.x.out),
                z.x.now)
  {
    var p := Proc(Node(Resting, x.res), x.out);
    PaintedFits(sp, Resting, x.res, Starting);
    SetAllIsStep(me, sp, tm, p, Prepare, x.now, Resting, Starting);
    SetStatesIs(sp.count, x, sp.order, Starting, 0);
    assert sp.order[0..] == sp.order;
    var y := SetStates(sp.count, x, sp.order, Starting, 0);
    hide Path, Acquire, SetStates, ValidSpec, GoodScript, Possible, After, Said, Painted;
    es, ph := AcquireIsPath(me, sp, tm, pkts, y, env, 0, retryMax);
    var z := Acquire(me, sp.count, tm, sp.order, y, env, 0, retryMax);
    PathStep(me, sp, tm, pkts, p, x.now, Did(Prepare, x.now), Proc(Node(Resting, y.res), y.out), es,
             Proc(Node(ph, z.x.res), z.x.out), z.x.now);
    es := [Did(Prepare, x.now)] + es;
  }

  // ---- releasing ----

  lemma ReleaseIsStep(me: Id, sp: Spec, tm: Timing, x: Local, ph: Phase, r: Name)
    requires ValidSpec(sp) && Covers(sp.count, x.res) && r in sp.count && (ph.Held? || ph.GaveUp? || ph.Answered?)
    ensures var p, y := Proc(Node(ph, x.res), x.out), SetStates(sp.count, x, [r], Released, 0);
            && Possible(sp, tm, p, Did(Release(r), x.now))
            && After(me, sp, tm, p, Did(Release(r), x.now)) == Proc(Node(ph, y.res), y.out)
  {
    hide SetStates, Distinct, Says;
    OneState(sp.count, x, r, Released);
    SaysOne(sp, sp.order, Node(ph, SetOne(x.res, r, Released)), r);
  }

  /** Releasing resources, one or all of them, is a path of the process, with the same announcements. */
  lemma {:induction false} ReleaseIsPath(me: Id, sp: Spec, tm: Timing, pkts: set<Packet>, x: Local, ph: Phase,
        rs: seq<Name>, k: nat) returns (es: seq<Event>)
    requires ValidSpec(sp) && Covers(sp.count, x.res) && (ph.Held? || ph.GaveUp? || ph.Answered?)
    requires k <= |rs| && forall r :: r in rs ==> r in sp.count
    ensures var y := SetStates(sp.count, x, rs, Released, k);
            Path(me, sp, tm, pkts, Proc(Node(ph, x.res), x.out), x.now, es, Proc(Node(ph, y.res), y.out), x.now)
    decreases |rs| - k
  {
    hide SetStates, Path, Possible, After, ValidSpec;
    NextState(sp.count, x, rs, Released, k);
    var p := Proc(Node(ph, x.res), x.out);
    if k == |rs| {
      es := [];
      Nowhere(me, sp, tm, pkts, p, x.now);
    } else {
      var m := SetStates(sp.count, x, [rs[k]], Released, 0);
      ReleaseIsStep(me, sp, tm, x, ph, rs[k]);
      es := ReleaseIsPath(me, sp, tm, pkts, m, ph, rs, k + 1);
      var y := SetStates(sp.count, x, rs, Released, k);
      PathStep(me, sp, tm, pkts, p, x.now, Did(Release(rs[k]), x.now), Proc(Node(ph, m.res), m.out), es,
               Proc(Node(ph, y.res), y.out), x.now);
      es := [Did(Release(rs[k]), x.now)] + es;
    }
  }

  // ---- queries ----

  lemma QueryIsStep(me: Id, sp: Spec, tm: Timing, x: Local, r: Name)
    requires ValidSpec(sp) && Covers(sp.count, x.res) && r in sp.count
    ensures var p, y := Proc(Node(Resting, x.res), x.out), SetStates(sp.count, x, [r], Querying, 0);
            && Possible(sp, tm, p, Did(Query(r), x.now))
            && After(me, sp, tm, p, Did(Query(r), x.now)) == Proc(Node(ShortListen(r, x.now), y.res), y.out)
            && Fits(sp, Node(ShortListen(r, x.now), y.res))
  {
    hide SetStates, Distinct, Says;
    OneState(sp.count, x, r, Querying);
    SaysOne(sp, sp.order, Node(ShortListen(r, x.now), SetOne(x.res, r, Querying)), r);
  }

  /** The last step of a query: the answer is read off the member table. */
  lemma AnswerIsPath(me: Id, sp: Spec, tm: Timing, pkts: set<Packet>, x: Local, r: Name, since: int, ph: Phase)
    returns (es: seq<Event>)
    requires ValidSpec(sp) && Covers(sp.count, x.res) && r in sp.count
    requires (ph == ShortListen(r, since) && x.now >= since + ShortTime(tm))
          || (ph.LongListen? && ph.name == r && ph.since == since && x.now >= ph.until)
    ensures Path(me, sp, tm, pkts, Proc(Node(ph, x.res), x.out), x.now, es,
                 Proc(Node(Answered(r, since, SeesHolder(x.res[r].members)), x.res), x.out), x.now)
  {
    var p := Proc(Node(ph, x.res), x.out);
    var q := Proc(Node(Answered(r, since, SeesHolder(x.res[r].members)), x.res), x.out);
    var e := Did(if ph.ShortListen? then QuietEnd else Answer, x.now);
    hide Possible, After, Path, SeesHolder, ValidSpec;
    AnswerIsStep(me, sp, tm, x, r, since, ph);
    Nowhere(me, sp, tm, pkts, q, x.now);
    PathStep(me, sp, tm, pkts, p, x.now, e, q, [], q, x.now);
    es := [e] + [];
  }

  lemma AnswerIsStep(me: Id, sp: Spec, tm: Timing, x: Local, r: Name, since: int, ph: Phase)
    requires ValidSpec(sp) && Covers(sp.count, x.res) && r in sp.count
    requires (ph == ShortListen(r, since) && x.now >= since + ShortTime(tm))
          || (ph.LongListen? && ph.name == r && ph.since == since && x.now >= ph.until)
    ensures var p, e := Proc(Node(ph, x.res), x.out), Did(if ph.ShortListen? then QuietEnd else Answer, x.now);
            && Possible(sp, tm, p, e)
            && After(me, sp, tm, p, e) == Proc(Node(Answered(r, since, SeesHolder(x.res[r].members)), x.res), x.out)
  {
    hide SeesHolder, Says, Distinct, ShortTime;
    SaysNothing(sp, sp.order, Node(Answered(r, since, SeesHolder(x.res[r].members)), x.res), {});
  }

  /** The short listen, from the announcement on. */
  lemma ShortListenIsPath(me: Id, sp: Spec, tm: Timing, pkts: set<Packet>, x: Local, r: Name, short: seq<Arrival>)
    returns (es: seq<Event>)
    requires ValidSpec(sp) && Covers(sp.count, x.res) && r in sp.count
    requires PacketsOf(short) <= pkts
    ensures var y := SetStates(sp.count, x, [r], Querying, 0);
            var o := WaitFor(me, sp.count, y.res, OnAny, short, y.now, y.now + ShortTime(tm));
            Path(me, sp, tm, pkts, Proc(Node(Resting, x.res), x.out), x.now, es,
                 Proc(Node(PhaseAfter(ShortListen(r, x.now), o.woken, o.now, tm), o.res), y.out), o.now)
  {
    hide Possible, After, Path, WaitFor, SetStates, ValidSpec, Fits, PhaseAfter;
    var p, y := Proc(Node(Resting, x.res), x.out), SetStates(sp.count, x, [r], Querying, 0);
    QueryIsStep(me, sp, tm, x, r);
    var q := Proc(Node(ShortListen(r, x.now), y.res), y.out);
    es := StepAndWait(me, sp, tm, pkts, p, x.now, Query(r), q, OnAny, short, x.now + ShortTime(tm));
  }

  /** After the short listen: the long one, if something was heard, and the answer. */
  lemma RestIsPath(me: Id, sp: Spec, tm: Timing, pkts: set<Packet>, y: Local, r: Name, short: seq<Arrival>,
        long: seq<Arrival>, o1: Waited)
    returns (es: seq<Event>)
    requires ValidSpec(sp) && Covers(sp.count, y.res) && r in sp.count
    requires o1 == WaitFor(me, sp.count, y.res, OnAny, short, y.now, y.now + ShortTime(tm))
    requires PacketsOf(long) <= pkts
    ensures var z := HearOut(me, sp.count, tm, y, short, long);
            Path(me, sp, tm, pkts, Proc(Node(PhaseAfter(ShortListen(r, y.now), o1.woken, o1.now, tm), o1.res), y.out),
                 o1.now, es, Proc(Node(Answered(r, y.now, SeesHolder(z.res[r].members)), z.res), z.out), z.now)
  {
    hide Path, WaitFor, SeesHolder, ValidSpec, HearOut, ShortTime, LongTime;
    HearOutUnfolds(me, sp.count, tm, y, short, long);
    var z := HearOut(me, sp.count, tm, y, short, long);
    var ph := PhaseAfter(ShortListen(r, y.now), o1.woken, o1.now, tm);
    es := AnswerIsPath(me, sp, tm, pkts, z, r, y.now, ph);
    if o1.woken {
      var m := Proc(Node(ph, o1.res), y.out);
      var fs := LongListenIsPath(me, sp, tm, pkts, m, long, o1.now);
      PathAppend(me, sp, tm, pkts, m, o1.now, fs, Proc(Node(ph, z.res), y.out), z.now, es,
                 Proc(Node(Answered(r, y.now, SeesHolder(z.res[r].members)), z.res), z.out), z.now);
      es := fs + es;
    }
  }

  /** A query is a path of the process, and its answer is the one the process gives. */
  lemma AskIsPath(me: Id, sp: Spec, tm: Timing, pkts: set<Packet>, x: Local, r: Name, short: seq<Arrival>,
        long: seq<Arrival>) returns (es: seq<Event>)
    requires ValidSpec(sp) && Covers(sp.count, x.res) && r in sp.count
    requires PacketsOf(short) <= pkts && PacketsOf(long) <= pkts
    ensures var z := Ask(me, sp.count, tm, x, r, short, long);
            Path(me, sp, tm, pkts, Proc(Node(Resting, x.res), x.out), x.now, es,
                 Proc(Node(Answered(r, x.now, SeesHolder(z.members)), z.x.res), z.x.out), z.x.now)
  {
    hide Path, WaitFor, SetStates, SeesHolder, ValidSpec, HearOut, PhaseAfter, ShortTime;
    var y := SetStates(sp.count, x, [r], Querying, 0);
    var z := Ask(me, sp.count, tm, x, r, short, long);
    var o1 := WaitFor(me, sp.count, y.res, OnAny, short, y.now, y.now + ShortTime(tm));
    var m := Proc(Node(PhaseAfter(ShortListen(r, x.now), o1.woken, o1.now, tm), o1.res), y.out);
    es := ShortListenIsPath(me, sp, tm, pkts, x, r, short);
    var fs := RestIsPath(me, sp, tm, pkts, y, r, short, long, o1);
    PathAppend(me, sp, tm, pkts, Proc(Node(Resting, x.res), x.out), x.now, es, m, o1.now, fs,
               Proc(Node(Answered(r, x.now, SeesHolder(z.members)), z.x.res), z.x.out), z.x.now);
    es := es + fs;
  }

  lemma LongListenIsPath(me: Id, sp: Spec, tm: Timing, pkts: set<Packet>, p: Proc, long: seq<Arrival>, now: int)
    returns (es: seq<Event>)
    requires ValidSpec(sp) && Covers(sp.count, p.node.res) && p.node.phase.LongListen?
    requires PacketsOf(long) <= pkts
    ensures var o := WaitFor(me, sp.count, p.node.res, OnBackoff, long, now, now + LongTime(tm));
            Path(me, sp, tm, pkts, p, now, es, p.(node := p.node.(res := o.res)), o.now)
  {
    hide Path, WaitFor, Fits, ValidSpec, Painted, PacketsOf, Covers;
    PaintedFits(sp, p.node.phase, p.node.res, Starting);
    es := WaitIsPath(me, sp, tm, pkts, p, OnBackoff, long, now, now + LongTime(tm));
  }
}
