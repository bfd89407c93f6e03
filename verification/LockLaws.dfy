/** What the acquire loop guarantees, for every environment. */
module LockLaws {
  import opened Protocol
  import opened LockSpec

  // ---- the loops over the targets ----

  /** The announcements of one round over the names ts. */
  function Said(counts: Counts, ts: seq<Name>, st: LockState): seq<Announcement>
    requires forall r :: r in ts ==> r in counts
  {
    if |ts| == 0 then [] else [Announcement(ts[0], st, counts[ts[0]])] + Said(counts, ts[1..], st)
  }

  function Painted(res: map<Name, Res>, targets: seq<Name>, st: LockState): map<Name, Res> {
    map r | r in res :: if r in targets then res[r].(state := st) else res[r]
  }

  lemma SaidMore(counts: Counts, out: seq<Announcement>, ts: seq<Name>, st: LockState, k: nat, j: nat)
    requires k < j <= |ts| && forall r :: r in ts ==> r in counts
    ensures forall r :: r in ts[k..j] || r in ts[k + 1..j] || r in ts[k..] || r in ts[k + 1..] ==> r in counts
    ensures (out + [Announcement(ts[k], st, counts[ts[k]])]) + Said(counts, ts[k + 1..j], st)
          == out + Said(counts, ts[k..j], st)
    ensures j == |ts| ==> ts[k..j] == ts[k..] && ts[k + 1..j] == ts[k + 1..]
  {
    assert ts[k..j] == [ts[k]] + ts[k + 1..j];
  }

  /** A round of `setState` sets every target, keeps every table, and announces each target once, in order. */
  lemma {:induction false} SetStatesIs(counts: Counts, x: Local, targets: seq<Name>, st: LockState, k: nat)
    requires Covers(counts, x.res) && k <= |targets| && forall r :: r in targets ==> r in counts
    ensures SetStates(counts, x, targets, st, k)
         == Local(Painted(x.res, targets[k..], st), x.now, x.out + Said(counts, targets[k..], st))
    decreases |targets| - k
  {
    if k < |targets| {
      var r := targets[k];
      var y := Local(SetOne(x.res, r, st), x.now, x.out + [Announcement(r, st, counts[r])]);
      SetStatesIs(counts, y, targets, st, k + 1);
      assert targets[k..] == [r] + targets[k + 1..];
      assert Painted(y.res, targets[k + 1..], st) == Painted(x.res, targets[k..], st);
      SaidMore(counts, x.out, targets, st, k, |targets|);
    } else {
      assert Painted(x.res, targets[k..], st) == x.res;
    }
  }

  function Cleared(res: map<Name, Res>, targets: seq<Name>): map<Name, Res> {
    map r | r in res :: if r in targets then Res(Idle, map[]) else res[r]
  }

  /** A round of `reset` leaves every target IDLE with an empty table. */
  lemma {:induction false} ResetFromIs(counts: Counts, x: Local, targets: seq<Name>, k: nat)
    requires Covers(counts, x.res) && k <= |targets| && forall r :: r in targets ==> r in counts
    ensures ResetFrom(counts, x, targets, k)
         == Local(Cleared(x.res, targets[k..]), x.now, x.out + Said(counts, targets[k..], Idle))
    decreases |targets| - k
  {
    if k < |targets| {
      var r := targets[k];
      var y := Local(x.res[r := Res(Idle, map[])], x.now, x.out + [Announcement(r, Idle, counts[r])]);
      ResetFromIs(counts, y, targets, k + 1);
      assert targets[k..] == [r] + targets[k + 1..];
      assert Cleared(y.res, targets[k + 1..]) == Cleared(x.res, targets[k..]);
      SaidMore(counts, x.out, targets, Idle, k, |targets|);
    } else {
      assert Cleared(x.res, targets[k..]) == x.res;
    }
  }

  predicate Room(counts: Counts, res: map<Name, Res>, r: Name) {
    r in res && r in counts && Acquirable(res[r].members, counts[r])
  }

  /** The first target from k on that has no room. */
  function FirstFull(counts: Counts, res: map<Name, Res>, targets: seq<Name>, k: nat): (j: nat)
    requires k <= |targets|
    ensures k <= j <= |targets|
    ensures forall i :: k <= i < j ==> Room(counts, res, targets[i])
    ensures j < |targets| ==> !Room(counts, res, targets[j])
    decreases |targets| - k
  {
    if k == |targets| || !Room(counts, res, targets[k]) then k else FirstFull(counts, res, targets, k + 1)
  }

  /** Setting a state changes the room of nobody. */
  lemma {:induction false} FirstFullSet(counts: Counts, res: map<Name, Res>, r: Name, st: LockState,
        targets: seq<Name>, k: nat)
    requires k <= |targets| && r in res
    ensures FirstFull(counts, SetOne(res, r, st), targets, k) == FirstFull(counts, res, targets, k)
    decreases |targets| - k
  {
    if k < |targets| && Room(counts, res, targets[k]) {
      FirstFullSet(counts, res, r, st, targets, k + 1);
    }
  }

  /** The commit round sets and announces exactly the targets before the first one without room;
      it succeeds when there is none. */
  lemma {:induction false} CommitIs(counts: Counts, x: Local, targets: seq<Name>, k: nat)
    requires Covers(counts, x.res) && k <= |targets| && forall r :: r in targets ==> r in counts
    ensures var j := FirstFull(counts, x.res, targets, k);
            Commit(counts, x, targets, k)
            == (Local(Painted(x.res, targets[k..j], Acquired), x.now, x.out + Said(counts, targets[k..j], Acquired)),
                j == |targets|)
    decreases |targets| - k
  {
    var j := FirstFull(counts, x.res, targets, k);
    if k < |targets| && Room(counts, x.res, targets[k]) {
      var r := targets[k];
      var y := Local(SetOne(x.res, r, Acquired), x.now, x.out + [Announcement(r, Acquired, counts[r])]);
      FirstFullSet(counts, x.res, r, Acquired, targets, k + 1);
      CommitIs(counts, y, targets, k + 1);
      PaintMore(x.res, targets, Acquired, k, j);
      SaidMore(counts, x.out, targets, Acquired, k, j);
    } else {
      assert targets[k..j] == [];
      assert Painted(x.res, targets[k..j], Acquired) == x.res;
      assert x.out + [] == x.out;
    }
  }

  lemma PaintMore(res: map<Name, Res>, ts: seq<Name>, st: LockState, k: nat, j: nat)
    requires k < j <= |ts| && ts[k] in res
    ensures Painted(SetOne(res, ts[k], st), ts[k + 1..j], st) == Painted(res, ts[k..j], st)
  {
    assert ts[k..j] == [ts[k]] + ts[k + 1..j];
  }

  // ---- waits ----

  /** The time until the i-th arrival. */
  function Elapsed(arr: seq<Arrival>, i: nat): nat
    requires i <= |arr|
  {
    if i == 0 then 0 else arr[0].gap + Elapsed(arr[1..], i - 1)
  }

  /** The i-th packet notifies w, and arrives within the time. */
  predicate Notifies(me: Id, res: map<Name, Res>, w: Waiting, arr: seq<Arrival>, time: int, i: int) {
    0 <= i < |arr| && Elapsed(arr, i + 1) < time && Wakes(me, res, w, arr[i].pkt)
  }

  ghost predicate WokenInTime(me: Id, res: map<Name, Res>, w: Waiting, arr: seq<Arrival>, time: int) {
    exists i :: Notifies(me, res, w, arr, time, i)
  }

  lemma WokenLater(me: Id, res: map<Name, Res>, w: Waiting, arr: seq<Arrival>, time: int)
    requires |arr| > 0
    ensures WokenInTime(me, res, w, arr, time) <==>
              (arr[0].gap < time && Wakes(me, res, w, arr[0].pkt))
                  || WokenInTime(me, res, w, arr[1..], time - arr[0].gap)
  {
    var g := arr[0].gap;
    if WokenInTime(me, res, w, arr, time) {
      var i :| Notifies(me, res, w, arr, time, i);
      assert Elapsed(arr, i + 1) == g + Elapsed(arr[1..], i);
      if i > 0 {
        assert Notifies(me, res, w, arr[1..], time - g, i - 1);
      }
    }
    if arr[0].gap < time && Wakes(me, res, w, arr[0].pkt) {
      assert Elapsed(arr, 0 + 1) == g + Elapsed(arr[1..], 0);
      assert Notifies(me, res, w, arr, time, 0);
    }
    if WokenInTime(me, res, w, arr[1..], time - g) {
      var i :| Notifies(me, res, w, arr[1..], time - g, i);
      assert Notifies(me, res, w, arr, time, i + 1);
    }
  }

  lemma NotWokenWithoutTime(me: Id, res: map<Name, Res>, w: Waiting, arr: seq<Arrival>, time: int)
    requires |arr| == 0 || arr[0].gap >= time
    ensures !WokenInTime(me, res, w, arr, time)
  {
    forall i ensures !Notifies(me, res, w, arr, time, i) {
      if 0 <= i < |arr| {
        assert Elapsed(arr, i + 1) == arr[0].gap + Elapsed(arr[1..], i);
      }
    }
  }

  predicate SameStates(a: map<Name, Res>, b: map<Name, Res>) {
    a.Keys == b.Keys && forall r :: r in a ==> a[r].state == b[r].state
  }

  lemma WakesByState(me: Id, a: map<Name, Res>, b: map<Name, Res>, w: Waiting, arr: seq<Arrival>, time: int)
    requires SameStates(a, b)
    ensures WokenInTime(me, a, w, arr, time) <==> WokenInTime(me, b, w, arr, time)
  {
    forall i ensures Notifies(me, a, w, arr, time, i) <==> Notifies(me, b, w, arr, time, i) {
    }
  }

  /** A wait is cut short exactly when a packet that notifies its condition arrives in time. */
  lemma {:induction false} WokenIff(me: Id, counts: Counts, res: map<Name, Res>, w: Waiting, arr: seq<Arrival>,
        now: int, deadline: int)
    requires Covers(counts, res) && now <= deadline
    ensures WaitFor(me, counts, res, w, arr, now, deadline).woken <==> WokenInTime(me, res, w, arr, deadline - now)
    decreases |arr|
  {
    if |arr| == 0 || now + arr[0].gap >= deadline {
      NotWokenWithoutTime(me, res, w, arr, deadline - now);
    } else {
      var t, pkt := now + arr[0].gap, arr[0].pkt;
      var res' := HandlePacket(me, counts, res, pkt, t);
      WokenLater(me, res, w, arr, deadline - now);
      if !Wakes(me, res, w, pkt) {
        WokenIff(me, counts, res', w, arr[1..], t, deadline);
        WakesByState(me, res, res', w, arr[1..], deadline - t);
      }
    }
  }

  // ---- one attempt ----

  /** The listening period of an attempt. */
  function Listened(me: Id, counts: Counts, targets: seq<Name>, x: Local, a: Script): (o: Waited)
    requires Covers(counts, x.res)
    ensures Covers(counts, o.res) && x.now <= o.now <= x.now + a.listenTime
          && (!o.woken ==> o.now == x.now + a.listenTime)
    ensures forall r :: r in x.res && r in targets ==> o.res[r].state.Starting?
  {
    WaitFor(me, counts, Painted(x.res, targets, Starting), OnListen, a.listen, x.now, x.now + a.listenTime)
  }

  /** The collision window of an attempt, if it gets that far. */
  function Windowed(me: Id, counts: Counts, tm: Timing, targets: seq<Name>, x: Local, a: Script): (o: Waited)
    requires Covers(counts, x.res)
    ensures Covers(counts, o.res)
    ensures !o.woken ==> o.now == Listened(me, counts, targets, x, a).now + WindowTime(tm)
  {
    var o1 := Listened(me, counts, targets, x, a);
    WaitFor(me, counts, Painted(o1.res, targets, Acquiring), OnWindow, a.window, o1.now, o1.now + WindowTime(tm))
  }

  lemma WholeRound(counts: Counts, x: Local, targets: seq<Name>, st: LockState)
    requires Covers(counts, x.res) && forall r :: r in targets ==> r in counts
    ensures SetStates(counts, x, targets, st, 0)
         == Local(Painted(x.res, targets, st), x.now, x.out + Said(counts, targets, st))
  {
    hide SetStates, Painted, Said;
    SetStatesIs(counts, x, targets, st, 0);
    assert targets[0..] == targets;
  }

  /** The course of an attempt. */
  lemma TryOnceIs(me: Id, counts: Counts, tm: Timing, targets: seq<Name>, x: Local, a: Script)
    requires Covers(counts, x.res) && forall r :: r in targets ==> r in counts
    ensures var o1, o2 := Listened(me, counts, targets, x, a), Windowed(me, counts, tm, targets, x, a);
            var said1 := x.out + Said(counts, targets, Starting);
            var said2 := said1 + Said(counts, targets, Acquiring);
            TryOnce(me, counts, tm, targets, x, a)
            == if o1.woken then (Local(o1.res, o1.now, said1), Interrupted)
               else
                 var (y, ok) := Conclude(counts, Local(o2.res, o2.now, said2), targets, o2.woken);
                 (y, if ok then Won else Lost)
  {
    hide SetStates, Painted, Said, WaitFor, Conclude;
    WholeRound(counts, x, targets, Starting);
    var x1 := SetStates(counts, x, targets, Starting, 0);
    var o1 := WaitFor(me, counts, x1.res, OnListen, a.listen, x1.now, x1.now + a.listenTime);
    WholeRound(counts, Local(o1.res, o1.now, x1.out), targets, Acquiring);
  }

  /** The end of an attempt: everything committed and announced, or everything reset and announced. */
  lemma ConcludeIs(counts: Counts, x: Local, targets: seq<Name>, woken: bool)
    requires Covers(counts, x.res) && forall r :: r in targets ==> r in counts
    ensures var (y, ok) := Conclude(counts, x, targets, woken);
            var j := FirstFull(counts, x.res, targets, 0);
            && (ok <==> !woken && forall r :: r in targets ==> Room(counts, x.res, r))
            && (ok ==> y == Local(Painted(x.res, targets, Acquired), x.now, x.out + Said(counts, targets, Acquired)))
            && (!ok ==> y.now == x.now && y.res == Cleared(x.res, targets))
            && (!ok ==> y.out == x.out + (if woken then [] else Said(counts, targets[..j], Acquired))
                                 + Said(counts, targets, Idle))
  {
    hide Commit, ResetFrom, Painted, Room, Said;
    assert targets[0..] == targets;
    var j := FirstFull(counts, x.res, targets, 0);
    if woken {
      ResetFromIs(counts, x, targets, 0);
      assert x.out + [] == x.out;
    } else {
      CommitIs(counts, x, targets, 0);
      assert targets[0..j] == targets[..j];
      NoneFull(counts, x.res, targets);
      if j == |targets| {
        assert targets[..j] == targets;
      } else {
        var (z, ok) := Commit(counts, x, targets, 0);
        ResetFromIs(counts, z, targets, 0);
        ClearedPainted(x.res, targets, targets[..j]);
      }
    }
  }

  lemma NoneFull(counts: Counts, res: map<Name, Res>, targets: seq<Name>)
    ensures FirstFull(counts, res, targets, 0) == |targets| <==> forall r :: r in targets ==> Room(counts, res, r)
  {
    var j := FirstFull(counts, res, targets, 0);
    if j < |targets| {
      assert targets[j] in targets;
    } else {
      forall r | r in targets ensures Room(counts, res, r) {
        var i :| 0 <= i < |targets| && targets[i] == r;
      }
    }
  }

  lemma ClearedPainted(res: map<Name, Res>, targets: seq<Name>, ts: seq<Name>)
    requires forall r :: r in ts ==> r in targets
    ensures Cleared(Painted(res, ts, Acquired), targets) == Cleared(res, targets)
  {
  }
}
