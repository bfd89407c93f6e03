/** What a member table holds after a wait: for every other process, the last packet that counted. */
module Hearing {
  import opened Protocol
  import opened LockSpec
  import opened LockLaws

  /** A packet of process id that the table of r takes in; the states do not change during a wait. */
  predicate Taken(me: Id, counts: LockSpec.Counts, res: map<Name, Res>, r: Name, id: Id, pkt: Packet) {
    && pkt.src == id != me && pkt.name == r
    && r in res && r in counts && !res[r].state.Idle?
    && (pkt.count == counts[r] || res[r].state.Querying?)
  }

  /** The last of the first n arrivals that counts, -1 if none does. */
  function LastCounting(me: Id, counts: LockSpec.Counts, res: map<Name, Res>, r: Name, id: Id, arr: seq<Arrival>,
        n: nat): (i: int)
    requires n <= |arr|
    ensures -1 <= i < n
    ensures i >= 0 ==> Taken(me, counts, res, r, id, arr[i].pkt)
    ensures forall j :: i < j < n ==> !Taken(me, counts, res, r, id, arr[j].pkt)
  {
    if n == 0 then -1
    else if Taken(me, counts, res, r, id, arr[n - 1].pkt) then n - 1
    else LastCounting(me, counts, res, r, id, arr, n - 1)
  }

  /** The entry of id after those arrivals: from the last counting one, or else as it was. */
  ghost predicate EntryIs(x: Res, y: Res, id: Id, arr: seq<Arrival>, i: int, now: int)
    requires -1 <= i < |arr|
  {
    if i >= 0 then id in y.members
        && y.members[id] == Member(arr[i].pkt.state, arr[i].pkt.count, now + Elapsed(arr, i + 1))
    else (id in y.members <==> id in x.members) && (id in x.members ==> y.members[id] == x.members[id])
  }

  lemma OnePacket(me: Id, counts: LockSpec.Counts, res: map<Name, Res>, r: Name, id: Id, pkt: Packet, now: int)
    requires Covers(counts, res) && r in res
    ensures var y := HandlePacket(me, counts, res, pkt, now)[r];
            if Taken(me, counts, res, r, id, pkt)
            then id in y.members && y.members[id] == Member(pkt.state, pkt.count, now)
            else
              && (id in y.members <==> id in res[r].members)
              && (id in res[r].members ==> y.members[id] == res[r].members[id])
  {
  }

  lemma {:induction false} LastShift(me: Id, counts: LockSpec.Counts, a: map<Name, Res>, b: map<Name, Res>,
        r: Name, id: Id, arr: seq<Arrival>, n: nat)
    requires 1 <= n <= |arr| && SameStates(a, b)
    ensures LastCounting(me, counts, a, r, id, arr, n)
         == (var i := LastCounting(me, counts, b, r, id, arr[1..], n - 1);
             if i >= 0 then i + 1 else if Taken(me, counts, a, r, id, arr[0].pkt) then 0 else -1)
  {
    if n > 1 {
      assert arr[1..][n - 2] == arr[n - 1];
      LastShift(me, counts, a, b, r, id, arr, n - 1);
    }
  }

  /** One packet more, at the front. */
  lemma EntryShift(me: Id, counts: LockSpec.Counts, res: map<Name, Res>, y: Res, arr: seq<Arrival>, n: nat,
        now: int, r: Name, id: Id)
    requires Covers(counts, res) && r in res && 1 <= n <= |arr|
    requires var t := now + arr[0].gap;
             var res' := HandlePacket(me, counts, res, arr[0].pkt, t);
             EntryIs(res'[r], y, id, arr[1..], LastCounting(me, counts, res', r, id, arr[1..], n - 1), t)
    ensures EntryIs(res[r], y, id, arr, LastCounting(me, counts, res, r, id, arr, n), now)
  {
    hide HandlePacket, Taken, LastCounting;
    var t, pkt := now + arr[0].gap, arr[0].pkt;
    var res' := HandlePacket(me, counts, res, pkt, t);
    OnePacket(me, counts, res, r, id, pkt, t);
    LastShift(me, counts, res, res', r, id, arr, n);
    var i := LastCounting(me, counts, res', r, id, arr[1..], n - 1);
    if i >= 0 {
      assert arr[1..][i] == arr[i + 1] && Elapsed(arr, i + 2) == arr[0].gap + Elapsed(arr[1..], i + 1);
    } else {
      assert Elapsed(arr, 1) == arr[0].gap + Elapsed(arr[1..], 0);
    }
  }

  /** After a wait the table of r holds, for every other process, exactly what the last counting
      packet among those handled said, stamped with its arrival; without one the entry is untouched. */
  lemma {:induction false} TableIsLastHeard(me: Id, counts: LockSpec.Counts, res: map<Name, Res>, w: Waiting,
        arr: seq<Arrival>, now: int, deadline: int, r: Name, id: Id)
    requires Covers(counts, res) && now <= deadline && r in res
    ensures var o := WaitFor(me, counts, res, w, arr, now, deadline);
            EntryIs(res[r], o.res[r], id, arr, LastCounting(me, counts, res, r, id, arr, |arr| - |o.rest|), now)
    decreases |arr|
  {
    hide HandlePacket, Wakes, Taken, EntryIs, LastCounting, WaitFor;
    WaitUnfolds(me, counts, res, w, arr, now, deadline);
    if |arr| == 0 || now + arr[0].gap >= deadline {
      NothingHeard(me, counts, res, r, id, arr, now);
    } else {
      var t, pkt := now + arr[0].gap, arr[0].pkt;
      var res' := HandlePacket(me, counts, res, pkt, t);
      var o := WaitFor(me, counts, res, w, arr, now, deadline);
      if Wakes(me, res, w, pkt) {
        NothingHeard(me, counts, res', r, id, arr[1..], t);
      } else {
        TableIsLastHeard(me, counts, res', w, arr[1..], t, deadline, r, id);
      }
      EntryShift(me, counts, res, o.res[r], arr, |arr| - |o.rest|, now, r, id);
    }
  }

  lemma NothingHeard(me: Id, counts: LockSpec.Counts, res: map<Name, Res>, r: Name, id: Id, arr: seq<Arrival>, now: int)
    requires r in res
    ensures EntryIs(res[r], res[r], id, arr, LastCounting(me, counts, res, r, id, arr, 0), now)
  {
  }

  /** How a wait of that length goes that handles the first n arrivals. */
  ghost predicate Course(me: Id, res: map<Name, Res>, w: Waiting, arr: seq<Arrival>, time: int, woken: bool, n: nat)
    requires n <= |arr|
  {
    && (n > 0 ==> Elapsed(arr, n) < time)
    && (forall i :: 0 <= i < (if woken then n - 1 else n) ==> !Wakes(me, res, w, arr[i].pkt))
    && (woken ==> n > 0 && Wakes(me, res, w, arr[n - 1].pkt))
    && (!woken && n < |arr| ==> Elapsed(arr, n + 1) >= time)
  }

  lemma CourseMore(me: Id, a: map<Name, Res>, b: map<Name, Res>, w: Waiting, arr: seq<Arrival>, time: int,
        woken: bool, n: nat)
    requires 1 <= n <= |arr| && arr[0].gap < time && SameStates(a, b)
    requires if n == 1 && woken then Wakes(me, a, w, arr[0].pkt)
             else !Wakes(me, a, w, arr[0].pkt) && Course(me, b, w, arr[1..], time - arr[0].gap, woken, n - 1)
    ensures Course(me, a, w, arr, time, woken, n)
  {
    assert Elapsed(arr, n) == arr[0].gap + Elapsed(arr[1..], n - 1);
    assert n < |arr| ==> Elapsed(arr, n + 1) == arr[0].gap + Elapsed(arr[1..], n);
    assert Elapsed(arr[1..], 0) == 0;
    forall i | 1 <= i < |arr| ensures Wakes(me, a, w, arr[i].pkt) == Wakes(me, b, w, arr[1..][i - 1].pkt) {
    }
    hide Wakes, Elapsed;
  }

  lemma {:induction false} WaitCourse(me: Id, counts: LockSpec.Counts, res: map<Name, Res>, w: Waiting,
        arr: seq<Arrival>, now: int, deadline: int)
    requires Covers(counts, res) && now <= deadline
    ensures var o := WaitFor(me, counts, res, w, arr, now, deadline);
            var n := |arr| - |o.rest|;
            && Course(me, res, w, arr, deadline - now, o.woken, n)
            && o.now == if o.woken then now + Elapsed(arr, n) else deadline
    decreases |arr|
  {
    hide HandlePacket, Wakes, Course, SameStates, WaitFor;
    WaitUnfolds(me, counts, res, w, arr, now, deadline);
    if |arr| == 0 || now + arr[0].gap >= deadline {
      CourseNone(me, res, w, arr, deadline - now);
    } else {
      var t, pkt := now + arr[0].gap, arr[0].pkt;
      var res' := HandlePacket(me, counts, res, pkt, t);
      var o := WaitFor(me, counts, res, w, arr, now, deadline);
      var n := |arr| - |o.rest|;
      if !Wakes(me, res, w, pkt) {
        WaitCourse(me, counts, res', w, arr[1..], t, deadline);
      } else {
        assert Elapsed(arr, 1) == arr[0].gap + Elapsed(arr[1..], 0);
      }
      StatesKept(me, counts, res, pkt, t);
      CourseMore(me, res, res', w, arr, deadline - now, o.woken, n);
    }
  }

  lemma {:induction false} RestIs(me: Id, counts: LockSpec.Counts, res: map<Name, Res>, w: Waiting,
        arr: seq<Arrival>, now: int, deadline: int)
    requires Covers(counts, res) && now <= deadline
    ensures var o := WaitFor(me, counts, res, w, arr, now, deadline); o.rest == arr[|arr| - |o.rest|..]
    decreases |arr|
  {
    hide HandlePacket, Wakes, WaitFor;
    WaitUnfolds(me, counts, res, w, arr, now, deadline);
    if |arr| > 0 && now + arr[0].gap < deadline && !Wakes(me, res, w, arr[0].pkt) {
      var t := now + arr[0].gap;
      RestIs(me, counts, HandlePacket(me, counts, res, arr[0].pkt, t), w, arr[1..], t, deadline);
    }
  }

  /** A wait handles exactly the packets that arrive before its deadline, up to and including the
      first that notifies its condition, and ends at that packet's arrival, or else at the deadline. */
  lemma WaitIs(me: Id, counts: LockSpec.Counts, res: map<Name, Res>, w: Waiting, arr: seq<Arrival>,
        now: int, deadline: int)
    requires Covers(counts, res) && now <= deadline
    ensures var o := WaitFor(me, counts, res, w, arr, now, deadline);
            var n := |arr| - |o.rest|;
            && o.rest == arr[n..] && Course(me, res, w, arr, deadline - now, o.woken, n)
            && o.now == if o.woken then now + Elapsed(arr, n) else deadline
  {
    hide WaitFor, Course, Elapsed;
    WaitCourse(me, counts, res, w, arr, now, deadline);
    RestIs(me, counts, res, w, arr, now, deadline);
  }

  lemma StatesKept(me: Id, counts: LockSpec.Counts, res: map<Name, Res>, pkt: Packet, now: int)
    requires Covers(counts, res)
    ensures SameStates(res, HandlePacket(me, counts, res, pkt, now))
  {
  }

  lemma CourseNone(me: Id, res: map<Name, Res>, w: Waiting, arr: seq<Arrival>, time: int)
    requires |arr| == 0 || arr[0].gap >= time
    ensures Course(me, res, w, arr, time, false, 0)
  {
    if |arr| > 0 {
      assert Elapsed(arr, 1) == arr[0].gap + Elapsed(arr[1..], 0);
    }
  }
}
