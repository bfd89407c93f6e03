/** What a query of the lock object hears, how long it takes, and what its answer means. */
module Asking {
  import opened Protocol
  import opened LockSpec
  import opened LockLaws
  import opened LockResults
  import opened Hearing

  /** The i-th packet comes from another process, is about one of those resources, and arrives in time. */
  predicate Disturbs(me: Id, names: set<Name>, arr: seq<Arrival>, time: int, i: int) {
    0 <= i < |arr| && Elapsed(arr, i + 1) < time && arr[i].pkt.src != me && arr[i].pkt.name in names
  }

  /** The first n arrivals are those that arrive within the time. */
  predicate Within(arr: seq<Arrival>, time: int, n: nat) {
    n <= |arr| && (n > 0 ==> Elapsed(arr, n) < time) && (n < |arr| ==> Elapsed(arr, n + 1) >= time)
  }

  /** The first n packets of the short listen: up to the first that disturbs it, or all in time. */
  predicate ShortHeard(me: Id, names: set<Name>, arr: seq<Arrival>, time: int, woken: bool, n: nat) {
    && n <= |arr|
    && (forall i :: 0 <= i < (if woken then n - 1 else n) ==> !Disturbs(me, names, arr, time, i))
    && (if woken then n > 0 && Disturbs(me, names, arr, time, n - 1) else Within(arr, time, n))
  }

  /** The last of those packets that id sent about r, -1 if there is none. */
  function LastFrom(me: Id, r: Name, id: Id, heard: seq<Arrival>): (i: int)
    ensures -1 <= i < |heard|
    ensures i >= 0 ==> heard[i].pkt.src == id != me && heard[i].pkt.name == r
    ensures forall j :: i < j < |heard| ==> !(heard[j].pkt.src == id != me && heard[j].pkt.name == r)
  {
    if |heard| == 0 then -1
    else if heard[|heard| - 1].pkt.src == id != me && heard[|heard| - 1].pkt.name == r then |heard| - 1
    else LastFrom(me, r, id, heard[..|heard| - 1])
  }

  /** The last word of id about r is that it holds it: of the packets heard, or else of what was recorded. */
  predicate SaysHolds(me: Id, r: Name, id: Id, before: Table, heard: seq<Arrival>) {
    var i := LastFrom(me, r, id, heard);
    if i >= 0 then heard[i].pkt.state.Acquired? else id in before && before[id].state.Acquired?
  }

  lemma ShortIs(me: Id, counts: LockSpec.Counts, res: map<Name, Res>, arr: seq<Arrival>, now: int, time: nat)
    returns (n: nat)
    requires Covers(counts, res)
    ensures var o := WaitFor(me, counts, res, OnAny, arr, now, now + time);
            && n == |arr| - |o.rest| && ShortHeard(me, res.Keys, arr, time, o.woken, n)
            && o.now == now + if o.woken then Elapsed(arr, n) else time
  {
    hide WaitFor, Elapsed;
    var o := WaitFor(me, counts, res, OnAny, arr, now, now + time);
    WaitIs(me, counts, res, OnAny, arr, now, now + time);
    n := |arr| - |o.rest|;
  }

  lemma LongIs(me: Id, counts: LockSpec.Counts, res: map<Name, Res>, arr: seq<Arrival>, now: int, time: nat)
    returns (n: nat)
    requires Covers(counts, res)
    ensures var o := WaitFor(me, counts, res, OnBackoff, arr, now, now + time);
            !o.woken && n == |arr| - |o.rest| && Within(arr, time, n) && o.now == now + time
  {
    hide WaitFor, Elapsed;
    var o := WaitFor(me, counts, res, OnBackoff, arr, now, now + time);
    WaitIs(me, counts, res, OnBackoff, arr, now, now + time);
    NothingWakes(me, counts, res, arr, now, now + time);
    n := |arr| - |o.rest|;
  }

  /** While a resource is QUERYING every packet about it counts. */
  lemma {:induction false} EveryPacketCounts(me: Id, counts: LockSpec.Counts, res: map<Name, Res>, r: Name, id: Id,
        arr: seq<Arrival>, n: nat)
    requires n <= |arr| && r in res && r in counts && res[r].state.Querying?
    ensures LastCounting(me, counts, res, r, id, arr, n) == LastFrom(me, r, id, arr[..n])
  {
    if n > 0 {
      assert arr[..n][..n - 1] == arr[..n - 1] && arr[..n][n - 1] == arr[n - 1];
      EveryPacketCounts(me, counts, res, r, id, arr, n - 1);
    }
  }

  lemma {:induction false} LastOfBoth(me: Id, r: Name, id: Id, a: seq<Arrival>, b: seq<Arrival>)
    ensures LastFrom(me, r, id, a + b)
         == var j := LastFrom(me, r, id, b); if j >= 0 then |a| + j else LastFrom(me, r, id, a)
  {
    if |b| == 0 {
      assert a + b == a;
    } else {
      assert (a + b)[..|a + b| - 1] == a + b[..|b| - 1] && (a + b)[|a + b| - 1] == b[|b| - 1];
      LastOfBoth(me, r, id, a, b[..|b| - 1]);
    }
  }

  /** After a wait of the querying lock: the last word of id about r. */
  lemma WaitSays(me: Id, counts: LockSpec.Counts, res: map<Name, Res>, w: Waiting, r: Name, id: Id, arr: seq<Arrival>,
        now: int, deadline: int)
    requires Covers(counts, res) && now <= deadline && r in res && res[r].state.Querying?
    ensures var o := WaitFor(me, counts, res, w, arr, now, deadline);
            o.res[r].state.Querying?
            && (SaysHolds(me, r, id, res[r].members, arr[..|arr| - |o.rest|])
                <==> id in o.res[r].members && o.res[r].members[id].state.Acquired?)
  {
    hide WaitFor, LastCounting, LastFrom, Elapsed;
    var o := WaitFor(me, counts, res, w, arr, now, deadline);
    TableIsLastHeard(me, counts, res, w, arr, now, deadline, r, id);
    EveryPacketCounts(me, counts, res, r, id, arr, |arr| - |o.rest|);
  }

  /** The times of a query in beacons: the short listen, and the long one. */
  lemma QueryTimes(tm: Timing)
    ensures ShortTime(tm) == (tm.sense + 1) * tm.beacon && LongTime(tm) == 2 * tm.maxBackoff * tm.beacon
  {
    BeaconsProduct(tm.beacon, tm.sense + 1);
    BeaconsProduct(tm.beacon, 2 * tm.maxBackoff);
  }

  lemma StartsQuerying(counts: LockSpec.Counts, x: Local, r: Name)
    requires Covers(counts, x.res) && r in counts
    ensures var y := SetStates(counts, x, [r], Querying, 0);
            && y.now == x.now && y.res.Keys == x.res.Keys && y.res[r] == x.res[r].(state := Querying)
  {
    hide SetStates;
    OneState(counts, x, r, Querying);
  }

  /** A query listens for sense + 1 beacons. If no packet of another process about a known resource
      arrives, that is all; else it listens on for twice the maximal backoff from the first of them on.
      It sees a holder if and only if the last word of some process about the resource, in the packets
      heard or else in what was recorded before, is that it holds it. */
  lemma AnswerIs(me: Id, counts: LockSpec.Counts, tm: Timing, x: Local, r: Name, short: seq<Arrival>,
        long: seq<Arrival>)
    returns (woken: bool, n1: nat, n2: nat)
    requires Covers(counts, x.res) && r in counts
    ensures n1 <= |short| && n2 <= |long|
    ensures ShortHeard(me, counts.Keys, short, (tm.sense + 1) * tm.beacon, woken, n1)
    ensures if woken then Within(long, 2 * tm.maxBackoff * tm.beacon, n2) else n2 == 0
    ensures Ask(me, counts, tm, x, r, short, long).x.now
         == x.now + if woken then Elapsed(short, n1) + 2 * tm.maxBackoff * tm.beacon else (tm.sense + 1) * tm.beacon
    ensures (exists id :: var t := Ask(me, counts, tm, x, r, short, long).members; id in t && t[id].state.Acquired?)
            <==> exists id :: SaysHolds(me, r, id, x.res[r].members, short[..n1] + long[..n2])
  {
    hide SetStates, HearOut, Elapsed, ShortTime, LongTime, Within, ShortHeard, SaysHolds;
    QueryTimes(tm);
    StartsQuerying(counts, x, r);
    var y := SetStates(counts, x, [r], Querying, 0);
    woken, n1, n2 := HearOutIs(me, counts, tm, y, r, short, long);
    var t := Ask(me, counts, tm, x, r, short, long).members;
    forall id
      ensures SaysHolds(me, r, id, x.res[r].members, short[..n1] + long[..n2]) <==> id in t && t[id].state.Acquired?
    {
      assert HeardOut(me, r, y.res[r].members, short[..n1] + long[..n2], t, id);
    }
  }

  /** The table that id's last word leaves. */
  predicate HeardOut(me: Id, r: Name, before: Table, heard: seq<Arrival>, after: Table, id: Id) {
    SaysHolds(me, r, id, before, heard) <==> id in after && after[id].state.Acquired?
  }

  lemma HearOutIs(me: Id, counts: LockSpec.Counts, tm: Timing, y: Local, r: Name, short: seq<Arrival>,
        long: seq<Arrival>)
    returns (woken: bool, n1: nat, n2: nat)
    requires Covers(counts, y.res) && r in counts && y.res[r].state.Querying?
    ensures n1 <= |short| && n2 <= |long| && ShortHeard(me, counts.Keys, short, ShortTime(tm), woken, n1)
    ensures if woken then Within(long, LongTime(tm), n2) else n2 == 0
    ensures var z := HearOut(me, counts, tm, y, short, long);
            && z.now == y.now + (if woken then Elapsed(short, n1) + LongTime(tm) else ShortTime(tm))
            && forall id :: HeardOut(me, r, y.res[r].members, short[..n1] + long[..n2], z.res[r].members, id)
  {
    hide WaitFor, Elapsed, ShortTime, LongTime, Within, ShortHeard, HeardOut, HearOut;
    woken, n1, n2 := ListensAre(me, counts, tm, y, short, long);
    var heard, table := short[..n1] + long[..n2], HearOut(me, counts, tm, y, short, long).res[r].members;
    forall id ensures HeardOut(me, r, y.res[r].members, heard, table, id) {
      WordOf(me, counts, tm, y, r, short, long, n1, n2, id);
    }
  }

  lemma ListensAre(me: Id, counts: LockSpec.Counts, tm: Timing, y: Local, short: seq<Arrival>, long: seq<Arrival>)
    returns (woken: bool, n1: nat, n2: nat)
    requires Covers(counts, y.res)
    ensures n1 <= |short| && n2 <= |long| && ShortHeard(me, counts.Keys, short, ShortTime(tm), woken, n1)
    ensures if woken then Within(long, LongTime(tm), n2) else n2 == 0
    ensures HearOut(me, counts, tm, y, short, long).now
         == y.now + if woken then Elapsed(short, n1) + LongTime(tm) else ShortTime(tm)
    ensures var o1 := WaitFor(me, counts, y.res, OnAny, short, y.now, y.now + ShortTime(tm));
            var o2 := WaitFor(me, counts, o1.res, OnBackoff, long, o1.now, o1.now + LongTime(tm));
            n1 == |short| - |o1.rest| && n2 == if o1.woken then |long| - |o2.rest| else 0
  {
    hide WaitFor, Elapsed, ShortTime, LongTime, Within, ShortHeard, HearOut;
    HearOutUnfolds(me, counts, tm, y, short, long);
    var o1 := WaitFor(me, counts, y.res, OnAny, short, y.now, y.now + ShortTime(tm));
    n1 := ShortIs(me, counts, y.res, short, y.now, ShortTime(tm));
    woken, n2 := o1.woken, 0;
    if woken {
      n2 := LongIs(me, counts, o1.res, long, o1.now, LongTime(tm));
    }
  }

  /** The last word of one process, over both listens. */
  lemma WordOf(me: Id, counts: LockSpec.Counts, tm: Timing, y: Local, r: Name, short: seq<Arrival>,
        long: seq<Arrival>, n1: nat, n2: nat, id: Id)
    requires Covers(counts, y.res) && r in counts && y.res[r].state.Querying? && n1 <= |short| && n2 <= |long|
    requires var o1 := WaitFor(me, counts, y.res, OnAny, short, y.now, y.now + ShortTime(tm));
             var o2 := WaitFor(me, counts, o1.res, OnBackoff, long, o1.now, o1.now + LongTime(tm));
             n1 == |short| - |o1.rest| && n2 == if o1.woken then |long| - |o2.rest| else 0
    ensures HeardOut(me, r, y.res[r].members, short[..n1] + long[..n2],
                     HearOut(me, counts, tm, y, short, long).res[r].members, id)
  {
    hide WaitFor, ShortTime, LongTime, SaysHolds, HeardOut, HearOut;
    HearOutUnfolds(me, counts, tm, y, short, long);
    var z := HearOut(me, counts, tm, y, short, long);
    var o1 := WaitFor(me, counts, y.res, OnAny, short, y.now, y.now + ShortTime(tm));
    WaitSays(me, counts, y.res, OnAny, r, id, short, y.now, y.now + ShortTime(tm));
    HeardOutIs(me, r, y.res[r].members, short[..n1], o1.res[r].members, id);
    if o1.woken {
      WaitSays(me, counts, o1.res, OnBackoff, r, id, long, o1.now, o1.now + LongTime(tm));
      HeardOutIs(me, r, o1.res[r].members, long[..n2], z.res[r].members, id);
      HeardTwice(me, r, y.res[r].members, short[..n1], o1.res[r].members, long[..n2], z.res[r].members, id);
    } else {
      assert long[..0] == [] && short[..n1] + [] == short[..n1];
    }
  }

  lemma HeardOutIs(me: Id, r: Name, before: Table, heard: seq<Arrival>, after: Table, id: Id)
    requires SaysHolds(me, r, id, before, heard) <==> id in after && after[id].state.Acquired?
    ensures HeardOut(me, r, before, heard, after, id)
  {
  }

  lemma HeardTwice(me: Id, r: Name, before: Table, a: seq<Arrival>, between: Table, b: seq<Arrival>, after: Table,
        id: Id)
    requires HeardOut(me, r, before, a, between, id) && HeardOut(me, r, between, b, after, id)
    ensures HeardOut(me, r, before, a + b, after, id)
  {
    hide LastFrom;
    LastOfBoth(me, r, id, a, b);
    var j := LastFrom(me, r, id, b);
    if j >= 0 {
      assert (a + b)[|a| + j] == b[j];
    } else if LastFrom(me, r, id, a) >= 0 {
      assert (a + b)[LastFrom(me, r, id, a)] == a[LastFrom(me, r, id, a)];
    }
  }

  /** A query does not forget what was recorded before: on a resource that is not IDLE it can answer
      "busy" though nothing was heard. */
  lemma StaleBusy(me: Id, tm: Timing)
    ensures var counts: LockSpec.Counts := map["r" := 2];
            var x := Local(map["r" := Res(Acquired, map[me + 1 := Member(Acquired, 2, 0)])], 100, []);
            SeesHolder(Ask(me, counts, tm, x, "r", [], []).members)
  {
    var counts: LockSpec.Counts := map["r" := 2];
    var x := Local(map["r" := Res(Acquired, map[me + 1 := Member(Acquired, 2, 0)])], 100, []);
    StartsQuerying(counts, x, "r");
    hide ShortTime;
    assert Ask(me, counts, tm, x, "r", [], []).members[me + 1].state.Acquired?;
  }
}
