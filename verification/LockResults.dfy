/** Results about whole acquisitions of one lock object, for every environment. */
module LockResults {
  import opened Protocol
  import opened LockSpec
  import opened LockLaws

  // ---- one attempt ----

  /** A foreign ACQUIRING packet about one of those resources arrives within the time. */
  ghost predicate ForeignClaim(me: Id, names: set<Name>, arr: seq<Arrival>, time: int) {
    exists i :: 0 <= i < |arr| && Elapsed(arr, i + 1) < time && IsForeignClaim(me, names, arr[i].pkt)
  }

  predicate IsForeignClaim(me: Id, names: set<Name>, pkt: Packet) {
    pkt.src != me && pkt.name in names && pkt.state.Acquiring?
  }

  /** The resources that are claimed during the collision window: the targets, and whatever the lock
      claimed before. */
  function Claimed(targets: seq<Name>, res: map<Name, Res>): set<Name> {
    set r | r in res && (r in targets || res[r].state.Acquiring? || res[r].state.Acquired?)
  }

  /** The listening lock is woken by ACQUIRING packets about any resource it knows, the lock in its
      window by those about a resource it claims. */
  lemma WokenByClaims(me: Id, res: map<Name, Res>, w: Waiting, names: set<Name>, arr: seq<Arrival>, time: int)
    requires (w.OnListen? && names == res.Keys) || (w.OnWindow? && names == set r | r in res && IsClaim(res[r].state))
    ensures WokenInTime(me, res, w, arr, time) <==> ForeignClaim(me, names, arr, time)
  {
    if WokenInTime(me, res, w, arr, time) {
      var i :| Notifies(me, res, w, arr, time, i);
      assert IsForeignClaim(me, names, arr[i].pkt);
    }
    if ForeignClaim(me, names, arr, time) {
      var i :| 0 <= i < |arr| && Elapsed(arr, i + 1) < time && IsForeignClaim(me, names, arr[i].pkt);
      assert Notifies(me, res, w, arr, time, i);
    }
  }

  lemma ListenedIff(me: Id, counts: Counts, targets: seq<Name>, x: Local, a: Script)
    requires Covers(counts, x.res)
    ensures Listened(me, counts, targets, x, a).woken <==> ForeignClaim(me, counts.Keys, a.listen, a.listenTime)
  {
    hide WaitFor, ForeignClaim, WokenInTime;
    var res := Painted(x.res, targets, Starting);
    assert res.Keys == counts.Keys;
    hide Painted;
    WokenIff(me, counts, res, OnListen, a.listen, x.now, x.now + a.listenTime);
    WokenByClaims(me, res, OnListen, counts.Keys, a.listen, a.listenTime);
  }

  /** What is claimed in the window: waiting changes no state, announcing those of the targets. */
  lemma ClaimedInWindow(me: Id, counts: Counts, targets: seq<Name>, x: Local, a: Script)
    requires Covers(counts, x.res)
    ensures var res := Painted(Listened(me, counts, targets, x, a).res, targets, Acquiring);
            Covers(counts, res) && Claimed(targets, x.res) == set r | r in res && IsClaim(res[r].state)
  {
    hide WaitFor;
  }

  lemma WindowedIff(me: Id, counts: Counts, tm: Timing, targets: seq<Name>, x: Local, a: Script)
    requires Covers(counts, x.res)
    ensures Windowed(me, counts, tm, targets, x, a).woken
            <==> ForeignClaim(me, Claimed(targets, x.res), a.window, WindowTime(tm))
  {
    hide WaitFor, ForeignClaim, WokenInTime, Painted, Listened, Claimed, IsClaim;
    var o1 := Listened(me, counts, targets, x, a);
    var res := Painted(o1.res, targets, Acquiring);
    ClaimedInWindow(me, counts, targets, x, a);
    WokenIff(me, counts, res, OnWindow, a.window, o1.now, o1.now + WindowTime(tm));
    WokenByClaims(me, res, OnWindow, Claimed(targets, x.res), a.window, WindowTime(tm));
  }

  /** An attempt for any of the resources a lock knows succeeds exactly when no foreign ACQUIRING
      packet about a known resource arrives while it listens, none about a claimed one while it waits
      in its window, and every target has room at the check. It then takes less than three windows. */
  lemma AttemptWinsIff(me: Id, counts: Counts, tm: Timing, targets: seq<Name>, x: Local, a: Script)
    requires Covers(counts, x.res) && GoodScript(tm, a) && forall r :: r in targets ==> r in counts
    ensures var (y, v) := TryOnce(me, counts, tm, targets, x, a);
            && (v.Won? <==>
                 && !ForeignClaim(me, counts.Keys, a.listen, a.listenTime)
                 && !ForeignClaim(me, Claimed(targets, x.res), a.window, WindowTime(tm))
                 && forall r :: r in targets ==>
                      r in counts && HasRoom(Windowed(me, counts, tm, targets, x, a).res[r].members, counts[r]))
            && (v.Interrupted? <==> ForeignClaim(me, counts.Keys, a.listen, a.listenTime))
            && (v.Won? ==> 2 * WindowTime(tm) <= y.now - x.now < 3 * WindowTime(tm))
  {
    hide TryOnce, Conclude, Said, Room, ForeignClaim, Listened, Windowed, FirstFull, Painted, Cleared, Claimed;
    TryOnceIs(me, counts, tm, targets, x, a);
    ListenedIff(me, counts, targets, x, a);
    WindowedIff(me, counts, tm, targets, x, a);
    var o2 := Windowed(me, counts, tm, targets, x, a);
    RoomIff(counts, o2.res, targets);
    var said := x.out + Said(counts, targets, Starting) + Said(counts, targets, Acquiring);
    ConcludeIs(counts, Local(o2.res, o2.now, said), targets, o2.woken);
  }

  lemma RoomIff(counts: Counts, res: map<Name, Res>, targets: seq<Name>)
    requires Covers(counts, res)
    ensures (forall r :: r in targets ==> Room(counts, res, r))
            <==> forall r :: r in targets ==> r in counts && HasRoom(res[r].members, counts[r])
  {
    forall r | r in counts ensures HasRoom(res[r].members, counts[r]) <==> Room(counts, res, r) {
      HasRoomIff(res[r].members, counts[r]);
    }
    hide HasRoom, Acquirable;
  }

  // ---- counting announcements ----

  /** How often r was announced in state st. */
  function Times(out: seq<Announcement>, r: Name, st: LockState): nat {
    if |out| == 0 then 0 else (if out[0].name == r && out[0].state == st then 1 else 0) + Times(out[1..], r, st)
  }

  lemma {:induction false} TimesAppend(a: seq<Announcement>, b: seq<Announcement>, r: Name, st: LockState)
    ensures Times(a + b, r, st) == Times(a, r, st) + Times(b, r, st)
  {
    if |a| == 0 {
      assert a + b == b;
    } else {
      assert (a + b)[1..] == a[1..] + b;
      TimesAppend(a[1..], b, r, st);
    }
  }

  lemma {:induction false} TimesSaid(counts: Counts, ts: seq<Name>, st: LockState, r: Name, st': LockState)
    requires Distinct(ts) && forall x :: x in ts ==> x in counts
    ensures Times(Said(counts, ts, st), r, st') == if st == st' && r in ts then 1 else 0
  {
    if |ts| > 0 {
      TimesSaid(counts, ts[1..], st, r, st');
      assert r in ts <==> r == ts[0] || r in ts[1..];
      if r == ts[0] {
        assert r !in ts[1..];
      }
    }
  }

  /** What an attempt leaves. */
  ghost predicate Left(res: map<Name, Res>, targets: seq<Name>, v: Verdict) {
    forall r :: r in targets ==>
      && r in res
      && (v.Won? ==> res[r].state.Acquired?)
      && (v.Lost? ==> res[r] == Res(Idle, map[]))
      && (v.Interrupted? ==> res[r].state.Starting?)
  }

  /** An attempt announces ACQUIRING once unless it was interrupted, and IDLE once if it lost. */
  ghost predicate Counted(out: seq<Announcement>, targets: seq<Name>, out': seq<Announcement>, v: Verdict) {
    forall r :: r in targets ==>
      && Times(out', r, Acquiring) == Times(out, r, Acquiring) + (if v.Interrupted? then 0 else 1)
      && Times(out', r, Idle) == Times(out, r, Idle) + (if v.Lost? then 1 else 0)
  }

  lemma TriedLeft(me: Id, counts: Counts, tm: Timing, targets: seq<Name>, x: Local, a: Script)
    requires Covers(counts, x.res) && forall r :: r in targets ==> r in counts
    ensures var (y, v) := TryOnce(me, counts, tm, targets, x, a); Left(y.res, targets, v)
  {
    hide TryOnce, Conclude, Said, Room, FirstFull, Listened, Windowed;
    TryOnceIs(me, counts, tm, targets, x, a);
    var o2 := Windowed(me, counts, tm, targets, x, a);
    var said2 := x.out + Said(counts, targets, Starting) + Said(counts, targets, Acquiring);
    ConcludeIs(counts, Local(o2.res, o2.now, said2), targets, o2.woken);
  }

  lemma TriedCounted(me: Id, counts: Counts, tm: Timing, targets: seq<Name>, x: Local, a: Script)
    requires Covers(counts, x.res) && Distinct(targets) && forall r :: r in targets ==> r in counts
    ensures var (y, v) := TryOnce(me, counts, tm, targets, x, a); Counted(x.out, targets, y.out, v)
  {
    hide TryOnce, Conclude, Listened, Windowed, Said, Times, Distinct;
    TryOnceIs(me, counts, tm, targets, x, a);
    var (y, v) := TryOnce(me, counts, tm, targets, x, a);
    var said1 := x.out + Said(counts, targets, Starting);
    var o2 := Windowed(me, counts, tm, targets, x, a);
    forall r, st | r in targets && (st == Acquiring || st == Idle)
      ensures Times(y.out, r, st) == Times(x.out, r, st)
                + (if st == Acquiring && !v.Interrupted? then 1 else 0) + (if st == Idle && v.Lost? then 1 else 0)
    {
      TimesAppend(x.out, Said(counts, targets, Starting), r, st);
      TimesSaid(counts, targets, Starting, r, st);
      if !v.Interrupted? {
        TimesAppend(said1, Said(counts, targets, Acquiring), r, st);
        TimesSaid(counts, targets, Acquiring, r, st);
        TimesConclude(counts, Local(o2.res, o2.now, said1 + Said(counts, targets, Acquiring)), targets, o2.woken, r,
            st);
      }
    }
  }

  lemma TimesConclude(counts: Counts, x: Local, targets: seq<Name>, woken: bool, r: Name, st: LockState)
    requires Covers(counts, x.res) && Distinct(targets) && (forall x :: x in targets ==> x in counts)
    requires r in targets && (st == Acquiring || st == Idle)
    ensures var (y, ok) := Conclude(counts, x, targets, woken);
            Times(y.out, r, st) == Times(x.out, r, st) + if st == Idle && !ok then 1 else 0
  {
    hide Conclude, Said, Times, Room, FirstFull, Painted, Cleared, Distinct;
    ConcludeIs(counts, x, targets, woken);
    TimesEnd(counts, targets, x.out, FirstFull(counts, x.res, targets, 0), woken, r, st);
  }

  lemma TimesEnd(counts: Counts, targets: seq<Name>, out: seq<Announcement>, j: nat, woken: bool, r: Name,
        st: LockState)
    requires Distinct(targets) && (forall x :: x in targets ==> x in counts) && r in targets && j <= |targets|
          && st != Acquired
    ensures Times(out + Said(counts, targets, Acquired), r, st) == Times(out, r, st)
    ensures Times(out + (if woken then [] else Said(counts, targets[..j], Acquired)) + Said(counts, targets, Idle), r,
          st)
         == Times(out, r, st) + if st == Idle then 1 else 0
  {
    TimesAppend(out, Said(counts, targets, Acquired), r, st);
    TimesSaid(counts, targets, Acquired, r, st);
    var mid := if woken then [] else Said(counts, targets[..j], Acquired);
    TimesAppend(out, mid, r, st);
    TimesSaid(counts, targets[..j], Acquired, r, st);
    TimesAppend(out + mid, Said(counts, targets, Idle), r, st);
    TimesSaid(counts, targets, Idle, r, st);
  }

  // ---- whole acquisitions ----

  /** While it waits, an IDLE resource ignores every packet. */
  lemma {:induction false} IdleIgnores(me: Id, counts: Counts, res: map<Name, Res>, w: Waiting, arr: seq<Arrival>,
        now: int, deadline: int, r: Name)
    requires Covers(counts, res) && now <= deadline && r in res && res[r].state.Idle?
    ensures WaitFor(me, counts, res, w, arr, now, deadline).res[r] == res[r]
    decreases |arr|
  {
    if |arr| > 0 && now + arr[0].gap < deadline {
      var t, pkt := now + arr[0].gap, arr[0].pkt;
      if !Wakes(me, res, w, pkt) {
        IdleIgnores(me, counts, HandlePacket(me, counts, res, pkt, t), w, arr[1..], t, deadline, r);
      }
    }
  }

  /** Backing off, and listening long, is never cut short. */
  lemma {:induction false} NothingWakes(me: Id, counts: Counts, res: map<Name, Res>, arr: seq<Arrival>, now: int,
        deadline: int)
    requires Covers(counts, res) && now <= deadline
    ensures !WaitFor(me, counts, res, OnBackoff, arr, now, deadline).woken
    decreases |arr|
  {
    if |arr| > 0 && now + arr[0].gap < deadline {
      var t, pkt := now + arr[0].gap, arr[0].pkt;
      NothingWakes(me, counts, HandlePacket(me, counts, res, pkt, t), arr[1..], t, deadline);
    }
  }

  /** The two listens of a query. */
  lemma HearOutUnfolds(me: Id, counts: Counts, tm: Timing, y: Local, short: seq<Arrival>, long: seq<Arrival>)
    requires Covers(counts, y.res)
    ensures var o1 := WaitFor(me, counts, y.res, OnAny, short, y.now, y.now + ShortTime(tm));
            var o2 := WaitFor(me, counts, o1.res, OnBackoff, long, o1.now, o1.now + LongTime(tm));
            var o := if o1.woken then o2 else o1;
            && (!o1.woken ==> o1.now == y.now + ShortTime(tm)) && (o1.woken ==> o2.now == o1.now + LongTime(tm))
            && HearOut(me, counts, tm, y, short, long) == Local(o.res, o.now, y.out)
  {
    hide WaitFor, ShortTime, LongTime;
    var o1 := WaitFor(me, counts, y.res, OnAny, short, y.now, y.now + ShortTime(tm));
    NothingWakes(me, counts, o1.res, long, o1.now, o1.now + LongTime(tm));
  }

  ghost predicate NoneHeld(res: map<Name, Res>, targets: seq<Name>) {
    forall r :: r in targets ==> r in res && !res[r].state.Acquired?
  }

  ghost predicate AllIdle(res: map<Name, Res>, targets: seq<Name>) {
    forall r :: r in targets ==> r in res && res[r] == Res(Idle, map[])
  }

  ghost predicate AllHeld(res: map<Name, Res>, targets: seq<Name>) {
    forall r :: r in targets ==> r in res && res[r].state.Acquired?
  }

  /** Backing off takes its time, announces nothing, sets nothing, and leaves IDLE resources alone. */
  lemma BackOffKeeps(me: Id, counts: Counts, x: Local, a: Script, targets: seq<Name>)
    requires Covers(counts, x.res)
    ensures var y := BackOff(me, counts, x, a);
            && y.out == x.out && y.now == x.now + a.backoffTime
            && (AllIdle(x.res, targets) ==> AllIdle(y.res, targets))
            && (NoneHeld(x.res, targets) ==> NoneHeld(y.res, targets))
  {
    var y := BackOff(me, counts, x, a);
    NothingWakes(me, counts, x.res, a.backoff, x.now, x.now + a.backoffTime);
    if AllIdle(x.res, targets) {
      forall r | r in targets ensures r in y.res && y.res[r] == Res(Idle, map[]) {
        IdleIgnores(me, counts, x.res, OnBackoff, a.backoff, x.now, x.now + a.backoffTime, r);
      }
    }
    hide WaitFor;
  }

  /** An attempt with its backoff. */
  lemma AttemptLeaves(me: Id, counts: Counts, tm: Timing, targets: seq<Name>, x: Local, a: Script)
    requires Covers(counts, x.res) && Distinct(targets) && forall r :: r in targets ==> r in counts
    ensures var (y, v) := Attempt(me, counts, tm, targets, x, a);
            && Counted(x.out, targets, y.out, v)
            && (v.Won? ==> AllHeld(y.res, targets))
            && (v.Lost? ==> AllIdle(y.res, targets))
            && (v.Interrupted? ==> NoneHeld(y.res, targets))
  {
    hide TryOnce, BackOff, Counted;
    TriedLeft(me, counts, tm, targets, x, a);
    TriedCounted(me, counts, tm, targets, x, a);
    BackOffKeeps(me, counts, TryOnce(me, counts, tm, targets, x, a).0, a, targets);
  }

  /** ACQUIRING was announced once per window, and IDLE once per window that failed. */
  ghost predicate AnnouncedWindows(out: seq<Announcement>, targets: seq<Name>, z: Acquisition) {
    forall r :: r in targets ==>
      && Times(z.x.out, r, Acquiring) == Times(out, r, Acquiring) + z.windows
      && Times(z.x.out, r, Idle) == Times(out, r, Idle) + z.windows - (if z.outcome.Locked? then 1 else 0)
  }

  /** z is a proper end of a loop that began with the announcements `out`, n attempts to go and
      `retry` windows failed. */
  ghost predicate Accounts(out: seq<Announcement>, targets: seq<Name>, n: nat, retry: nat, retryMax: nat,
        z: Acquisition) {
    && (z.outcome.Locked? ==> AllHeld(z.x.res, targets))
    && (z.outcome.Failed? ==> AllIdle(z.x.res, targets))
    && (z.outcome.Unfinished? ==> NoneHeld(z.x.res, targets))
    && (z.outcome.Failed? ==> retryMax > 0 && retry + z.windows == retryMax)
    && (retryMax > 0 ==> retry + z.windows <= retryMax)
    && (z.outcome.Unfinished? ==> z.windows + z.interrupted == n)
    && z.windows + z.interrupted <= n
    && AnnouncedWindows(out, targets, z)
  }

  lemma AccountsNext(out: seq<Announcement>, targets: seq<Name>, y: Local, v: Verdict, n: nat, retry: nat,
        retryMax: nat, z: Acquisition)
    requires !v.Won? && Counted(out, targets, y.out, v)
    requires Accounts(y.out, targets, n, if v.Lost? then retry + 1 else retry, retryMax, z)
    ensures Accounts(out, targets, n + 1, retry, retryMax,
                     if v.Lost? then z.(windows := z.windows + 1) else z.(interrupted := z.interrupted + 1))
  {
    hide Times, AllHeld, AllIdle, NoneHeld;
  }

  lemma AccountsWon(out: seq<Announcement>, targets: seq<Name>, y: Local, n: nat, retry: nat, retryMax: nat)
    requires n >= 1 && Counted(out, targets, y.out, Won) && AllHeld(y.res, targets)
          && (retryMax > 0 ==> retry < retryMax)
    ensures Accounts(out, targets, n, retry, retryMax, Acquisition(y, Locked, 1, 0))
  {
    hide Times, AllHeld;
  }

  /** `acquire` is all or nothing, and accounts for its retries. From resources none of which is
      held, it ends with every target ACQUIRED or, after exactly the allowed number of failed
      windows, with every target IDLE; as long as it has not ended it holds nothing. Interrupted
      listens count as no retry. The announcements tell: ACQUIRING once per window, IDLE once per
      failed window. */
  lemma {:induction false} AcquireAccounts(me: Id, counts: Counts, tm: Timing, targets: seq<Name>, x: Local,
        env: seq<Script>, retry: nat, retryMax: nat)
    requires Covers(counts, x.res) && Distinct(targets) && forall r :: r in targets ==> r in counts
    requires NoneHeld(x.res, targets) && (retryMax != 0 ==> retry <= retryMax)
    requires retryMax != 0 && retry == retryMax ==> AllIdle(x.res, targets)
    ensures Accounts(x.out, targets, |env|, retry, retryMax, Acquire(me, counts, tm, targets, x, env, retry, retryMax))
    decreases |env|
  {
    hide Times, Attempt, Counted, Distinct;
    if retryMax != 0 && retry >= retryMax {
    } else if |env| > 0 {
      AttemptLeaves(me, counts, tm, targets, x, env[0]);
      var (y, v) := Attempt(me, counts, tm, targets, x, env[0]);
      if v.Won? {
        AccountsWon(x.out, targets, y, |env|, retry, retryMax);
      } else {
        IdleNotHeld(y.res, targets);
        AcquireAccounts(me, counts, tm, targets, y, env[1..], if v.Lost? then retry + 1 else retry, retryMax);
        var z := Acquire(me, counts, tm, targets, y, env[1..], if v.Lost? then retry + 1 else retry, retryMax);
        AccountsNext(x.out, targets, y, v, |env[1..]|, retry, retryMax, z);
      }
    }
  }

  /** After the STARTING round none of the targets is held. */
  lemma StartsUnheld(counts: Counts, x: Local, targets: seq<Name>)
    requires Covers(counts, x.res) && forall r :: r in targets ==> r in counts
    ensures NoneHeld(SetStates(counts, x, targets, Starting, 0).res, targets)
  {
    hide SetStates, Said;
    SetStatesIs(counts, x, targets, Starting, 0);
    assert targets[0..] == targets;
  }

  /** How an acquisition ends for its targets. */
  ghost predicate EndsAs(res: map<Name, Res>, targets: seq<Name>, outcome: Outcome) {
    match outcome
    case Locked => AllHeld(res, targets)
    case Failed => AllIdle(res, targets)
    case Unfinished => NoneHeld(res, targets)
  }

  /** Whatever state the targets are in at the beginning, true means every target ACQUIRED, and false
      means every target IDLE with an empty table, after exactly `retryMax` failed windows. */
  lemma AcquireEnds(me: Id, counts: Counts, tm: Timing, targets: seq<Name>, x: Local, env: seq<Script>, retryMax: nat)
    requires Covers(counts, x.res) && Distinct(targets) && forall r :: r in targets ==> r in counts
    ensures var z := Acquire(me, counts, tm, targets, x, env, 0, retryMax);
            && (|env| > 0 ==> EndsAs(z.x.res, targets, z.outcome))
            && (z.outcome.Failed? ==> |env| > 0 && z.windows == retryMax > 0)
            && (|env| == 0 ==> z.outcome.Unfinished? && z.x == x)
  {
    hide Attempt, Counted, Distinct, AllHeld, AllIdle, NoneHeld, AnnouncedWindows;
    if |env| > 0 {
      AttemptLeaves(me, counts, tm, targets, x, env[0]);
      var (y, v) := Attempt(me, counts, tm, targets, x, env[0]);
      if !v.Won? {
        IdleNotHeld(y.res, targets);
        AcquireAccounts(me, counts, tm, targets, y, env[1..], if v.Lost? then 1 else 0, retryMax);
      }
    }
  }

  /** The same after a first STARTING round, also when no attempt was made yet. */
  lemma StartedEnds(me: Id, counts: Counts, tm: Timing, targets: seq<Name>, x: Local, env: seq<Script>, retryMax: nat)
    requires Covers(counts, x.res) && Distinct(targets) && forall r :: r in targets ==> r in counts
    ensures var z := Acquire(me, counts, tm, targets, SetStates(counts, x, targets, Starting, 0), env, 0, retryMax);
            EndsAs(z.x.res, targets, z.outcome) && (z.outcome.Failed? ==> z.windows == retryMax > 0)
  {
    hide Acquire, SetStates, Distinct, NoneHeld, AllHeld, AllIdle;
    StartsUnheld(counts, x, targets);
    AcquireEnds(me, counts, tm, targets, SetStates(counts, x, targets, Starting, 0), env, retryMax);
  }

  lemma IdleNotHeld(res: map<Name, Res>, targets: seq<Name>)
    ensures AllIdle(res, targets) ==> NoneHeld(res, targets)
  {
  }
}
