/** What happens between the attempts of `acquire`: the backoff, and how long everything takes. */
module Retrying {
  import opened Protocol
  import opened LockSpec
  import opened LockLaws
  import opened LockResults
  import opened Hearing
  import opened Asking

  // ---- one attempt ----

  /** From the tables a to b by waiting that long: states are kept, and every entry is what the last
      counting packet in time said, or what it was. */
  ghost predicate WaitedOut(me: Id, counts: LockSpec.Counts, a: map<Name, Res>, b: map<Name, Res>, arr: seq<Arrival>,
        now: int, time: nat) {
    && SameStates(a, b)
    && exists n: nat :: Within(arr, time, n)
                        && forall r, id :: r in a ==>
                             EntryIs(a[r], b[r], id, arr, LastCounting(me, counts, a, r, id, arr, n), now)
  }

  lemma BackOffIs(me: Id, counts: LockSpec.Counts, x: Local, a: Script)
    requires Covers(counts, x.res)
    ensures var y := BackOff(me, counts, x, a);
            && y.out == x.out && y.now == x.now + a.backoffTime
            && WaitedOut(me, counts, x.res, y.res, a.backoff, x.now, a.backoffTime)
  {
    hide WaitFor, Within, EntryIs, LastCounting, Elapsed;
    var n := LongIs(me, counts, x.res, a.backoff, x.now, a.backoffTime);
    var o := WaitFor(me, counts, x.res, OnBackoff, a.backoff, x.now, x.now + a.backoffTime);
    forall r, id | r in x.res
      ensures EntryIs(x.res[r], o.res[r], id, a.backoff, LastCounting(me, counts, x.res, r, id, a.backoff, n), x.now)
    {
      TableIsLastHeard(me, counts, x.res, OnBackoff, a.backoff, x.now, x.now + a.backoffTime, r, id);
    }
  }

  /** An attempt that did not win, whether it was interrupted or lost, ends with a whole backoff, in which
      the tables take in what counts; one that won ends at once. */
  lemma AttemptBacksOff(me: Id, counts: LockSpec.Counts, tm: Timing, targets: seq<Name>, x: Local, a: Script)
    requires Covers(counts, x.res) && forall r :: r in targets ==> r in counts
    ensures var (y0, v0) := TryOnce(me, counts, tm, targets, x, a);
            var (y, v) := Attempt(me, counts, tm, targets, x, a);
            && v == v0 && y.out == y0.out
            && (v.Won? ==> y == y0)
            && (v.Interrupted? || v.Lost? ==>
                 y.now == y0.now + a.backoffTime
                 && WaitedOut(me, counts, y0.res, y.res, a.backoff, y0.now, a.backoffTime))
  {
    hide TryOnce, BackOff, WaitedOut;
    BackOffIs(me, counts, TryOnce(me, counts, tm, targets, x, a).0, a);
  }

  /** How long an attempt takes: a listen that is cut short or whole, then a window that is cut short or
      whole, then a backoff unless it won. */
  lemma AttemptTakes(me: Id, counts: LockSpec.Counts, tm: Timing, targets: seq<Name>, x: Local, a: Script)
    requires Covers(counts, x.res) && forall r :: r in targets ==> r in counts
    ensures var (y, v) := Attempt(me, counts, tm, targets, x, a);
            match v
            case Won => y.now == x.now + a.listenTime + tm.sense * tm.beacon
            case Lost =>
              x.now + a.listenTime + a.backoffTime <= y.now
                  <= x.now + a.listenTime + tm.sense * tm.beacon + a.backoffTime
            case Interrupted => x.now + a.backoffTime <= y.now < x.now + a.listenTime + a.backoffTime
  {
    hide Attempt, TryOnce, Conclude, WaitedOut, Listened, Windowed, WindowTime;
    AttemptBacksOff(me, counts, tm, targets, x, a);
    TryTakes(me, counts, tm, targets, x, a);
    WindowIs(tm);
  }

  lemma TryTakes(me: Id, counts: LockSpec.Counts, tm: Timing, targets: seq<Name>, x: Local, a: Script)
    requires Covers(counts, x.res) && forall r :: r in targets ==> r in counts
    ensures var (y, v) := TryOnce(me, counts, tm, targets, x, a);
            match v
            case Won => y.now == x.now + a.listenTime + WindowTime(tm)
            case Lost => x.now + a.listenTime <= y.now <= x.now + a.listenTime + WindowTime(tm)
            case Interrupted => x.now <= y.now < x.now + a.listenTime
  {
    hide WaitFor, Said, Painted, FirstFull, Room, Cleared, TryOnce, Conclude, WindowTime;
    TryOnceIs(me, counts, tm, targets, x, a);
    var o2 := Windowed(me, counts, tm, targets, x, a);
    var said := x.out + Said(counts, targets, Starting) + Said(counts, targets, Acquiring);
    ConcludeIs(counts, Local(o2.res, o2.now, said), targets, o2.woken);
  }

  // ---- the loop ----

  /** The backoffs of the first n attempts. */
  function Backoffs(env: seq<Script>, n: nat): nat
    requires n <= |env|
  {
    if n == 0 then 0 else env[0].backoffTime + Backoffs(env[1..], n - 1)
  }

  /** The listens of the first n attempts. */
  function Listens(env: seq<Script>, n: nat): nat
    requires n <= |env|
  {
    if n == 0 then 0 else env[0].listenTime + Listens(env[1..], n - 1)
  }

  /** The attempts that were made, and those of them that ended with a backoff. */
  function Made(z: Acquisition): nat {
    z.windows + z.interrupted
  }

  function Retried(z: Acquisition): int {
    if z.outcome.Locked? then Made(z) - 1 else Made(z)
  }

  /** The time from `now` to the end of z: all backoffs of the attempts that failed, and at least w for
      the listen before each window; a success has waited a whole window. At most all listens, and a
      window for each window that was entered. */
  predicate Spent(env: seq<Script>, window: nat, w: nat, now: int, z: Acquisition) {
    && 0 <= Retried(z) <= Made(z) <= |env|
    && now + Backoffs(env, Retried(z)) + Beacons(w, z.windows) + (if z.outcome.Locked? then window else 0) <= z.x.now
    && z.x.now <= now + Backoffs(env, Retried(z)) + Listens(env, Made(z)) + Beacons(window, z.windows)
  }

  lemma SpentNext(env: seq<Script>, window: nat, w: nat, now: int, y: Local, v: Verdict, z: Acquisition)
    requires |env| > 0 && !v.Won? && Spent(env[1..], window, w, y.now, z) && env[0].listenTime >= w
    requires v.Lost? ==> now + env[0].listenTime + env[0].backoffTime <= y.now
                         <= now + env[0].listenTime + window + env[0].backoffTime
    requires v.Interrupted? ==> now + env[0].backoffTime <= y.now < now + env[0].listenTime + env[0].backoffTime
    ensures Spent(env, window, w, now,
                  Plus(z, if v.Lost? then 1 else 0, if v.Lost? then 0 else 1))
  {
  }

  /** The time the whole loop takes, whatever happens in it. */
  lemma {:induction false} AcquireTakes(me: Id, counts: LockSpec.Counts, tm: Timing, targets: seq<Name>, x: Local,
        env: seq<Script>, retry: nat, retryMax: nat, w: nat)
    requires Covers(counts, x.res) && forall r :: r in targets ==> r in counts
    requires forall a :: a in env ==> a.listenTime >= w
    ensures Spent(env, tm.sense * tm.beacon, w, x.now, Acquire(me, counts, tm, targets, x, env, retry, retryMax))
    decreases |env|
  {
    hide Acquire, Attempt, Covers;
    AcquireUnfolds(me, counts, tm, targets, x, env, retry, retryMax);
    if !(retryMax != 0 && retry >= retryMax) && |env| > 0 {
      AttemptTakes(me, counts, tm, targets, x, env[0]);
      var (y, v) := Attempt(me, counts, tm, targets, x, env[0]);
      if v.Won? {
        WonSpent(env, tm.sense * tm.beacon, w, x.now, y);
      } else {
        var next := if v.Lost? then retry + 1 else retry;
        AcquireTakes(me, counts, tm, targets, y, env[1..], next, retryMax, w);
        SpentNext(env, tm.sense * tm.beacon, w, x.now, y, v,
                  Acquire(me, counts, tm, targets, y, env[1..], next, retryMax));
      }
    }
  }

  lemma WonSpent(env: seq<Script>, window: nat, w: nat, now: int, y: Local)
    requires |env| > 0 && y.now == now + env[0].listenTime + window && env[0].listenTime >= w
    ensures Spent(env, window, w, now, Acquisition(y, Locked, 1, 0))
  {
    assert Beacons(w, 1) == w && Beacons(window, 1) == window;
    assert Listens(env, 1) == env[0].listenTime + Listens(env[1..], 0);
  }

  /** The backoff times of the source: of `acquire` of all resources, and of `acquire` of one. */
  predicate BacksOffForAll(tm: Timing, a: Script) {
    2 * (tm.sense * tm.beacon) <= a.backoffTime < 4 * (tm.sense * tm.beacon)
  }

  predicate BacksOffForOne(tm: Timing, a: Script) {
    tm.maxBackoff * tm.beacon <= a.backoffTime < 2 * (tm.maxBackoff * tm.beacon)
  }

  lemma {:induction false} BackoffsBound(env: seq<Script>, n: nat, low: nat)
    requires n <= |env| && forall a :: a in env ==> a.backoffTime >= low
    ensures Backoffs(env, n) >= Beacons(low, n)
  {
    if n > 0 {
      BackoffsBound(env[1..], n - 1, low);
    }
  }

  /** An `acquire` that gives up has taken, for each of its retries, at least the listen and the backoff. */
  lemma GivesUpLate(me: Id, counts: LockSpec.Counts, tm: Timing, targets: seq<Name>, x: Local, env: seq<Script>,
        retryMax: nat, all: bool)
    requires Covers(counts, x.res) && Distinct(targets) && forall r :: r in targets ==> r in counts
    requires forall a :: a in env ==>
               GoodScript(tm, a) && if all then BacksOffForAll(tm, a) else BacksOffForOne(tm, a)
    requires Acquire(me, counts, tm, targets, x, env, 0, retryMax).outcome.Failed?
    ensures var each := tm.sense * tm.beacon + if all then 2 * (tm.sense * tm.beacon) else tm.maxBackoff * tm.beacon;
            Acquire(me, counts, tm, targets, x, env, 0, retryMax).x.now >= x.now + Beacons(each, retryMax)
  {
    hide Acquire;
    WindowIs(tm);
    var w, low := tm.sense * tm.beacon, if all then 2 * (tm.sense * tm.beacon) else tm.maxBackoff * tm.beacon;
    var z := Acquire(me, counts, tm, targets, x, env, 0, retryMax);
    forall a | a in env ensures a.listenTime >= w && a.backoffTime >= low {
    }
    AcquireEnds(me, counts, tm, targets, x, env, retryMax);
    AcquireTakes(me, counts, tm, targets, x, env, 0, retryMax, w);
    BackoffsBound(env, Made(z), low);
    BeaconsMonotone(low, z.windows, Made(z));
    BeaconsSum(w, low, retryMax);
  }

  lemma {:induction false} BeaconsSum(a: nat, b: nat, k: nat)
    ensures Beacons(a + b, k) == Beacons(a, k) + Beacons(b, k)
  {
    if k > 0 {
      BeaconsSum(a, b, k - 1);
    }
  }
}
