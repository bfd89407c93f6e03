/** What the loops of one lock object compute, as functions of what its environment does while it
    waits: the specification that the methods of module LockObject meet. A finite script stands
    for the environment; a script that runs out leaves the attempt unfinished. */
module LockSpec {
  import opened Protocol

  type Counts = map<Name, nat>

  /** A packet that arrives `gap` ticks after the previous event. */
  datatype Arrival = Arrival(pkt: Packet, gap: nat)

  /** The condition variable the acquiring or querying thread waits on. */
  datatype Waiting = OnListen | OnWindow | OnBackoff | OnAny

  /** A state announced for a resource. */
  datatype Announcement = Announcement(name: Name, state: LockState, count: nat)

  /** The part of the lock that the loops change: resources, clock, announcements sent. */
  datatype Local = Local(res: map<Name, Res>, now: int, out: seq<Announcement>)

  datatype Waited = Waited(res: map<Name, Res>, now: int, woken: bool, rest: seq<Arrival>)

  predicate Covers(counts: Counts, res: map<Name, Res>) {
    res.Keys == counts.Keys
  }

  // ---- packets and waits ----

  /** The effect of an arriving packet on the member tables. */
  function HandlePacket(me: Id, counts: Counts, res: map<Name, Res>, pkt: Packet, now: int): (res': map<Name, Res>)
    requires Covers(counts, res)
    ensures Covers(counts, res')
    ensures forall r :: r in res ==> res'[r].state == res[r].state
  {
    if pkt.src == me || pkt.name !in res || res[pkt.name].state.Idle? then res
    else res[pkt.name := UpdateMember(res[pkt.name], counts[pkt.name], pkt.src, pkt.state, pkt.count, now)]
  }

  /** Whether the packet notifies the condition variable. */
  predicate Wakes(me: Id, res: map<Name, Res>, w: Waiting, pkt: Packet) {
    && pkt.src != me && pkt.name in res
    && match w
       case OnListen => pkt.state.Acquiring?
       case OnWindow => pkt.state.Acquiring? && IsClaim(res[pkt.name].state)
       case OnAny => true
       case OnBackoff => false
  }

  /** A wait with a deadline: packets are handled until one of them ends it. */
  function WaitFor(me: Id, counts: Counts, res: map<Name, Res>, w: Waiting, arr: seq<Arrival>, now: int,
        deadline: int): (o: Waited)
    requires Covers(counts, res) && now <= deadline
    ensures Covers(counts, o.res)
    ensures now <= o.now <= deadline && |o.rest| <= |arr| && (!o.woken ==> o.now == deadline)
          && (o.woken ==> o.now < deadline && |o.rest| < |arr|)
    ensures forall r :: r in res ==> o.res[r].state == res[r].state
    decreases |arr|
  {
    if |arr| == 0 || now + arr[0].gap >= deadline then Waited(res, deadline, false, arr)
    else
      var t, pkt := now + arr[0].gap, arr[0].pkt;
      var res' := HandlePacket(me, counts, res, pkt, t);
      if Wakes(me, res, w, pkt) then Waited(res', t, true, arr[1..])
      else WaitFor(me, counts, res', w, arr[1..], t, deadline)
  }

  /** One step of a wait. */
  lemma WaitUnfolds(me: Id, counts: Counts, res: map<Name, Res>, w: Waiting, arr: seq<Arrival>, now: int, deadline: int)
    requires Covers(counts, res) && now <= deadline
    ensures |arr| == 0 || now + arr[0].gap >= deadline ==>
              WaitFor(me, counts, res, w, arr, now, deadline) == Waited(res, deadline, false, arr)
    ensures |arr| > 0 && now + arr[0].gap < deadline ==>
              var t, pkt := now + arr[0].gap, arr[0].pkt;
              var res' := HandlePacket(me, counts, res, pkt, t);
              WaitFor(me, counts, res, w, arr, now, deadline)
              == if Wakes(me, res, w, pkt) then Waited(res', t, true, arr[1..])
                 else WaitFor(me, counts, res', w, arr[1..], t, deadline)
  {
  }

  // ---- loops over the resources ----

  /** Set and announce a state on the targets from k on. */
  function SetStates(counts: Counts, x: Local, targets: seq<Name>, st: LockState, k: nat): (y: Local)
    requires Covers(counts, x.res) && k <= |targets| && forall r :: r in targets ==> r in counts
    ensures Covers(counts, y.res) && y.now == x.now
    decreases |targets| - k
  {
    if k == |targets| then x
    else
      var r := targets[k];
      SetStates(counts, Local(SetOne(x.res, r, st), x.now, x.out + [Announcement(r, st, counts[r])]), targets, st,
          k + 1)
  }

  /** Commit the targets from k on, until one has no room. */
  function Commit(counts: Counts, x: Local, targets: seq<Name>, k: nat): (y: (Local, bool))
    requires Covers(counts, x.res) && k <= |targets| && forall r :: r in targets ==> r in counts
    ensures Covers(counts, y.0.res) && y.0.now == x.now
    decreases |targets| - k
  {
    if k == |targets| then (x, true)
    else
      var r := targets[k];
      if Acquirable(x.res[r].members, counts[r]) then
        Commit(counts, Local(SetOne(x.res, r, Acquired), x.now, x.out + [Announcement(r, Acquired, counts[r])]),
            targets, k + 1)
      else (x, false)
  }

  /** Reset the targets from k on: IDLE, announced, with an empty table. */
  function ResetFrom(counts: Counts, x: Local, targets: seq<Name>, k: nat): (y: Local)
    requires Covers(counts, x.res) && k <= |targets| && forall r :: r in targets ==> r in counts
    ensures Covers(counts, y.res) && y.now == x.now
    decreases |targets| - k
  {
    if k == |targets| then x
    else
      var r := targets[k];
      ResetFrom(counts, Local(x.res[r := Res(Idle, map[])], x.now, x.out + [Announcement(r, Idle, counts[r])]),
          targets, k + 1)
  }

  lemma OneState(counts: Counts, x: Local, r: Name, st: LockState)
    requires Covers(counts, x.res) && r in counts
    ensures SetStates(counts, x, [r], st, 0)
          == Local(SetOne(x.res, r, st), x.now, x.out + [Announcement(r, st, counts[r])])
  {
    var y := Local(SetOne(x.res, r, st), x.now, x.out + [Announcement(r, st, counts[r])]);
    assert SetStates(counts, y, [r], st, 1) == y;
  }

  /** A round goes on after its next resource, and ends after its last. */
  lemma NextState(counts: Counts, x: Local, targets: seq<Name>, st: LockState, k: nat)
    requires Covers(counts, x.res) && k <= |targets| && forall r :: r in targets ==> r in counts
    ensures SetStates(counts, x, targets, st, k)
         == if k == |targets| then x
            else SetStates(counts, SetStates(counts, x, [targets[k]], st, 0), targets, st, k + 1)
  {
    if k < |targets| {
      OneState(counts, x, targets[k], st);
    }
  }

  // ---- one attempt ----

  /** The environment during one attempt: the random times, and the packets of its three waits. */
  datatype Script = Script(listenTime: nat, listen: seq<Arrival>, window: seq<Arrival>, backoffTime: nat,
      backoff: seq<Arrival>)

  datatype Verdict = Interrupted | Won | Lost

  predicate GoodScript(tm: Timing, a: Script) {
    WindowTime(tm) <= a.listenTime < 2 * WindowTime(tm)
  }

  /** The end of an attempt that announced ACQUIRING. */
  function Conclude(counts: Counts, x: Local, targets: seq<Name>, woken: bool): (y: (Local, bool))
    requires Covers(counts, x.res) && forall r :: r in targets ==> r in counts
    ensures Covers(counts, y.0.res) && y.0.now == x.now
  {
    if woken then (ResetFrom(counts, x, targets, 0), false)
    else
      var (z, ok) := Commit(counts, x, targets, 0);
      if ok then (z, true) else (ResetFrom(counts, z, targets, 0), false)
  }

  /** Announce STARTING, listen, announce ACQUIRING, wait, commit or reset; no backoff yet. */
  function TryOnce(me: Id, counts: Counts, tm: Timing, targets: seq<Name>, x: Local, a: Script): (y: (Local, Verdict))
    requires Covers(counts, x.res) && forall r :: r in targets ==> r in counts
    ensures Covers(counts, y.0.res)
    ensures x.now <= y.0.now <= x.now + a.listenTime + WindowTime(tm)
  {
    var x1 := SetStates(counts, x, targets, Starting, 0);
    var o1 := WaitFor(me, counts, x1.res, OnListen, a.listen, x1.now, x1.now + a.listenTime);
    if o1.woken then (Local(o1.res, o1.now, x1.out), Interrupted)
    else
      var x2 := SetStates(counts, Local(o1.res, o1.now, x1.out), targets, Acquiring, 0);
      var o2 := WaitFor(me, counts, x2.res, OnWindow, a.window, x2.now, x2.now + WindowTime(tm));
      var (x3, ok) := Conclude(counts, Local(o2.res, o2.now, x2.out), targets, o2.woken);
      (x3, if ok then Won else Lost)
  }

  function BackOff(me: Id, counts: Counts, x: Local, a: Script): (y: Local)
    requires Covers(counts, x.res)
    ensures Covers(counts, y.res)
    ensures forall r :: r in x.res ==> y.res[r].state == x.res[r].state
  {
    var o := WaitFor(me, counts, x.res, OnBackoff, a.backoff, x.now, x.now + a.backoffTime);
    Local(o.res, o.now, x.out)
  }

  /** An attempt, with the backoff that follows it unless it succeeded. */
  function Attempt(me: Id, counts: Counts, tm: Timing, targets: seq<Name>, x: Local, a: Script): (y: (Local, Verdict))
    requires Covers(counts, x.res) && forall r :: r in targets ==> r in counts
    ensures Covers(counts, y.0.res)
  {
    var (y, v) := TryOnce(me, counts, tm, targets, x, a);
    (if v.Won? then y else BackOff(me, counts, y, a), v)
  }

  // ---- the acquire loop ----

  datatype Outcome = Locked | Failed | Unfinished

  /** windows: collision windows entered; interrupted: listens cut short. */
  datatype Acquisition = Acquisition(x: Local, outcome: Outcome, windows: nat, interrupted: nat)

  /** The loop from attempt i on, with `retry` failed windows so far; retryMax 0 means no limit. */
  function Acquire(me: Id, counts: Counts, tm: Timing, targets: seq<Name>, x: Local, env: seq<Script>, retry: nat,
        retryMax: nat): (z: Acquisition)
    requires Covers(counts, x.res) && forall r :: r in targets ==> r in counts
    ensures Covers(counts, z.x.res)
    decreases |env|
  {
    if retryMax != 0 && retry >= retryMax then Acquisition(x, Failed, 0, 0)
    else if |env| == 0 then Acquisition(x, Unfinished, 0, 0)
    else
      var (y, v) := Attempt(me, counts, tm, targets, x, env[0]);
      if v.Won? then Acquisition(y, Locked, 1, 0)
      else
        var z := Acquire(me, counts, tm, targets, y, env[1..], if v.Lost? then retry + 1 else retry, retryMax);
        if v.Lost? then z.(windows := z.windows + 1) else z.(interrupted := z.interrupted + 1)
  }

  function Plus(z: Acquisition, windows: nat, interrupted: nat): Acquisition {
    z.(windows := z.windows + windows, interrupted := z.interrupted + interrupted)
  }

  /** One round of the loop. */
  lemma AcquireUnfolds(me: Id, counts: Counts, tm: Timing, targets: seq<Name>, x: Local, env: seq<Script>, retry: nat,
        retryMax: nat)
    requires Covers(counts, x.res) && forall r :: r in targets ==> r in counts
    ensures Acquire(me, counts, tm, targets, x, env, retry, retryMax)
         == if retryMax != 0 && retry >= retryMax then Acquisition(x, Failed, 0, 0)
            else if |env| == 0 then Acquisition(x, Unfinished, 0, 0)
            else
              var (y, v) := Attempt(me, counts, tm, targets, x, env[0]);
              if v.Won? then Acquisition(y, Locked, 1, 0)
              else
                Plus(Acquire(me, counts, tm, targets, y, env[1..], if v.Lost? then retry + 1 else retry, retryMax),
                     if v.Lost? then 1 else 0, if v.Lost? then 0 else 1)
  {
    hide Attempt, Covers;
  }

  // ---- queries ----

  datatype Asked = Asked(x: Local, members: Table)

  /** Listen for a short while; if anything is heard, listen on for a long while. */
  function HearOut(me: Id, counts: Counts, tm: Timing, x: Local, short: seq<Arrival>, long: seq<Arrival>): (y: Local)
    requires Covers(counts, x.res)
    ensures Covers(counts, y.res)
  {
    var o1 := WaitFor(me, counts, x.res, OnAny, short, x.now, x.now + ShortTime(tm));
    if !o1.woken then Local(o1.res, o1.now, x.out)
    else
      var o2 := WaitFor(me, counts, o1.res, OnBackoff, long, o1.now, o1.now + LongTime(tm));
      Local(o2.res, o2.now, x.out)
  }

  /** Announce QUERYING, hear the others out, and report the member table. */
  function Ask(me: Id, counts: Counts, tm: Timing, x: Local, r: Name, short: seq<Arrival>,
        long: seq<Arrival>): (y: Asked)
    requires Covers(counts, x.res) && r in counts
    ensures Covers(counts, y.x.res)
  {
    var z := HearOut(me, counts, tm, SetStates(counts, x, [r], Querying, 0), short, long);
    Asked(z, z.res[r].members)
  }
}
