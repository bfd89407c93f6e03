/** The lock and its resources as objects: their methods update fields in place and meet the
    functions of module LockSpec. */
module LockObject {
  import opened Protocol
  import opened LockSpec
  import LockResults
  import B = BeaconThread

  class Resource {
    const name: Name
    var state: LockState
    var count: nat
    var members: Table
    var running: bool     // the beacon thread is to go on
    var parked: bool      // the beacon thread waits to be notified

    constructor (name: Name)
      ensures this.name == name && state == Idle && count == 1 && members == map[] && running && !parked
    {
      this.name, state, count, members, running, parked := name, Idle, 1, map[], true, false;
    }

    function View(): Res
      reads this
    {
      Res(state, members)
    }

    /** The beacon thread of this resource stands where s says. */
    predicate Behind(s: B.Sys)
      reads this
    {
      s.state == state && (parked <==> s.thread.Parked?) && (running <==> !state.Released?)
    }

    method SetCount(c: nat)
      modifies this`count
      ensures count == c
    {
      count := c;
    }

    /** Set the state, broadcast it, and wake the beacon thread if it waits. */
    method SetState(st: LockState) returns (a: Announcement)
      modifies this`state, this`parked
      ensures state == st && a == Announcement(name, st, count) && !parked
      ensures !st.Released? ==>
                forall z, s :: old(Behind(s)) && !s.state.Released? ==> Behind(B.Set(z, s, st))
    {
      state := st;
      a := SendBeacon();
      parked := false;
    }

    /** One pass of the beacon thread, up to its timed wait: it parks on an IDLE resource and
        announces any other. */
    method BeaconPass() returns (said: seq<Announcement>)
      modifies this`parked
      ensures said == (if running && state != Idle then [Announcement(name, state, count)] else [])
      ensures parked == (old(parked) || (running && state == Idle))
      ensures forall z, s :: old(Behind(s)) && s.thread.Ready? ==>
                Behind(B.Pass(z, s)) && (|said| > 0 <==> B.Pass(z, s).thread.Sleeping?)
    {
      said := [];
      if running {
        if state == Idle {
          parked := true;
        } else {
          var a := SendBeacon();
          said := [a];
        }
      }
    }

    method Stop()
      modifies this`running
      ensures !running
    {
      if running {
        running := false;
      }
    }

    method SendBeacon() returns (a: Announcement)
      ensures a == Announcement(name, state, count)
    {
      a := Announcement(name, state, count);
    }

    method UpdateMember(id: Id, st: LockState, c: nat, now: int)
      modifies this`members
      ensures View() == Protocol.UpdateMember(old(View()), count, id, st, c, now)
    {
      if count == c || state == Querying {
        if id !in members {
          members := members[id := Member(Idle, 0, now)];
        }
        members := members[id := members[id].(count := c, heardAt := now)];
        members := members[id := members[id].(state := st)];
      }
    }

    method IsAcquirable() returns (ok: bool)
      ensures ok == Acquirable(members, count)
      ensures forall b :: Records(members, b) ==> (ok <==> |b| < count)
    {
      var num := 0;
      var todo := members.Keys;
      while todo != {}
        invariant todo <= members.Keys
        invariant num == |Busy(members) - todo|
        decreases |todo|
      {
        var id :| id in todo;
        if members[id].state == Acquired {
          assert Busy(members) - (todo - {id}) == (Busy(members) - todo) + {id};
          num := num + 1;
        } else {
          assert Busy(members) - (todo - {id}) == Busy(members) - todo;
        }
        todo := todo - {id};
      }
      assert Busy(members) - {} == Busy(members);
      assert forall b :: Records(members, b) ==> b == Busy(members);
      ok := num < count;
    }

    method Reset() returns (a: Announcement)
      modifies this`state, this`members, this`parked
      ensures View() == Res(Idle, map[]) && a == Announcement(name, Idle, count) && !parked
    {
      a := SetState(Idle);
      while members.Keys != {}
        invariant state == Idle && !parked
        decreases |members.Keys|
      {
        var id :| id in members.Keys;
        members := members - {id};
      }
    }
  }

  // ---- the order of the resource map ----

  /** The order of the keys of the resource map. */
  predicate Less(a: Name, b: Name) {
    |b| > 0 && (|a| == 0 || a[0] < b[0] || (a[0] == b[0] && Less(a[1..], b[1..])))
  }

  /** It is the order of dictionaries: the first difference decides, and a proper prefix comes first. */
  lemma {:induction false} LessIff(a: Name, b: Name)
    ensures Less(a, b) <==> exists i :: Differs(a, b, i)
  {
    if |b| > 0 && |a| > 0 && a[0] == b[0] {
      LessIff(a[1..], b[1..]);
      if i :| Differs(a, b, i) {
        assert i > 0;
        assert a[1..][..i - 1] == a[..i][1..] && b[1..][..i - 1] == b[..i][1..];
        assert Differs(a[1..], b[1..], i - 1);
      }
      if i :| Differs(a[1..], b[1..], i) {
        assert a[..i + 1] == [a[0]] + a[1..][..i] && b[..i + 1] == [b[0]] + b[1..][..i];
        assert Differs(a, b, i + 1);
      }
    } else if Less(a, b) {
      assert Differs(a, b, 0);
    }
  }

  /** Up to i the names agree; there a ends or has the smaller character. */
  predicate Differs(a: Name, b: Name, i: int) {
    0 <= i <= |a| && i < |b| && a[..i] == b[..i] && (i == |a| || a[i] < b[i])
  }

  lemma {:induction false} LessIrreflexive(a: Name)
    ensures !Less(a, a)
  {
    if |a| > 0 {
      LessIrreflexive(a[1..]);
    }
  }

  lemma {:induction false} LessTransitive(a: Name, b: Name, d: Name)
    requires Less(a, b) && Less(b, d)
    ensures Less(a, d)
  {
    if |a| > 0 && a[0] == b[0] == d[0] {
      LessTransitive(a[1..], b[1..], d[1..]);
    }
  }

  lemma {:induction false} LessTotal(a: Name, b: Name)
    ensures Less(a, b) || a == b || Less(b, a)
  {
    if |a| > 0 && |b| > 0 && a[0] == b[0] {
      LessTotal(a[1..], b[1..]);
      if a[1..] == b[1..] {
        assert a == [a[0]] + a[1..] && b == [b[0]] + b[1..];
      }
    }
  }

  ghost predicate Sorted(order: seq<Name>) {
    forall i, j :: 0 <= i < j < |order| ==> Less(order[i], order[j])
  }

  lemma SortedDistinct(order: seq<Name>)
    requires Sorted(order)
    ensures Distinct(order)
  {
    forall i, j | 0 <= i < j < |order| ensures order[i] != order[j] {
      LessIrreflexive(order[i]);
    }
  }

  /** Insert a name that is not there yet. */
  method Insert(order: seq<Name>, r: Name) returns (longer: seq<Name>)
    requires Sorted(order) && r !in order
    ensures Sorted(longer) && exists k :: 0 <= k <= |order| && longer == order[..k] + [r] + order[k..]
  {
    var k := 0;
    while k < |order| && Less(order[k], r)
      invariant k <= |order| && forall i :: 0 <= i < k ==> Less(order[i], r)
    {
      k := k + 1;
    }
    longer := order[..k] + [r] + order[k..];
    if k < |order| {
      LessTotal(order[k], r);
      forall j | k < j < |order| ensures Less(r, order[j]) {
        LessTransitive(r, order[k], order[j]);
      }
    }
  }

  /** The map with an entry for that name, added if there is none. */
  function Grown<T>(m: map<Name, T>, res: Name, initial: T): map<Name, T> {
    if res in m then m else m[res := initial]
  }

  class DistributedLock {
    const id: Id
    const tm: Timing
    var retryMax: nat
    var resources: map<Name, Resource>
    var order: seq<Name>              // the keys of the map, in the order a loop visits them
    var now: int
    var out: seq<Announcement>        // everything announced so far

    constructor (id: Id, tm: Timing)
      ensures Valid() && this.id == id && this.tm == tm && retryMax == 0
      ensures resources == map[] && now == 0 && out == []
    {
      this.id, this.tm, retryMax, resources, order, now, out := id, tm, 0, map[], [], 0, [];
    }

    ghost predicate Valid()
      reads this`resources, this`order, resources.Values
    {
      && Sorted(order)
      && (forall r :: r in resources <==> r in order)
      && (forall r :: r in resources ==> resources[r].name == r && resources[r].count >= 1)
    }

    ghost function Counts(): (c: LockSpec.Counts)
      reads this`resources, resources.Values
    {
      map r | r in resources :: resources[r].count
    }

    ghost function Tables(): (t: map<Name, Res>)
      reads this`resources, resources.Values
      ensures t.Keys == resources.Keys == Counts().Keys
    {
      map r | r in resources :: resources[r].View()
    }

    ghost function View(): Local
      reads this`resources, this`now, this`out, resources.Values
    {
      Local(Tables(), now, out)
    }

    /** The set of resources, their counts and the retry limit are as before. */
    twostate predicate SameShape()
      reads this`resources, this`order, this`retryMax, resources.Values
    {
      resources == old(resources) && order == old(order) && Counts() == old(Counts()) && retryMax == old(retryMax)
    }

    method SetAdquireMaxRetry(n: nat)
      modifies this`retryMax
      ensures retryMax == n
    {
      retryMax := n;
    }

    // ---- packets and waits ----

    /** A packet arrives while the acquiring thread waits on w: tables are updated, and the
        thread is woken if the packet notifies what it waits on. */
    method ActionPerformed(pkt: Packet, w: Waiting) returns (woken: bool)
      requires Valid()
      modifies resources.Values
      ensures Valid() && SameShape() && now == old(now) && out == old(out)
      ensures Tables() == HandlePacket(id, Counts(), old(Tables()), pkt, now)
      ensures woken == Wakes(id, old(Tables()), w, pkt)
    {
      hide Sorted;
      woken := false;
      if pkt.src != id && pkt.name in resources {
        var resource := resources[pkt.name];
        if resource.state != Idle {
          resource.UpdateMember(pkt.src, pkt.state, pkt.count, now);
        }
        if w == OnAny {
          woken := true;
        }
        if pkt.state == Acquiring {
          if w == OnListen {
            woken := true;
          }
          if (resource.state == Acquiring || resource.state == Acquired) && w == OnWindow {
            woken := true;
          }
        }
      }
    }

    /** Wait on w for at most `time`; woken tells whether a packet ended the wait. */
    method Await(w: Waiting, time: nat, arr: seq<Arrival>) returns (woken: bool, rest: seq<Arrival>)
      requires Valid()
      modifies this`now, resources.Values
      ensures Valid() && SameShape() && out == old(out)
      ensures Waited(Tables(), now, woken, rest)
           == WaitFor(id, old(Counts()), old(Tables()), w, arr, old(now), old(now) + time)
    {
      woken, rest := AwaitUntil(w, now + time, arr);
    }

    method Receive(a: Arrival, w: Waiting) returns (woken: bool)
      requires Valid()
      modifies this`now, resources.Values
      ensures Valid() && SameShape() && out == old(out) && now == old(now) + a.gap
      ensures Tables() == HandlePacket(id, old(Counts()), old(Tables()), a.pkt, now)
      ensures woken == Wakes(id, old(Tables()), w, a.pkt)
    {
      ghost var tables := Tables();
      hide HandlePacket, Wakes, Sorted;
      now := now + a.gap;
      assert Tables() == tables;
      woken := ActionPerformed(a.pkt, w);
    }

    /** Packets arrive, one at a time, until one ends the wait or the deadline is reached. */
    method AwaitUntil(w: Waiting, deadline: int, arr: seq<Arrival>) returns (woken: bool, rest: seq<Arrival>)
      requires Valid() && now <= deadline
      modifies this`now, resources.Values
      ensures Valid() && SameShape() && out == old(out)
      ensures Waited(Tables(), now, woken, rest)
            == WaitFor(id, old(Counts()), old(Tables()), w, arr, old(now), deadline)
      decreases |arr|
    {
      WaitUnfolds(id, Counts(), Tables(), w, arr, now, deadline);
      hide HandlePacket, Wakes, Sorted, WaitFor;
      woken, rest := false, arr;
      if |arr| == 0 || now + arr[0].gap >= deadline {
        now := deadline;
      } else {
        woken := Receive(arr[0], w);
        rest := arr[1..];
        if !woken {
          woken, rest := AwaitUntil(w, deadline, rest);
        }
      }
    }

    // ---- loops over resources ----

    /** Changing the state and the table of one resource changes nothing else in the view. */
    twostate lemma OneChanged(r: Name)
      requires old(Valid()) && resources == old(resources) && order == old(order) && r in resources
      requires forall x :: x in resources && x != r ==> resources[x].View() == old(resources[x].View())
      requires forall x :: x in resources ==> resources[x].count == old(resources[x].count)
      ensures Valid() && Counts() == old(Counts()) && Tables() == old(Tables())[r := resources[r].View()]
    {
      hide Sorted;
    }

    /** Set and announce the state of one resource. */
    method SetResource(r: Name, st: LockState)
      requires Valid() && r in resources
      modifies this`out, resources[r]
      ensures Valid() && SameShape() && r in Counts() && r in old(Tables())
      ensures !resources[r].parked && resources[r].running == old(resources[r].running) && resources[r].state == st
      ensures View() == Local(SetOne(old(Tables()), r, st), old(now),
            old(out) + [Announcement(r, st, old(Counts())[r])])
    {
      assert forall x :: x in resources && x != r ==> resources[x] != resources[r];
      hide Valid;
      var a := resources[r].SetState(st);
      out := out + [a];
      OneChanged(r);
    }

    /** The commit check of one resource. */
    method CommitResource(r: Name) returns (room: bool)
      requires Valid() && r in resources
      modifies this`out, resources.Values
      ensures Valid() && SameShape() && r in Counts() && r in old(Tables())
      ensures room == Acquirable(old(Tables())[r].members, old(Counts())[r])
      ensures View() == if room
            then Local(SetOne(old(Tables()), r, Acquired), old(now),
            old(out) + [Announcement(r, Acquired, old(Counts())[r])])
                        else old(View())
    {
      hide Acquirable, Sorted;
      assert resources[r].members == Tables()[r].members && resources[r].count == Counts()[r];
      room := resources[r].IsAcquirable();
      if room {
        SetResource(r, Acquired);
      }
    }

    method ResetResource(r: Name)
      requires Valid() && r in resources
      modifies this`out, resources.Values
      ensures Valid() && SameShape() && r in Counts() && r in old(Tables())
      ensures View() == Local(old(Tables())[r := Res(Idle, map[])], old(now),
            old(out) + [Announcement(r, Idle, old(Counts())[r])])
    {
      assert forall x :: x in resources && x != r ==> resources[x] != resources[r];
      hide Valid;
      var a := resources[r].Reset();
      out := out + [a];
      OneChanged(r);
    }

    /** Set a state on every target, in order. */
    method SetStates(targets: seq<Name>, st: LockState)
      requires Valid() && forall r :: r in targets ==> r in resources
      modifies this`out, resources.Values
      ensures Valid() && SameShape()
      ensures View() == LockSpec.SetStates(old(Counts()), old(View()), targets, st, 0)
    {
      hide Valid, SetOne;
      ghost var counts, start := Counts(), View();
      var k := 0;
      while k < |targets|
        modifies this`out, resources.Values
        invariant k <= |targets| && Valid() && SameShape() && Counts() == counts
        invariant LockSpec.SetStates(counts, View(), targets, st, k)
              == LockSpec.SetStates(counts, start, targets, st, 0)
      {
        SetResource(targets[k], st);
        k := k + 1;
      }
    }

    /** Commit every target in order, up to the first that has no room. */
    method CommitAll(targets: seq<Name>) returns (ok: bool)
      requires Valid() && forall r :: r in targets ==> r in resources
      modifies this`out, resources.Values
      ensures Valid() && SameShape()
      ensures (View(), ok) == Commit(old(Counts()), old(View()), targets, 0)
    {
      hide Acquirable, Valid, SetOne;
      ghost var counts, start := Counts(), View();
      ok := true;
      var k := 0;
      while k < |targets|
        modifies this`out, resources.Values
        invariant k <= |targets| && Valid() && SameShape() && Counts() == counts
        invariant Commit(counts, View(), targets, k) == Commit(counts, start, targets, 0)
      {
        ok := CommitResource(targets[k]);
        if !ok {
          return;
        }
        k := k + 1;
      }
    }

    method ResetAll(targets: seq<Name>)
      requires Valid() && forall r :: r in targets ==> r in resources
      modifies this`out, resources.Values
      ensures Valid() && SameShape()
      ensures View() == ResetFrom(old(Counts()), old(View()), targets, 0)
    {
      hide Valid;
      ghost var counts, start := Counts(), View();
      var k := 0;
      while k < |targets|
        modifies this`out, resources.Values
        invariant k <= |targets| && Valid() && SameShape() && Counts() == counts
        invariant ResetFrom(counts, View(), targets, k) == ResetFrom(counts, start, targets, 0)
      {
        ResetResource(targets[k]);
        k := k + 1;
      }
    }

    // ---- acquiring ----

    /** One attempt on the targets, up to its commit or its reset. */
    method TryOnce(targets: seq<Name>, a: Script) returns (v: Verdict)
      requires Valid() && forall r :: r in targets ==> r in resources
      modifies this`now, this`out, resources.Values
      ensures Valid() && SameShape()
      ensures (View(), v) == LockSpec.TryOnce(id, old(Counts()), tm, targets, old(View()), a)
    {
      hide LockSpec.SetStates, WaitFor, Conclude, Sorted;
      SetStates(targets, Starting);
      var heard, _ := Await(OnListen, a.listenTime, a.listen);
      if heard {
        return Interrupted;
      }
      SetStates(targets, Acquiring);
      var woken, _ := Await(OnWindow, WindowTime(tm), a.window);
      var won := Finish(targets, woken);
      v := if won then Won else Lost;
    }

    /** After the collision window: commit, or reset everything. */
    method Finish(targets: seq<Name>, woken: bool) returns (won: bool)
      requires Valid() && forall r :: r in targets ==> r in resources
      modifies this`out, resources.Values
      ensures Valid() && SameShape()
      ensures (View(), won) == Conclude(old(Counts()), old(View()), targets, woken)
    {
      hide Commit, ResetFrom, Sorted;
      won := false;
      if !woken {
        won := CommitAll(targets);
        if won {
          return;
        }
      }
      ResetAll(targets);
    }

    method BackOff(a: Script)
      requires Valid()
      modifies this`now, resources.Values
      ensures Valid() && SameShape()
      ensures View() == LockSpec.BackOff(id, old(Counts()), old(View()), a)
    {
      hide WaitFor, Sorted;
      var _, _ := Await(OnBackoff, a.backoffTime, a.backoff);
    }

    /** One attempt and, unless it succeeds, its backoff. */
    method Attempt(targets: seq<Name>, a: Script) returns (v: Verdict)
      requires Valid() && forall r :: r in targets ==> r in resources
      modifies this`now, this`out, resources.Values
      ensures Valid() && SameShape()
      ensures (View(), v) == LockSpec.Attempt(id, old(Counts()), tm, targets, old(View()), a)
    {
      hide LockSpec.TryOnce, LockSpec.BackOff, Sorted;
      v := TryOnce(targets, a);
      if v != Won {
        BackOff(a);
      }
    }

    /** The acquire loop over the targets; one script of the environment for each attempt. */
    method AcquireLoop(targets: seq<Name>, env: seq<Script>) returns (outcome: Outcome, windows: nat, interrupted: nat)
      requires Valid() && forall r :: r in targets ==> r in resources
      modifies this`now, this`out, resources.Values
      ensures Valid() && SameShape()
      ensures Acquisition(View(), outcome, windows, interrupted)
           == Acquire(id, old(Counts()), tm, targets, old(View()), env, 0, retryMax)
    {
      hide LockSpec.Attempt, Valid, Acquire;
      ghost var counts, start := Counts(), View();
      var retry, rest := 0, env;
      windows, interrupted := 0, 0;
      while retryMax == 0 || retry < retryMax
        modifies this`now, this`out, resources.Values
        invariant Valid() && SameShape() && Counts() == counts
        invariant Plus(Acquire(id, counts, tm, targets, View(), rest, retry, retryMax), windows, interrupted)
               == Acquire(id, counts, tm, targets, start, env, 0, retryMax)
        decreases |rest|
      {
        AcquireUnfolds(id, counts, tm, targets, View(), rest, retry, retryMax);
        if |rest| == 0 {
          return Unfinished, windows, interrupted;
        }
        var v := Attempt(targets, rest[0]);
        if v == Won {
          return Locked, windows + 1, interrupted;
        }
        if v == Lost {
          retry, windows := retry + 1, windows + 1;
        } else {
          interrupted := interrupted + 1;
        }
        rest := rest[1..];
      }
      AcquireUnfolds(id, counts, tm, targets, View(), rest, retry, retryMax);
      outcome := Failed;
    }

    /** `acquire` without a name: all defined resources. It is all or nothing, and false comes after
        exactly the allowed number of failed windows. */
    method AdquireLock(env: seq<Script>) returns (outcome: Outcome, windows: nat, interrupted: nat)
      requires Valid()
      modifies this`now, this`out, resources.Values
      ensures Valid() && SameShape()
      ensures |order| == 0 ==> outcome == Failed && View() == old(View()) && windows == 0
      ensures |order| > 0 ==>
                Acquisition(View(), outcome, windows, interrupted)
                == Acquire(id, old(Counts()), tm, order,
                           LockSpec.SetStates(old(Counts()), old(View()), order, Starting, 0), env, 0, retryMax)
      ensures |order| > 0 ==> Ended(order, outcome) && (outcome == Failed ==> windows == retryMax > 0)
    {
      hide Acquire, LockSpec.SetStates, Sorted, Ended;
      if |order| == 0 {
        return Failed, 0, 0;
      }
      ghost var counts, start := Counts(), View();
      SetStates(order, Starting);
      outcome, windows, interrupted := AcquireLoop(order, env);
      SortedDistinct(order);
      LockResults.StartedEnds(id, counts, tm, order, start, env, retryMax);
      EndedAs(order, outcome);
    }

    /** What the outcome of an acquisition says about the objects it was for. */
    ghost predicate Ended(targets: seq<Name>, outcome: Outcome)
      reads this`resources, resources.Values
    {
      forall r :: r in targets && r in resources ==>
        match outcome
        case Locked => resources[r].state == Acquired
        case Failed => resources[r].View() == Res(Idle, map[])
        case Unfinished => resources[r].state != Acquired
    }

    lemma EndedAs(targets: seq<Name>, outcome: Outcome)
      requires LockResults.EndsAs(Tables(), targets, outcome)
      ensures Ended(targets, outcome)
    {
      forall r | r in targets && r in resources ensures Tables()[r] == resources[r].View() {
      }
    }

    method GetResource(res: Name) returns (r: Resource?)
      requires Valid()
      ensures (r == null <==> res !in resources) && (r != null ==> r == resources[res])
    {
      r := if res in resources then resources[res] else null;
    }

    method AddResource(res: Name) returns (r: Resource)
      requires Valid() && res !in resources
      modifies this`resources, this`order
      ensures Valid() && fresh(r) && resources == old(resources)[res := r] && r.View() == Res(Idle, map[])
            && r.count == 1
    {
      hide Less, Sorted;
      r := new Resource(res);
      resources := resources[res := r];
      var longer := Insert(order, res);
      order := longer;
    }

    /** The resource of that name, created IDLE with count 1 if there is none. */
    method CreateResource(res: Name) returns (r: Resource)
      requires Valid()
      modifies this`resources, this`order
      ensures Valid() && res in resources && resources[res] == r
      ensures res in old(resources) ==> resources == old(resources) && order == old(order)
      ensures res !in old(resources) ==>
                fresh(r) && resources == old(resources)[res := r] && r.View() == Res(Idle, map[]) && r.count == 1
      ensures Counts() == Grown(old(Counts()), res, 1) && Tables() == Grown(old(Tables()), res, Res(Idle, map[]))
    {
      hide Valid;
      if res in resources {
        r := resources[res];
      } else {
        r := AddResource(res);
      }
    }

    /** The resource is looked up, and created if it is not there. */
    method NeedResource(res: Name)
      requires Valid()
      modifies this`resources, this`order
      ensures Valid() && res in resources
      ensures forall r :: r in resources.Values ==> r in old(resources.Values) || fresh(r)
      ensures Counts() == Grown(old(Counts()), res, 1) && Tables() == Grown(old(Tables()), res, Res(Idle, map[]))
    {
      hide Valid;
      var r := GetResource(res);
      if r == null {
        r := CreateResource(res);
      }
    }

    method SetCountOf(r: Resource, count: nat)
      requires Valid() && r in resources.Values && count >= 1
      modifies r`count
      ensures Valid() && r.name in resources && resources[r.name] == r
      ensures Counts() == old(Counts())[r.name := count] && Tables() == old(Tables())
    {
      hide Sorted;
      r.SetCount(count);
    }

    /** A count above 1 is set; a count of 0 or 1 leaves the count as it is. */
    method DefineResource(res: Name, count: nat) returns (ok: bool)
      requires Valid()
      modifies this`resources, this`order, resources.Values
      ensures Valid() && ok && Tables() == Grown(old(Tables()), res, Res(Idle, map[]))
      ensures Counts() == if count > 1 then old(Counts())[res := count] else Grown(old(Counts()), res, 1)
    {
      hide Valid;
      ghost var before := Counts();
      var r := CreateResource(res);
      if count > 1 {
        SetCountOf(r, count);
        assert Grown(before, res, 1)[res := count] == before[res := count];
      }
      ok := true;
    }

    /** `acquire` with a name: that resource only, created if need be; whatever its state was, true
        leaves it ACQUIRED and false leaves it IDLE with an empty table. */
    method AdquireLockOf(res: Name, env: seq<Script>) returns (outcome: Outcome, windows: nat, interrupted: nat)
      requires Valid()
      modifies this`now, this`out, this`resources, this`order, resources.Values
      ensures Valid() && res in resources
      ensures var counts := Grown(old(Counts()), res, 1);
              var tables := Grown(old(Tables()), res, Res(Idle, map[]));
              Acquisition(View(), outcome, windows, interrupted)
              == Acquire(id, counts, tm, [res], Local(tables, old(now), old(out)), env, 0, old(retryMax))
      ensures |env| > 0 ==> Ended([res], outcome)
      ensures outcome == Failed ==> |env| > 0 && windows == old(retryMax) > 0
    {
      hide Acquire, Valid, Ended, Grown;
      NeedResource(res);
      outcome, windows, interrupted := AcquireKnown(res, env);
    }

    method AcquireKnown(res: Name, env: seq<Script>) returns (outcome: Outcome, windows: nat, interrupted: nat)
      requires Valid() && res in resources
      modifies this`now, this`out, resources.Values
      ensures Valid() && SameShape()
      ensures Acquisition(View(), outcome, windows, interrupted)
           == Acquire(id, old(Counts()), tm, [res], old(View()), env, 0, retryMax)
      ensures |env| > 0 ==> Ended([res], outcome)
      ensures outcome == Failed ==> |env| > 0 && windows == retryMax > 0
    {
      hide Acquire, Valid, Ended;
      ghost var counts, start := Counts(), View();
      outcome, windows, interrupted := AcquireLoop([res], env);
      LockResults.AcquireEnds(id, counts, tm, [res], start, env, retryMax);
      if |env| > 0 {
        EndedAs([res], outcome);
      }
    }

    // ---- releasing ----

    /** Releasing announces RELEASED and stops the beacon thread; a name that was never defined is left alone. */
    method ReleaseLock(res: Name)
      requires Valid()
      modifies this`out, resources.Values
      ensures Valid() && SameShape()
      ensures View() == if res in resources then LockSpec.SetStates(old(Counts()), old(View()), [res], Released, 0)
            else old(View())
      ensures forall r :: r in resources ==> resources[r].running == (r != res && old(resources[r].running))
      ensures res in resources ==> forall z, s :: resources[res].Behind(B.Set(z, s, Released))
    {
      hide Sorted;
      if res in resources {
        ReleaseKnown(res);
      }
    }

    method ReleaseKnown(res: Name)
      requires Valid() && res in resources
      modifies this`out, resources[res]
      ensures Valid() && SameShape() && !resources[res].running
      ensures forall z, s :: resources[res].Behind(B.Set(z, s, Released))
      ensures View() == LockSpec.SetStates(old(Counts()), old(View()), [res], Released, 0)
    {
      hide Valid, SetOne, LockSpec.SetStates;
      OneState(Counts(), View(), res, Released);
      SetResource(res, Released);
      StopResource(res);
    }

    method StopResource(res: Name)
      requires Valid() && res in resources
      modifies resources[res]
      ensures Valid() && SameShape() && View() == old(View())
      ensures !resources[res].running && resources[res].parked == old(resources[res].parked)
      ensures resources[res].state == old(resources[res].state)
    {
      assert forall x :: x in resources && x != res ==> resources[x] != resources[res];
      hide Valid;
      resources[res].Stop();
      OneChanged(res);
    }

    /** What releasing the resources from k on makes of the lock. */
    ghost function Releasing(k: nat): Local
      requires Valid() && k <= |order|
      reads this`resources, this`order, this`now, this`out, resources.Values
    {
      LockSpec.SetStates(Counts(), View(), order, Released, k)
    }

    method ReleaseNth(k: nat)
      requires Valid() && k < |order|
      modifies this`out, resources.Values
      ensures Valid() && SameShape() && Releasing(k + 1) == old(Releasing(k))
      ensures forall r :: r in resources ==> resources[r].running == (r != order[k] && old(resources[r].running))
    {
      hide LockSpec.SetStates;
      NextState(Counts(), View(), order, Released, k);
      ReleaseLock(order[k]);
    }

    /** Every resource is released, in order; nothing the calls do can fail, so the answer is true. */
    method ReleaseAll() returns (ok: bool)
      requires Valid()
      modifies this`out, resources.Values
      ensures Valid() && SameShape() && ok
      ensures View() == LockSpec.SetStates(old(Counts()), old(View()), order, Released, 0)
      ensures forall r :: r in resources ==> !resources[r].running
    {
      hide LockSpec.SetStates;
      assert forall r :: r in resources ==> r in order;
      ok := true;
      var k := 0;
      while k < |order|
        modifies this`out, resources.Values
        invariant k <= |order| && Valid() && SameShape() && Releasing(k) == old(Releasing(0))
        invariant forall r :: r in order[..k] ==> r in resources && !resources[r].running
      {
        hide Valid, Releasing;
        assert order[..k + 1] == order[..k] + [order[k]];
        ReleaseNth(k);
        k := k + 1;
      }
      assert order[..k] == order;
      NextState(Counts(), View(), order, Released, k);
    }

    // ---- querying ----

    /** Listen shortly; if anything was heard, keep listening until the long time is used up,
        however often packets interrupt. The result is a copy of the member table. */
    method QueryLock(res: Name, short: seq<Arrival>, long: seq<Arrival>) returns (table: Table)
      requires Valid()
      modifies this`now, this`out, this`resources, this`order, resources.Values
      ensures Valid() && res in resources
      ensures var counts := Grown(old(Counts()), res, 1);
              var tables := Grown(old(Tables()), res, Res(Idle, map[]));
              Asked(View(), table) == Ask(id, counts, tm, Local(tables, old(now), old(out)), res, short, long)
      ensures table == Tables()[res].members
    {
      hide Ask, Valid, Grown;
      NeedResource(res);
      table := AskAbout(res, short, long);
    }

    method AskAbout(res: Name, short: seq<Arrival>, long: seq<Arrival>) returns (table: Table)
      requires Valid() && res in resources
      modifies this`now, this`out, resources.Values
      ensures Valid() && SameShape()
      ensures Asked(View(), table) == Ask(id, old(Counts()), tm, old(View()), res, short, long)
      ensures table == Tables()[res].members
    {
      hide LockSpec.HearOut, Valid, LockSpec.SetStates;
      AnnounceAndHear(res, short, long);
      table := MembersOf(res);
    }

    method AnnounceAndHear(res: Name, short: seq<Arrival>, long: seq<Arrival>)
      requires Valid() && res in resources
      modifies this`now, this`out, resources.Values
      ensures Valid() && SameShape()
      ensures var y := LockSpec.SetStates(old(Counts()), old(View()), [res], Querying, 0);
              View() == LockSpec.HearOut(id, old(Counts()), tm, y, short, long)
    {
      hide LockSpec.HearOut, Valid, LockSpec.SetStates;
      SetStates([res], Querying);
      HearOut(short, long);
    }

    method HearOut(short: seq<Arrival>, long: seq<Arrival>)
      requires Valid()
      modifies this`now, resources.Values
      ensures Valid() && SameShape() && out == old(out)
      ensures View() == LockSpec.HearOut(id, old(Counts()), tm, old(View()), short, long)
    {
      hide WaitFor, Valid;
      var heard, _ := Await(OnAny, ShortTime(tm), short);
      if heard {
        ListenOn(LongTime(tm), long);
      }
    }

    method MembersOf(res: Name) returns (table: Table)
      requires Valid() && res in resources
      ensures res in Tables() && table == Tables()[res].members
    {
      table := resources[res].members;
    }

    /** Is anybody holding the resource? */
    method IsBusy(res: Name, short: seq<Arrival>, long: seq<Arrival>) returns (busy: bool)
      requires Valid()
      modifies this`now, this`out, this`resources, this`order, resources.Values
      ensures Valid() && res in Tables()
      ensures var counts := Grown(old(Counts()), res, 1);
              var tables := Grown(old(Tables()), res, Res(Idle, map[]));
              var asked := Ask(id, counts, tm, Local(tables, old(now), old(out)), res, short, long);
              && View() == asked.x && busy == SeesHolder(asked.members)
              && (busy <==> exists id :: id in asked.members && asked.members[id].state.Acquired?)
    {
      hide Ask, Sorted;
      var table := QueryLock(res, short, long);
      busy := AnyHolder(table);
    }

    /** One round of the long listen: wait for a packet, and subtract the time that passed. */
    method ListenRound(left: nat, rest: seq<Arrival>) returns (less: nat, remaining: seq<Arrival>)
      requires Valid()
      modifies this`now, resources.Values
      ensures Valid() && SameShape() && out == old(out) && now + less == old(now) + left
      ensures |remaining| <= |rest| && (less > 0 ==> |remaining| < |rest|)
      ensures SameEnd(WaitFor(id, old(Counts()), old(Tables()), OnBackoff, rest, old(now), old(now) + left),
                      WaitFor(id, old(Counts()), Tables(), OnBackoff, remaining, now, old(now) + left))
    {
      hide Sorted, WaitFor;
      var begun := now;
      LongListenSlice(id, Counts(), Tables(), rest, now, now + left);
      var heard;
      heard, remaining := Await(OnAny, left, rest);
      less := if heard then left - (now - begun) else 0;
    }

    /** The long listen of a query: the remaining time shrinks by what each wait took. */
    method ListenOn(time: nat, arr: seq<Arrival>)
      requires Valid()
      modifies this`now, resources.Values
      ensures Valid() && SameShape() && out == old(out)
      ensures var o := WaitFor(id, old(Counts()), old(Tables()), OnBackoff, arr, old(now), old(now) + time);
              Tables() == o.res && now == o.now
    {
      hide Sorted, WaitFor, Valid;
      ghost var counts, tables, start := Counts(), Tables(), now;
      var left, rest := time, arr;
      while left > 0
        modifies this`now, resources.Values
        invariant Valid() && SameShape() && out == old(out) && Counts() == counts
        invariant now + left == start + time
        invariant SameEnd(WaitFor(id, counts, tables, OnBackoff, arr, start, start + time),
                          WaitFor(id, counts, Tables(), OnBackoff, rest, now, start + time))
        decreases |rest|, left
      {
        left, rest := ListenRound(left, rest);
      }
      WaitUnfolds(id, counts, Tables(), OnBackoff, rest, now, now);
    }
  }

  /** The loop of `isBusy` over the returned list. */
  method AnyHolder(table: Table) returns (found: bool)
    ensures found == SeesHolder(table)
    ensures found <==> exists id :: id in table && table[id].state.Acquired?
  {
    found := false;
    var todo := table.Keys;
    while todo != {} && !found
      invariant todo <= table.Keys
      invariant found ==> SeesHolder(table)
      invariant !found ==> forall id :: id in table.Keys - todo ==> !table[id].state.Acquired?
      decreases |todo|, !found
    {
      var id :| id in todo;
      if table[id].state == Acquired {
        found := true;
      }
      todo := todo - {id};
    }
  }

  /** Two waits that end with the same tables at the same time. */
  predicate SameEnd(a: Waited, b: Waited) {
    a.res == b.res && a.now == b.now
  }

  /** Waiting through is waiting for the next packet about a known resource, then waiting on. */
  lemma {:induction false} LongListenSlice(me: Id, counts: LockSpec.Counts, res: map<Name, Res>, arr: seq<Arrival>,
        now: int, deadline: int)
    requires Covers(counts, res) && now <= deadline
    ensures var o := WaitFor(me, counts, res, OnAny, arr, now, deadline);
            SameEnd(WaitFor(me, counts, res, OnBackoff, arr, now, deadline),
                    WaitFor(me, counts, o.res, OnBackoff, o.rest, o.now, deadline))
    decreases |arr|
  {
    hide HandlePacket, WaitFor;
    WaitUnfolds(me, counts, res, OnAny, arr, now, deadline);
    WaitUnfolds(me, counts, res, OnBackoff, arr, now, deadline);
    if |arr| == 0 || now + arr[0].gap >= deadline {
      WaitUnfolds(me, counts, res, OnBackoff, arr, deadline, deadline);
    } else {
      var t, pkt := now + arr[0].gap, arr[0].pkt;
      if !Wakes(me, res, OnAny, pkt) {
        LongListenSlice(me, counts, HandlePacket(me, counts, res, pkt, t), arr[1..], t, deadline);
      }
    }
  }
}
