/** The lock protocol as one process sees it: resource states, the member table, and
    the reaction of a lock to packets and to its own timers. Both the distributed model
    (module Network) and the lock object (module LockObject) are built on these functions. */
module Protocol {

  type Id = nat
  type Name = string

  datatype LockState = Idle | Starting | Acquiring | Acquired | Released | Querying

  /** A resource in one of these two states is being claimed by its process. */
  predicate IsClaim(st: LockState) {
    st.Acquiring? || st.Acquired?
  }

  /** What a lock remembers about another process: the state and count it last announced. */
  datatype Member = Member(state: LockState, count: nat, heardAt: int)

  type Table = map<Id, Member>

  datatype Res = Res(state: LockState, members: Table)

  /** The resources a lock declares, in the order its loops visit them, with their counts. */
  datatype Spec = Spec(order: seq<Name>, count: map<Name, nat>)

  predicate Distinct(order: seq<Name>) {
    forall i, j :: 0 <= i < j < |order| ==> order[i] != order[j]
  }

  ghost predicate ValidSpec(sp: Spec) {
    && Distinct(sp.order)
    && (forall r :: r in sp.count <==> r in sp.order)
    && (forall r :: r in sp.count ==> sp.count[r] >= 1)
  }

  /** Where the thread that runs `acquire` or `query_lock` stands.
      l: when listening began; t: when ACQUIRING was announced; k: next resource to visit. */
  datatype Phase =
    | Resting
    | Listening(l: int)
    | Window(l: int, t: int)
    | Checking(l: int, t: int, k: nat)
    | Resetting(l: int, t: int, k: nat)
    | Held(l: int, t: int)
    | GaveUp
    | ShortListen(name: Name, since: int)
    | LongListen(name: Name, since: int, until: int)
    | Answered(name: Name, since: int, busy: bool)

  datatype Node = Node(phase: Phase, res: map<Name, Res>)

  datatype Packet = Packet(src: Id, dst: Id, name: Name, state: LockState, count: nat, sentAt: int)

  /** Timing constants: a beacon is sent every `beacon` ticks, `sense` beacons make a window. */
  datatype Timing = Timing(sense: nat, beacon: nat, maxBackoff: nat)

  /** k beacon intervals. */
  function Beacons(b: nat, k: nat): nat {
    if k == 0 then 0 else Beacons(b, k - 1) + b
  }

  function WindowTime(tm: Timing): nat {
    Beacons(tm.beacon, tm.sense)
  }

  function ShortTime(tm: Timing): nat {
    Beacons(tm.beacon, tm.sense + 1)
  }

  function LongTime(tm: Timing): nat {
    Beacons(tm.beacon, 2 * tm.maxBackoff)
  }

  lemma {:induction false} BeaconsProduct(b: nat, k: nat)
    ensures Beacons(b, k) == k * b
  {
    if k > 0 {
      BeaconsProduct(b, k - 1);
    }
  }

  lemma BeaconsMonotone(b: nat, i: nat, j: nat)
    requires i <= j
    ensures Beacons(b, i) <= Beacons(b, j)
  {
    if i < j {
      BeaconsMonotone(b, i, j - 1);
    }
  }

  /** A window is `sense` beacons. */
  lemma WindowIs(tm: Timing)
    ensures WindowTime(tm) == tm.sense * tm.beacon
  {
    BeaconsProduct(tm.beacon, tm.sense);
  }

  // ---- the member table ----

  function UpdateMember(x: Res, own: nat, id: Id, st: LockState, count: nat, now: int): Res {
    if own == count || x.state.Querying? then
      x.(members := x.members[id := Member(st, count, now)])
    else
      x
  }

  /** The members a table records as holders. */
  function Busy(m: Table): set<Id> {
    set id | id in m && m[id].state.Acquired?
  }

  predicate Acquirable(m: Table, count: nat) {
    |Busy(m)| < count
  }

  /** The set b holds exactly the processes that the table records as ACQUIRED. */
  ghost predicate Records(m: Table, b: set<Id>) {
    forall id :: id in b <==> id in m && m[id].state.Acquired?
  }

  /** There is room exactly when the processes recorded as ACQUIRED are fewer than the count. */
  lemma AcquirableIff(m: Table, count: nat, b: set<Id>)
    requires Records(m, b)
    ensures Acquirable(m, count) <==> |b| < count
  {
    assert b == Busy(m);
  }

  /** Fewer processes than the count are recorded as ACQUIRED. */
  ghost predicate HasRoom(m: Table, count: nat) {
    exists b :: Records(m, b) && |b| < count
  }

  lemma HasRoomIff(m: Table, count: nat)
    ensures HasRoom(m, count) <==> Acquirable(m, count)
  {
    assert Records(m, Busy(m));
    if HasRoom(m, count) {
      var b :| Records(m, b) && |b| < count;
      AcquirableIff(m, count, b);
    }
  }

  // ---- reactions ----

  function SetAll(res: map<Name, Res>, st: LockState): map<Name, Res> {
    map r | r in res :: res[r].(state := st)
  }

  function SetOne(res: map<Name, Res>, r: Name, st: LockState): map<Name, Res>
    requires r in res
  {
    res[r := res[r].(state := st)]
  }

  /** Handling of a packet of another process about a resource this lock knows. */
  function OnPacket(sp: Spec, tm: Timing, n: Node, pkt: Packet, now: int): Node
    requires pkt.name in n.res && pkt.name in sp.count
  {
    var x := n.res[pkt.name];
    var res := if x.state.Idle? then n.res
               else n.res[pkt.name := UpdateMember(x, sp.count[pkt.name], pkt.src, pkt.state, pkt.count, now)];
    var phase :=
      if n.phase.ShortListen? then LongListen(n.phase.name, n.phase.since, now + LongTime(tm))
      else if pkt.state.Acquiring? && n.phase.Listening? then Resting
      else if pkt.state.Acquiring? && n.phase.Window? && IsClaim(x.state) then Resetting(n.phase.l, n.phase.t, 0)
      else n.phase;
    Node(phase, res)
  }

  /** What a process does on its own. */
  datatype Act =
    | Beacon(name: Name)    // the beacon thread repeats the current state
    | Prepare               // STARTING everywhere, before the first attempt
    | Listen                // STARTING everywhere, and listen
    | Announce              // nobody heard: ACQUIRING everywhere
    | Expire                // the collision window passed undisturbed
    | Check                 // commit the next resource, or fail
    | Reset                 // reset the next resource
    | GiveUp                // no retries left
    | Release(name: Name)
    | Query(name: Name)
    | QuietEnd              // short listen passed without a packet
    | Answer                // long listen is over

  predicate CanAct(sp: Spec, tm: Timing, n: Node, act: Act, now: int)
    requires forall r :: r in sp.order ==> r in n.res
  {
    match act
    case Beacon(r) => r in n.res
    case Prepare => n.phase.Resting?
    case Listen => n.phase.Resting? && |sp.order| > 0
    case Announce => n.phase.Listening? && now >= n.phase.l + WindowTime(tm)
    case Expire => n.phase.Window? && now >= n.phase.t + WindowTime(tm)
    case Check => n.phase.Checking? && n.phase.k < |sp.order| && sp.order[n.phase.k] in sp.count
    case Reset => n.phase.Resetting? && n.phase.k < |sp.order|
    case GiveUp => n.phase.Resting?
    case Release(r) => (n.phase.Held? || n.phase.GaveUp? || n.phase.Answered?) && r in n.res
    case Query(r) => n.phase.Resting? && r in n.res
    case QuietEnd => n.phase.ShortListen? && n.phase.name in n.res && now >= n.phase.since + ShortTime(tm)
    case Answer => n.phase.LongListen? && n.phase.name in n.res && now >= n.phase.until
  }

  /** The resources whose state a step sends out. */
  function Announced(sp: Spec, tm: Timing, n: Node, act: Act, now: int): (rs: set<Name>)
    requires forall r :: r in sp.order ==> r in n.res
    requires CanAct(sp, tm, n, act, now)
    ensures rs <= n.res.Keys
  {
    match act
    case Beacon(r) => {r}
    case Prepare => n.res.Keys
    case Listen => n.res.Keys
    case Announce => n.res.Keys
    case Check =>
      var r := sp.order[n.phase.k];
      if Acquirable(n.res[r].members, sp.count[r]) then {r} else {}
    case Reset => {sp.order[n.phase.k]}
    case Release(r) => {r}
    case Query(r) => {r}
    case _ => {}
  }

  /** The lock's view of "is anybody holding this resource". */
  predicate SeesHolder(m: Table) {
    exists id :: id in m && m[id].state.Acquired?
  }

  function CheckNext(sp: Spec, n: Node): Node
    requires n.phase.Checking? && n.phase.k < |sp.order|
    requires sp.order[n.phase.k] in n.res && sp.order[n.phase.k] in sp.count
  {
    var r := sp.order[n.phase.k];
    if Acquirable(n.res[r].members, sp.count[r]) then
      Node(if n.phase.k + 1 == |sp.order| then Held(n.phase.l, n.phase.t)
           else Checking(n.phase.l, n.phase.t, n.phase.k + 1),
           SetOne(n.res, r, Acquired))
    else
      Node(Resetting(n.phase.l, n.phase.t, 0), n.res)
  }

  function ResetNext(sp: Spec, n: Node): Node
    requires n.phase.Resetting? && n.phase.k < |sp.order| && sp.order[n.phase.k] in n.res
  {
    Node(if n.phase.k + 1 == |sp.order| then Resting else Resetting(n.phase.l, n.phase.t, n.phase.k + 1),
         n.res[sp.order[n.phase.k] := Res(Idle, map[])])
  }

  function Perform(sp: Spec, tm: Timing, n: Node, act: Act, now: int): (n': Node)
    requires forall r :: r in sp.order ==> r in n.res
    requires CanAct(sp, tm, n, act, now)
    ensures n'.res.Keys == n.res.Keys
  {
    match act
    case Beacon(r) => n
    case Prepare => n.(res := SetAll(n.res, Starting))
    case Listen => Node(Listening(now), SetAll(n.res, Starting))
    case Announce => Node(Window(n.phase.l, now), SetAll(n.res, Acquiring))
    case Expire => n.(phase := Checking(n.phase.l, n.phase.t, 0))
    case Check => CheckNext(sp, n)
    case Reset => ResetNext(sp, n)
    case GiveUp => n.(phase := GaveUp)
    case Release(r) => n.(res := SetOne(n.res, r, Released))
    case Query(r) => Node(ShortListen(r, now), SetOne(n.res, r, Querying))
    case QuietEnd => n.(phase := Answered(n.phase.name, n.phase.since, SeesHolder(n.res[n.phase.name].members)))
    case Answer => n.(phase := Answered(n.phase.name, n.phase.since, SeesHolder(n.res[n.phase.name].members)))
  }
}
