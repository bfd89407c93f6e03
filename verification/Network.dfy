/** The distributed system: locks with distinct ids, an integer clock, and a broadcast
    medium that may delay, reorder, duplicate and lose packets. */
module Network {
  import opened Protocol

  /** delay: every packet that is not lost arrives within `delay` ticks.
      burst: of any `burst` consecutive packets of one sender about one resource, every
      receiver gets at least one (1 means no loss). */
  datatype Config = Config(tm: Timing, delay: nat, burst: nat, specs: map<Id, Spec>)

  datatype Link = Link(src: Id, dst: Id, name: Name)

  /** due: the latest time of the next beacon; setAt: when the state was last set;
      resetAt: when the member table was last cleared. */
  datatype Clock = Clock(due: int, setAt: int, resetAt: int)

  /** Process id announced ACQUIRING at t and its collision window passed undisturbed, at time `at`. */
  datatype Survival = Survival(id: Id, t: int, at: int)

  datatype State = State(
    now: int,
    alive: set<Id>,
    nodes: map<Id, Node>,
    clocks: map<Id, map<Name, Clock>>,
    net: set<Packet>,
    missed: map<Link, nat>,       // packets lost in a row, per link
    sent: set<Packet>,            // history: every packet that was put on the network
    survived: set<Survival>)      // history: every collision window that passed

  datatype Step =
    | Tick
    | Crash(id: Id)
    | Deliver(pkt: Packet, keep: bool)
    | Do(id: Id, act: Act, lost: set<(Id, Name)>)

  ghost predicate ValidConfig(c: Config) {
    && c.tm.beacon >= 1 && c.tm.sense >= 1 && c.delay >= 1 && c.burst >= 1
    && forall p :: p in c.specs ==> ValidSpec(c.specs[p])
  }

  /** The redundancy condition: the last of `burst` consecutive packets arrives before a
      collision window is over. */
  predicate Timely(c: Config)
    requires c.burst >= 1
  {
    Beacons(c.tm.beacon, c.burst - 1) + c.delay < WindowTime(c.tm)
  }

  predicate Has(c: Config, p: Id, r: Name) {
    p in c.specs && r in c.specs[p].count
  }

  ghost predicate Shape(c: Config, s: State) {
    && s.nodes.Keys == c.specs.Keys
    && s.clocks.Keys == c.specs.Keys
    && s.alive <= c.specs.Keys
    && forall p :: p in c.specs ==>
        s.nodes[p].res.Keys == c.specs[p].count.Keys && s.clocks[p].Keys == c.specs[p].count.Keys
  }

  function MissedIn(m: map<Link, nat>, p: Id, q: Id, r: Name): nat {
    if Link(p, q, r) in m then m[Link(p, q, r)] else 0
  }

  function Missed(s: State, p: Id, q: Id, r: Name): nat {
    MissedIn(s.missed, p, q, r)
  }

  ghost function Init(c: Config): (s: State)
    ensures Shape(c, s)
  {
    State(0, c.specs.Keys,
          map p | p in c.specs :: Node(Resting, map r | r in c.specs[p].count :: Res(Idle, map[])),
          map p | p in c.specs :: map r | r in c.specs[p].count :: Clock(0, 0, 0),
          {}, map[], {}, {})
  }

  // ---- steps ----

  /** Time may pass only if no packet and no beacon of a claimed resource becomes overdue. */
  ghost predicate CanTick(c: Config, s: State)
    requires Shape(c, s)
  {
    && (forall pkt :: pkt in s.net ==> s.now < pkt.sentAt + c.delay)
    && (forall p, r :: p in s.alive && Has(c, p, r) && IsClaim(s.nodes[p].res[r].state) ==> s.now < s.clocks[p][r].due)
  }

  ghost predicate CanDo(c: Config, s: State, a: Id, act: Act, lost: set<(Id, Name)>)
    requires ValidConfig(c) && Shape(c, s)
  {
    && a in s.alive
    && CanAct(c.specs[a], c.tm, s.nodes[a], act, s.now)
    && var rs := Announced(c.specs[a], c.tm, s.nodes[a], act, s.now);
       forall q, r :: (q, r) in lost ==> r in rs && Missed(s, a, q, r) + 1 < c.burst
  }

  ghost predicate Enabled(c: Config, s: State, step: Step)
    requires ValidConfig(c) && Shape(c, s)
  {
    match step
    case Tick => CanTick(c, s)
    case Crash(p) => p in s.alive
    case Deliver(pkt, _) => pkt in s.net && pkt.sentAt < s.now
    case Do(a, act, lost) => CanDo(c, s, a, act, lost)
  }

  /** The packets with which process a announces the resources rs of its node n. */
  ghost function Broadcast(c: Config, a: Id, n: Node, rs: set<Name>, lost: set<(Id, Name)>,
        now: int): (out: set<Packet>)
    requires a in c.specs && n.res.Keys == c.specs[a].count.Keys && rs <= n.res.Keys
    ensures forall pkt :: pkt in out <==>
      && pkt.src == a && pkt.dst in c.specs && pkt.dst != a && pkt.name in rs && (pkt.dst, pkt.name) !in lost
      && pkt.state == n.res[pkt.name].state && pkt.count == c.specs[a].count[pkt.name] && pkt.sentAt == now
  {
    set q, r | q in c.specs && q != a && r in rs && (q, r) !in lost ::
      Packet(a, q, r, n.res[r].state, c.specs[a].count[r], now)
  }

  ghost function NewMissed(c: Config, s: State, a: Id, rs: set<Name>, lost: set<(Id, Name)>): (m: map<Link, nat>)
    ensures forall p, q, r :: MissedIn(m, p, q, r) ==
                              (if p == a && r in rs && q in c.specs
                               then (if (q, r) in lost then Missed(s, p, q, r) + 1 else 0)
                               else Missed(s, p, q, r))
  {
    var mine := map q, r | q in c.specs && r in rs :: Link(a, q, r) :=
                   if (q, r) in lost then Missed(s, a, q, r) + 1 else 0;
    s.missed + mine
  }

  ghost function NewClock(c: Config, k: Clock, r: Name, act: Act, rs: set<Name>, now: int): Clock {
    Clock(if r in rs && (act.Beacon? || act.Announce?) then now + c.tm.beacon else k.due,
          if r in rs && !act.Beacon? then now else k.setAt,
          if r in rs && act.Reset? then now else k.resetAt)
  }

  /** A packet reaches its receiver; with `keep`, the medium holds another copy of it. */
  ghost function Receive(c: Config, s: State, pkt: Packet, keep: bool): (s': State)
    requires Shape(c, s)
    ensures Shape(c, s')
  {
    var q := pkt.dst;
    var net := if keep then s.net else s.net - {pkt};
    if q in s.alive && Has(c, q, pkt.name) && pkt.src != q then
      s.(net := net, nodes := s.nodes[q := OnPacket(c.specs[q], c.tm, s.nodes[q], pkt, s.now)])
    else
      s.(net := net)
  }

  /** Process a becomes n' by the action act and announces the resources rs; `lost` is lost. */
  ghost function Announcing(c: Config, s: State, a: Id, n': Node, rs: set<Name>, act: Act, lost: set<(Id,
        Name)>): (s': State)
    requires Shape(c, s) && a in c.specs && n'.res.Keys == c.specs[a].count.Keys && rs <= n'.res.Keys
    ensures Shape(c, s')
  {
    var out := Broadcast(c, a, n', rs, lost, s.now);
    s.(nodes := s.nodes[a := n'],
       clocks := s.clocks[a := map r | r in s.clocks[a] :: NewClock(c, s.clocks[a][r], r, act, rs, s.now)],
       net := s.net + out,
       sent := s.sent + out,
       missed := NewMissed(c, s, a, rs, lost),
       survived := if act.Expire? && s.nodes[a].phase.Window?
                   then s.survived + {Survival(a, s.nodes[a].phase.t, s.now)} else s.survived)
  }

  /** Process a takes a step of its own. */
  ghost function Acts(c: Config, s: State, a: Id, act: Act, lost: set<(Id, Name)>): (s': State)
    requires ValidConfig(c) && Shape(c, s) && CanDo(c, s, a, act, lost)
    ensures Shape(c, s')
  {
    Announcing(c, s, a, Perform(c.specs[a], c.tm, s.nodes[a], act, s.now),
               Announced(c.specs[a], c.tm, s.nodes[a], act, s.now), act, lost)
  }

  ghost function Apply(c: Config, s: State, step: Step): (s': State)
    requires ValidConfig(c) && Shape(c, s) && Enabled(c, s, step)
    ensures Shape(c, s')
  {
    match step
    case Tick => s.(now := s.now + 1)
    case Crash(p) => s.(alive := s.alive - {p})
    case Deliver(pkt, keep) => Receive(c, s, pkt, keep)
    case Do(a, act, lost) => Acts(c, s, a, act, lost)
  }

  /** The medium is free: whatever else has happened since it was sent, a packet can be delivered in any
      order, any number of times, and what is lost of an announcement is not on its way. */
  lemma MediumIsFree(c: Config, s: State, pkt: Packet, other: Packet)
    requires ValidConfig(c) && Shape(c, s) && pkt in s.net && other in s.net && pkt.sentAt < s.now
    ensures Enabled(c, s, Deliver(pkt, true)) && Enabled(c, s, Deliver(pkt, false))
    ensures var again, gone := Apply(c, s, Deliver(pkt, true)), Apply(c, s, Deliver(pkt, false));
            && again.net == s.net && again.now == s.now && again.nodes == gone.nodes
            && pkt !in gone.net && (other != pkt ==> other in gone.net)
  {
    hide OnPacket;
  }

  lemma LossIsPossible(c: Config, s: State, a: Id, r: Name, q: Id)
    requires ValidConfig(c) && Shape(c, s) && a in s.alive && Has(c, a, r) && Missed(s, a, q, r) + 1 < c.burst
    ensures Enabled(c, s, Do(a, Beacon(r), {(q, r)}))
    ensures forall pkt :: pkt in Apply(c, s, Do(a, Beacon(r), {(q, r)})).net && pkt !in s.net ==> pkt.dst != q
  {
    hide ValidSpec, NewMissed, NewClock;
  }

  // ---- runs ----

  ghost predicate NextVia(c: Config, s: State, step: Step, s': State)
    requires ValidConfig(c)
  {
    Shape(c, s) && Enabled(c, s, step) && s' == Apply(c, s, step)
  }

  ghost predicate Next(c: Config, s: State, s': State)
    requires ValidConfig(c)
  {
    exists step :: NextVia(c, s, step, s')
  }

  /** The states run[i] and run[i + 1] are joined by steps[i]. */
  ghost predicate Via(c: Config, run: seq<State>, steps: seq<Step>, i: int)
    requires ValidConfig(c)
  {
    0 <= i < |steps| && i + 1 < |run| ==> NextVia(c, run[i], steps[i], run[i + 1])
  }

  /** A sequence of states, from wherever it begins, with the steps that lead through it. */
  ghost predicate Segment(c: Config, run: seq<State>, steps: seq<Step>)
    requires ValidConfig(c)
  {
    |run| == |steps| + 1 && Shape(c, run[0]) && forall i :: Via(c, run, steps, i)
  }

  /** The step that the run takes at i. */
  ghost predicate StepAt(c: Config, run: seq<State>, i: int)
    requires ValidConfig(c)
  {
    0 <= i < |run| - 1 ==> Next(c, run[i], run[i + 1])
  }

  /** A finite run from the initial state. */
  ghost predicate IsRun(c: Config, run: seq<State>)
    requires ValidConfig(c)
  {
    && |run| > 0
    && run[0] == Init(c)
    && forall i :: StepAt(c, run, i)
  }

  ghost predicate Reachable(c: Config, s: State)
    requires ValidConfig(c)
  {
    exists run :: IsRun(c, run) && run[|run| - 1] == s
  }

  /** The live processes that hold resource r among those declaring `count` for it. */
  ghost function Holders(c: Config, s: State, r: Name, count: nat): set<Id>
    requires Shape(c, s)
  {
    set p | p in s.alive && Has(c, p, r) && c.specs[p].count[r] == count && s.nodes[p].res[r].state.Acquired?
  }
}
