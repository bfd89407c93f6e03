/** How the view of one pair of processes changes, and why (A), (B), (C) and (X) survive. */
module PairSteps {
  import opened Protocol
  import opened Network
  import opened Invariants

  /** What the one-process facts say about a pair. */
  ghost predicate PairOk(c: Config, v: Pair)
    requires ValidConfig(c)
  {
    var w := WindowTime(c.tm);
    && v.missed < c.burst
    && (IsClaim(v.pState) ==> HasT(v.pPhase))
    && (v.pAlive && IsClaim(v.pState) ==> v.now <= v.due <= v.now + c.tm.beacon)
    && (v.pState.Acquired? ==> HasT(v.pPhase) && v.pPhase.t + w <= v.now)
    && (v.pPhase.Window? ==> v.pState.Acquiring? && v.pPhase.t <= v.now)
    && (v.pPhase.Checking? ==> v.pPhase.t + w <= v.now && IsClaim(v.pState))
    && (v.qPhase.Listening? ==> v.qState.Starting? && v.qPhase.l <= v.now)
    && (v.qPhase.Window? ==> v.qState.Acquiring? && v.qPhase.l + w <= v.qPhase.t <= v.now)
    && (forall pkt :: pkt in v.link ==>
         && pkt.sentAt <= v.now <= pkt.sentAt + c.delay
         && (IsClaim(v.pState) && !IsClaim(pkt.state) ==> pkt.sentAt <= v.pPhase.t))
  }

  ghost predicate PairGood(c: Config, v: Pair)
    requires ValidConfig(c)
  {
    PairA(c, v) && PairB(c, v) && PairC(v) && PairX(v)
  }

  lemma TickPair(c: Config, v: Pair)
    requires ValidConfig(c) && PairOk(c, v) && PairGood(c, v)
    ensures PairGood(c, v.(now := v.now + 1))
  {
  }

  // ---- q or p receives a packet ----

  /** v' is v after packet pkt was delivered to somebody. */
  ghost predicate Received(v: Pair, pkt: Packet, onLink: bool, v': Pair) {
    && v' == v.(pPhase := v'.pPhase, qPhase := v'.qPhase, knows := v'.knows, link := v'.link)
    && (v'.pPhase == v.pPhase || v'.pPhase.Resting? || v'.pPhase.LongListen?
        || (v.pPhase.Window? && v'.pPhase == Resetting(v.pPhase.l, v.pPhase.t, 0)))
    && (v'.qPhase == v.qPhase || v'.qPhase.Resting? || v'.qPhase.LongListen? || v'.qPhase.Resetting?)
    && v.link - {pkt} <= v'.link <= v.link
    && (onLink ==> pkt in v.link)
    && (!onLink ==> v'.knows == v.knows && pkt !in v.link)
    && (onLink && v.qAlive && v.sameCount && !v.qState.Idle? ==> v'.knows == pkt.state.Acquired?)
    && (onLink && v.qAlive && pkt.state.Acquiring? ==> !Trying(v'.qPhase))
  }

  lemma ReceivePair(c: Config, v: Pair, pkt: Packet, onLink: bool, v': Pair)
    requires ValidConfig(c) && Timely(c) && PairOk(c, v) && PairGood(c, v)
    requires Received(v, pkt, onLink, v') && pkt.sentAt < v.now
    ensures PairGood(c, v')
  {
    TimelyFacts(c);
    forall x | x in v.link && x != pkt ensures x in v'.link {
      assert x in v.link - {pkt};
    }
  }

  // ---- p acts ----

  /** p announces a state to q: the packet is on the link, or it is lost and counted. */
  ghost predicate Told(c: Config, v: Pair, st: LockState, v': Pair) {
    || (v'.missed == v.missed + 1 && v'.missed < c.burst && v'.link == v.link)
    || (v'.missed == 0 && exists pkt ::
         v'.link == v.link + {pkt} && pkt.state == st && pkt.sentAt == v.now)
  }

  lemma BeaconPair(c: Config, v: Pair, v': Pair)
    requires ValidConfig(c) && Timely(c) && PairOk(c, v) && PairGood(c, v)
    requires Told(c, v, v.pState, v') && v' == v.(due := v.now + c.tm.beacon, missed := v'.missed, link := v'.link)
    ensures PairGood(c, v')
  {
    TimelyFacts(c);
    BeaconsMonotone(c.tm.beacon, v.missed, c.burst - 1);
    if v'.link != v.link {
      var pkt :| v'.link == v.link + {pkt} && pkt.state == v.pState && pkt.sentAt == v.now;
      assert pkt in v'.link;
    }
    BeaconsMonotone(c.tm.beacon, 0, v'.missed);
  }

  lemma AnnouncePair(c: Config, v: Pair, v': Pair)
    requires ValidConfig(c) && Timely(c) && PairOk(c, v) && PairGood(c, v)
    requires Told(c, v, Acquiring, v') && v.pPhase.Listening?
    requires v' == v.(due := v.now + c.tm.beacon, missed := v'.missed, link := v'.link,
                      pPhase := Window(v.pPhase.l, v.now), pState := Acquiring)
    ensures PairGood(c, v')
  {
    TimelyFacts(c);
    if v'.link != v.link {
      var pkt :| v'.link == v.link + {pkt} && pkt.state == Acquiring && pkt.sentAt == v.now;
      assert pkt in v'.link;
    }
    BeaconsMonotone(c.tm.beacon, 0, c.burst - 1);
    if v'.missed >= 1 {
      BeaconsMonotone(c.tm.beacon, 1, v'.missed);
      assert Lag(c, 1) == c.tm.beacon;
    }
  }

  /** p commits r: ACQUIRING becomes ACQUIRED. */
  lemma CommitPair(c: Config, v: Pair, v': Pair)
    requires ValidConfig(c) && Timely(c) && PairOk(c, v) && PairGood(c, v)
    requires Told(c, v, Acquired, v') && CheckingFor(v.pAlive, v.pPhase, v.pState)
    requires HasT(v'.pPhase) && v'.pPhase.t == v.pPhase.t && !v'.pPhase.Window?
    requires v' == v.(missed := v'.missed, link := v'.link, pPhase := v'.pPhase, pState := Acquired)
    ensures PairGood(c, v')
  {
    TimelyFacts(c);
    BeaconsMonotone(c.tm.beacon, v.missed, c.burst - 1);
    if v'.link != v.link {
      var pkt :| v'.link == v.link + {pkt} && pkt.state == Acquired && pkt.sentAt == v.now;
      assert pkt in v'.link;
    }
  }

  /** p moves on without touching a claim on r: it expires, checks another resource, or fails. */
  lemma MoveOnPair(c: Config, v: Pair, v': Pair)
    requires ValidConfig(c) && PairOk(c, v) && PairGood(c, v)
    requires v' == v.(pPhase := v'.pPhase) && !v'.pPhase.Window?
    requires HasT(v.pPhase) && HasT(v'.pPhase) && v'.pPhase.t == v.pPhase.t
    requires CheckingFor(v'.pAlive, v'.pPhase, v'.pState) ==> !CheckingFor(v.qAlive, v.qPhase, v.qState)
    ensures PairGood(c, v')
  {
  }

  /** p ends without a claim on r. */
  lemma UnclaimPair(c: Config, v: Pair, v': Pair)
    requires ValidConfig(c) && !IsClaim(v'.pState) && !v'.pPhase.Window?
    ensures PairGood(c, v')
  {
  }

  // ---- q acts ----

  lemma ListenPair(c: Config, v: Pair, v': Pair)
    requires ValidConfig(c) && PairOk(c, v) && PairGood(c, v)
    requires v' == v.(qPhase := Listening(v.now), qState := Starting)
    ensures PairGood(c, v')
  {
    if Claims(v) && v.now > v.pPhase.t && !Doomed(c, v', v.now) {
      BeaconsMonotone(c.tm.beacon, 0, c.burst);
      BeaconsMonotone(c.tm.beacon, 1, v.missed + 1);
      assert Lag(c, 1) == c.tm.beacon;
    }
  }

  lemma AnnounceByQPair(c: Config, v: Pair, v': Pair)
    requires ValidConfig(c) && PairOk(c, v) && PairGood(c, v) && v.qPhase.Listening?
    requires v' == v.(qPhase := Window(v.qPhase.l, v.now), qState := Acquiring)
    ensures PairGood(c, v')
  {
  }

  /** q's window passes: p is not at its own check, and if it holds, q knows. */
  lemma ExpireByQPair(c: Config, v: Pair, v': Pair)
    requires ValidConfig(c) && Timely(c) && PairOk(c, v) && PairGood(c, v)
    requires v.qAlive && v.qPhase.Window? && v.now >= v.qPhase.t + WindowTime(c.tm)
    requires v' == v.(qPhase := v'.qPhase) && !Trying(v'.qPhase)
    requires v.pAlive && (v.pPhase.Checking? || v.pState.Acquired?) ==> v.qPhase.l > v.pPhase.t
    ensures PairGood(c, v')
    ensures !CheckingFor(v.pAlive, v.pPhase, v.pState)
  {
    TimelyFacts(c);
    if v.pAlive && (v.pPhase.Checking? || v.pState.Acquired?) {
      var l := v.qPhase.l;
      assert l + 2 * WindowTime(c.tm) <= v.now;
      BeaconsMonotone(c.tm.beacon, v.missed + 1, c.burst);
      assert !Doomed(c, v, l);
      assert !News(c, v, l);
    }
  }

  /** q leaves the check of r, or was not at it. */
  lemma QLeavesPair(c: Config, v: Pair, v': Pair)
    requires ValidConfig(c) && PairOk(c, v) && PairGood(c, v)
    requires v' == v.(qPhase := v'.qPhase, qState := v'.qState, knows := v'.knows)
    requires !Trying(v'.qPhase)
    requires CheckingFor(v'.qAlive, v'.qPhase, v'.qState) ==>
               CheckingFor(v.qAlive, v.qPhase, v.qState) && v'.knows == v.knows
    ensures PairGood(c, v')
  {
  }

  /** Nobody who started before p's announcement is still trying when p's window is over. */
  lemma AloneAtExpiry(c: Config, v: Pair)
    requires ValidConfig(c) && Timely(c) && PairOk(c, v) && PairA(c, v)
    requires v.pAlive && v.pPhase.Window? && v.now >= v.pPhase.t + WindowTime(c.tm)
    ensures Attempt(v) ==> v.qPhase.l > v.pPhase.t
  {
    TimelyFacts(c);
    BeaconsMonotone(c.tm.beacon, v.missed, c.burst - 1);
  }
}
