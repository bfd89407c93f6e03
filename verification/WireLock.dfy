/** The lock's announcements on the wire: a receiver decodes the packet of module Protocol that
    was announced. */
module WireLock {
  import opened Protocol
  import opened LockSpec
  import Wire

  /** The state's number in the packet. */
  function StateByte(st: LockState): Wire.Byte {
    match st
    case Idle => 0
    case Starting => 1
    case Acquiring => 2
    case Acquired => 3
    case Released => 4
    case Querying => 5
  }

  function StateOf(b: Wire.Byte): Wire.Option<LockState> {
    if b == 0 then Wire.Some(Idle)
    else if b == 1 then Wire.Some(Starting)
    else if b == 2 then Wire.Some(Acquiring)
    else if b == 3 then Wire.Some(Acquired)
    else if b == 4 then Wire.Some(Released)
    else if b == 5 then Wire.Some(Querying)
    else Wire.None
  }

  /** Names are byte strings. */
  predicate ByteName(name: Name) {
    forall i :: 0 <= i < |name| ==> name[i] as int < 256
  }

  function Bytes(name: Name): (t: Wire.Text)
    requires ByteName(name)
    ensures |t| == |name| && forall i :: 0 <= i < |name| ==> t[i] == name[i] as int
  {
    seq(|name|, i requires 0 <= i < |name| => name[i] as int)
  }

  function Chars(t: Wire.Text): (name: Name)
    ensures |name| == |t| && forall i :: 0 <= i < |t| ==> name[i] as int == t[i]
  {
    seq(|t|, i requires 0 <= i < |t| => t[i] as char)
  }

  /** What `sendBeacon` puts into a packet. */
  function MessageOf(id: Id, a: Announcement): Wire.Message
    requires id < 0x1_0000_0000 && a.count < 0x1_0000_0000 && ByteName(a.name)
  {
    Wire.Message(StateByte(a.state), id, a.count, 0, Bytes(a.name))
  }

  /** The packet a receiver decodes, if the state number is one of the six. */
  function PacketOf(m: Wire.Message, me: Id, sentAt: int): Wire.Option<Packet> {
    match StateOf(m.state)
    case None => Wire.None
    case Some(st) => Wire.Some(Packet(m.memberId, me, Chars(m.resource), st, m.count, sentAt))
  }

  /** The states as bytes: their order in the protocol, from 0 on. */
  const STATES: seq<LockState> := [Idle, Starting, Acquiring, Acquired, Released, Querying]

  /** Where an announcement is found in the bytes that go out: its state by number, the sender, the count,
      no options, and its name with a NUL if it fits. */
  lemma AnnouncedBytes(id: Id, a: Announcement)
    requires id < 0x1_0000_0000 && a.count < 0x1_0000_0000 && ByteName(a.name)
    ensures var b := Wire.Encode(MessageOf(id, a));
            && |b| >= 11 && b[0] < 6 && STATES[b[0]] == a.state
            && Wire.NumberAt(b, 1) == id && Wire.NumberAt(b, 5) == a.count && b[9] == 0
            && (|a.name| <= 64 ==>
                 |b| == 11 + |a.name| && b[10..10 + |a.name|] == Bytes(a.name) && b[10 + |a.name|] == 0)
  {
    Wire.Layout(MessageOf(id, a));
    hide Wire.NumberAt, Wire.BigEndian;
  }

  predicate FitsOnWire(name: Name) {
    |name| <= 64 && forall i :: 0 <= i < |name| ==> name[i] as int != 0
  }

  lemma NameFitsIff(name: Name)
    requires ByteName(name)
    ensures Chars(Wire.Received(Bytes(name))) == name <==> FitsOnWire(name)
  {
    var t := Bytes(name);
    Wire.NameArrivesIff(t);
    assert Chars(t) == name;
    if Chars(Wire.Received(t)) == name {
      assert Wire.Received(t) == t;
    }
    assert 0 !in t <==> forall i :: 0 <= i < |name| ==> name[i] as int != 0;
  }

  /** An announcement is decoded as exactly the packet that was announced if and only if its name
      has at most 64 bytes and no NUL. */
  lemma DecodedAsAnnounced(id: Id, a: Announcement, me: Id, sentAt: int)
    requires id < 0x1_0000_0000 && a.count < 0x1_0000_0000 && ByteName(a.name)
    ensures var bytes := Wire.Encode(MessageOf(id, a));
            && Wire.Readable(bytes)
            && (PacketOf(Wire.Decode(bytes), me, sentAt) == Wire.Some(Packet(id, me, a.name, a.state, a.count, sentAt))
                <==> FitsOnWire(a.name))
  {
    Wire.RoundTrip(MessageOf(id, a));
    NameFitsIff(a.name);
  }
}
