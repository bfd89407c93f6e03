/** The wire format of an announcement: a byte buffer written at its end and read through a
    cursor, and the encoding and decoding of a lock packet with its bounded name field. */
module Wire {
  datatype Option<T> = None | Some(value: T)

  type Byte = b: int | 0 <= b < 256
  type Word = w: int | 0 <= w < 0x1_0000_0000
  type Text = seq<Byte>

  const RES_BUFF := 64

  // ---- words ----

  function BigEndian(w: Word): seq<Byte> {
    [w / 0x100_0000, w / 0x1_0000 % 256, w / 256 % 256, w % 256]
  }

  function FromBytes(a: Byte, b: Byte, c: Byte, d: Byte): Word {
    a * 0x100_0000 + b * 0x1_0000 + c * 256 + d
  }

  lemma WordRoundTrip(w: Word)
    ensures var s := BigEndian(w); FromBytes(s[0], s[1], s[2], s[3]) == w
  {
    assert w / 0x1_0000 == w / 256 / 256 && w / 0x100_0000 == w / 0x1_0000 / 256;
  }

  /** A byte buffer: writers append and rewind the cursor, readers advance it. */
  class Packet {
    var buffer: seq<Byte>
    var it: nat

    constructor (bytes: seq<Byte>)
      ensures buffer == bytes && it == 0
    {
      buffer, it := bytes, 0;
    }

    method Begin()
      modifies this`it
      ensures it == 0
    {
      it := 0;
    }

    method Clear()
      modifies this`buffer
      ensures buffer == []
    {
      buffer := [];
    }

    method PutByte(data: Byte)
      modifies this
      ensures buffer == old(buffer) + [data] && it == 0
    {
      buffer := buffer + [data];
      it := 0;
    }

    method PutWord(data: Word)
      modifies this
      ensures buffer == old(buffer) + BigEndian(data) && it == 0
    {
      PutByte(data / 0x100_0000 % 256);
      PutByte(data / 0x1_0000 % 256);
      PutByte(data / 256 % 256);
      PutByte(data % 256);
    }

    /** Nothing checks that there is a byte left: the caller must know. */
    method GetByte() returns (data: Byte)
      requires it < |buffer|
      modifies this`it
      ensures it == old(it) + 1 && data == buffer[old(it)]
    {
      data := buffer[it];
      it := it + 1;
    }

    method GetWord() returns (data: Word)
      requires it + 4 <= |buffer|
      modifies this`it
      ensures it == old(it) + 4
      ensures data == FromBytes(buffer[old(it)], buffer[old(it) + 1], buffer[old(it) + 2], buffer[old(it) + 3])
    {
      var b1 := GetByte();
      var b2 := GetByte();
      var b3 := GetByte();
      var b4 := GetByte();
      data := FromBytes(b1, b2, b3, b4);
    }
  }

  // ---- the name field ----

  /** A C string ends at its first NUL. */
  function CutAtNul(s: Text): (t: Text) {
    if |s| == 0 || s[0] == 0 then [] else [s[0]] + CutAtNul(s[1..])
  }

  function First(s: Text, n: nat): Text {
    if |s| <= n then s else s[..n]
  }

  /** What a receiver makes of a name. */
  function Received(name: Text): Text {
    CutAtNul(First(name, RES_BUFF))
  }

  /** How a name is written: its first 64 bytes alone, or all of it with a terminator. */
  function NameField(name: Text): seq<Byte> {
    if |name| > RES_BUFF then name[..RES_BUFF] else name + [0]
  }

  /** The name read from the bytes, at most n of them, up to and including a NUL, and what
      follows; None when the reader runs past the end. */
  function ReadName(bytes: seq<Byte>, n: nat): Option<(Text, seq<Byte>)> {
    if n == 0 then Some(([], bytes))
    else if |bytes| == 0 then None
    else if bytes[0] == 0 then Some(([0], bytes[1..]))
    else match ReadName(bytes[1..], n - 1)
      case None => None
      case Some((t, rest)) => Some(([bytes[0]] + t, rest))
  }

  /** The reader stays inside the bytes exactly when there are n of them or one of them is NUL. */
  lemma {:induction false} ReadNameIff(bytes: seq<Byte>, n: nat)
    ensures ReadName(bytes, n).Some? <==> |bytes| >= n || exists i :: 0 <= i < |bytes| && bytes[i] == 0
  {
    if n > 0 && |bytes| > 0 && bytes[0] != 0 {
      ReadNameIff(bytes[1..], n - 1);
      assert forall i :: 0 < i < |bytes| ==> bytes[i] == bytes[1..][i - 1];
      assert forall i :: 0 <= i < |bytes[1..]| ==> bytes[1..][i] == bytes[i + 1];
    }
  }

  /** Reading a name back: what remains of it is the name cut to n bytes and then at its first NUL. */
  lemma {:induction false} NameRead(name: Text, n: nat, tail: seq<Byte>)
    requires |name| >= n || (|tail| > 0 && tail[0] == 0)
    ensures var r := ReadName(name + tail, n);
            r.Some? && CutAtNul(r.value.0) == CutAtNul(First(name, n))
                && |name + tail| - |r.value.1| == |r.value.0| <= n
  {
    var bytes := name + tail;
    if n == 0 {
      assert First(name, 0) == [];
    } else if |name| == 0 {
      assert bytes == tail && First(name, n) == [];
      assert CutAtNul([0]) == [];
    } else if name[0] == 0 {
      assert CutAtNul([0]) == [];
    } else {
      assert bytes[1..] == name[1..] + tail && bytes[0] == name[0];
      NameRead(name[1..], n - 1, tail);
      var t := ReadName(bytes[1..], n - 1).value.0;
      assert ([bytes[0]] + t)[1..] == t;
      assert First(name, n)[1..] == First(name[1..], n - 1);
    }
  }

  lemma {:induction false} CutIs(s: Text)
    ensures var t := CutAtNul(s);
            && t <= s && 0 !in t && (|t| == |s| || s[|t|] == 0)
  {
    if |s| > 0 && s[0] != 0 {
      CutIs(s[1..]);
    }
  }

  // ---- messages ----

  datatype Message = Message(state: Byte, memberId: Word, count: Word, options: Byte, resource: Text)

  function Encode(m: Message): seq<Byte> {
    [m.state] + BigEndian(m.memberId) + BigEndian(m.count) + [m.options] + NameField(m.resource)
  }

  /** The bytes a decoder may be given without reading past their end. */
  predicate Readable(bytes: seq<Byte>) {
    |bytes| >= 10 && ReadName(bytes[10..], RES_BUFF).Some?
  }

  function Decode(bytes: seq<Byte>): Message
    requires Readable(bytes)
  {
    Message(bytes[0],
            FromBytes(bytes[1], bytes[2], bytes[3], bytes[4]),
            FromBytes(bytes[5], bytes[6], bytes[7], bytes[8]),
            bytes[9],
            CutAtNul(ReadName(bytes[10..], RES_BUFF).value.0))
  }

  /** The decoder stays inside what it was given exactly when the name field is full or terminated. */
  lemma ReadableIff(bytes: seq<Byte>)
    ensures Readable(bytes) <==>
              |bytes| >= 10 && (|bytes| >= 74 || exists i :: 10 <= i < |bytes| && bytes[i] == 0)
  {
    if |bytes| >= 10 {
      var field := bytes[10..];
      ReadNameIff(field, RES_BUFF);
      assert forall i :: 10 <= i < |bytes| ==> bytes[i] == field[i - 10];
      assert forall i :: 0 <= i < |field| ==> field[i] == bytes[i + 10];
    }
  }

  lemma EncodedFields(m: Message)
    ensures var b := Encode(m);
            && |b| == 10 + |NameField(m.resource)| && b[0] == m.state && b[9] == m.options
            && b[1..5] == BigEndian(m.memberId) && b[5..9] == BigEndian(m.count) && b[10..] == NameField(m.resource)
  {
  }

  /** Round trip: every field comes back, and the name cut to its first 64 bytes and then at its
      first NUL. The decoder does not read past the end of what was written. */
  lemma RoundTrip(m: Message)
    ensures Readable(Encode(m))
    ensures Decode(Encode(m)) == m.(resource := Received(m.resource))
  {
    var b, name := Encode(m), m.resource;
    EncodedFields(m);
    WordRoundTrip(m.memberId);
    WordRoundTrip(m.count);
    var field := NameField(name);
    if |name| > RES_BUFF {
      assert field == field + [] && First(field, RES_BUFF) == field;
      NameRead(field, RES_BUFF, []);
    } else {
      NameRead(name, RES_BUFF, [0]);
    }
    assert b[1] == b[1..5][0] && b[2] == b[1..5][1] && b[3] == b[1..5][2] && b[4] == b[1..5][3];
    assert b[5] == b[5..9][0] && b[6] == b[5..9][1] && b[7] == b[5..9][2] && b[8] == b[5..9][3];
  }

  /** A name arrives unchanged exactly when it has at most 64 bytes and no NUL. */
  lemma NameArrivesIff(name: Text)
    ensures Received(name) == name <==> |name| <= 64 && 0 !in name
  {
    CutIs(First(name, RES_BUFF));
  }

  /** An announcement reaches the receiver's resource of exactly that name, when both names are fit for it. */
  lemma RoutesExactly(m: Message, mine: Text)
    requires |m.resource| <= 64 && 0 !in m.resource
    ensures Readable(Encode(m)) && (Decode(Encode(m)).resource == mine <==> m.resource == mine)
  {
    RoundTrip(m);
    NameArrivesIff(m.resource);
  }

  /** Names that are too long are confused when they begin alike. */
  lemma LongNamesConfused(a: Text, b: Text)
    requires |a| >= 64 && |b| >= 64 && a[..64] == b[..64]
    ensures Received(a) == Received(b)
  {
    assert First(a, RES_BUFF) == a[..RES_BUFF] && First(b, RES_BUFF) == b[..RES_BUFF];
  }

  /** What a receiver makes of a name: its part before the first NUL, of its first 64 bytes. */
  lemma ReceivedIs(name: Text)
    ensures var t := Received(name);
            && |t| <= 64 && t <= name && 0 !in t && (|t| == |name| || |t| == 64 || name[|t|] == 0)
  {
    CutIs(First(name, RES_BUFF));
  }

  /** The number that four bytes from i on stand for, the most significant byte first. */
  function NumberAt(bytes: seq<Byte>, i: nat): int
    requires i + 4 <= |bytes|
  {
    bytes[i] as int * 0x100_0000 + bytes[i + 1] as int * 0x1_0000 + bytes[i + 2] as int * 0x100 + bytes[i + 3] as int
  }

  /** Where every byte of a packet is: the state, the id and the count most significant byte first, the
      options, and the name: of at most 64 bytes whole and with one NUL, of more its first 64 bytes. */
  lemma Layout(m: Message)
    ensures var b := Encode(m);
            && |b| == 10 + (if |m.resource| <= 64 then |m.resource| + 1 else 64)
            && b[0] == m.state && NumberAt(b, 1) == m.memberId && NumberAt(b, 5) == m.count && b[9] == m.options
            && (|m.resource| <= 64 ==> b[10..10 + |m.resource|] == m.resource && b[10 + |m.resource|] == 0)
            && (|m.resource| > 64 ==> b[10..] == m.resource[..64])
  {
    var b := Encode(m);
    EncodedFields(m);
    WordRoundTrip(m.memberId);
    WordRoundTrip(m.count);
    assert b[1] == b[1..5][0] && b[2] == b[1..5][1] && b[3] == b[1..5][2] && b[4] == b[1..5][3];
    assert b[5] == b[5..9][0] && b[6] == b[5..9][1] && b[7] == b[5..9][2] && b[8] == b[5..9][3];
    hide BigEndian;
    var field := b[10..];
    if |m.resource| <= 64 {
      assert b[10..10 + |m.resource|] == field[..|m.resource|] && b[10 + |m.resource|] == field[|m.resource|];
    }
  }

  /** What is read from the bytes of a datagram, byte for byte. */
  lemma DecodedFields(bytes: seq<Byte>)
    requires Readable(bytes)
    ensures var m := Decode(bytes);
            && m.state == bytes[0] && m.memberId == NumberAt(bytes, 1) && m.count == NumberAt(bytes, 5)
            && m.options == bytes[9] && m.resource == Received(bytes[10..])
  {
    ReadIsReceived(bytes[10..], RES_BUFF);
  }

  /** The reader of a name gets what a receiver makes of the bytes. */
  lemma {:induction false} ReadIsReceived(bytes: seq<Byte>, n: nat)
    requires ReadName(bytes, n).Some?
    ensures CutAtNul(ReadName(bytes, n).value.0) == CutAtNul(First(bytes, n))
  {
    if n > 0 && |bytes| > 0 && bytes[0] != 0 {
      ReadIsReceived(bytes[1..], n - 1);
      var t := ReadName(bytes[1..], n - 1).value.0;
      assert ([bytes[0]] + t)[1..] == t && First(bytes, n)[1..] == First(bytes[1..], n - 1);
    } else if n > 0 && |bytes| > 0 {
      assert First(bytes, n)[0] == 0;
    }
  }

  /** The packet as an object: fields, setters, and the buffer it is built into or decoded from. */
  class DLPacket {
    const packet: Packet
    var state: Byte
    var memberId: Word
    var options: Byte
    var count: Word
    var resource: Text

    function Fields(): Message
      reads this
    {
      Message(state, memberId, count, options, resource)
    }

    constructor (state: Byte, memberId: Word)
      ensures fresh(packet) && Fields() == Message(state, memberId, 1, 0, [])
    {
      this.state, this.memberId, options, count, resource := state, memberId, 0, 1, [];
      packet := new Packet([]);
    }

    method SetResource(res: Text)
      modifies this`resource
      ensures resource == res
    {
      resource := res;
    }

    method SetCount(c: Word)
      modifies this`count
      ensures count == c
    {
      count := c;
    }

    /** The byte of a C++ string at i: NUL at its length. */
    function At(i: nat): Byte
      reads this
      requires i <= |resource|
    {
      if i == |resource| then 0 else resource[i]
    }

    method Build()
      modifies packet
      ensures packet.buffer == Encode(Fields())
    {
      packet.Clear();
      packet.PutByte(state);
      packet.PutWord(memberId);
      packet.PutWord(count);
      packet.PutByte(options);
      ghost var head := packet.buffer;
      var n := if |resource| > RES_BUFF then RES_BUFF else |resource| + 1;
      var i := 0;
      while i < n
        invariant 0 <= i <= n
        invariant packet.buffer == head + NameField(resource)[..i]
      {
        packet.PutByte(At(i));
        i := i + 1;
        assert NameField(resource)[..i] == NameField(resource)[..i - 1] + [NameField(resource)[i - 1]];
      }
      assert NameField(resource)[..i] == NameField(resource);
    }

    /** The bytes that are sent. */
    method ToByte() returns (bytes: seq<Byte>)
      modifies packet
      ensures bytes == Encode(Fields())
    {
      Build();
      bytes := packet.buffer;
    }

    constructor Decoded(p: Packet, m: Message)
      ensures packet == p && Fields() == m
    {
      packet := p;
      state, memberId, count, options, resource := m.state, m.memberId, m.count, m.options, m.resource;
    }

    /** Decode a datagram that was received. The source reads on past the end of a datagram whose
        header is short or whose name is neither full nor terminated; null stands for that. */
    static method FromDatagram(bytes: seq<Byte>) returns (r: DLPacket?)
      ensures r == null <==> !Readable(bytes)
      ensures r != null ==> fresh(r) && fresh(r.packet) && r.packet.buffer == bytes && r.Fields() == Decode(bytes)
    {
      var p := new Packet(bytes);
      p.Begin();
      if |bytes| < 10 {
        return null;
      }
      var st := p.GetByte();
      var id := p.GetWord();
      var c := p.GetWord();
      var opts := p.GetByte();
      var inside, res := ReadResource(p);
      if !inside {
        return null;
      }
      r := new DLPacket.Decoded(p, Message(st, id, c, opts, res));
    }
  }

  /** Read the name: at most 64 bytes, up to the first NUL; inside tells whether the reader stayed
      inside the buffer. */
  method ReadResource(p: Packet) returns (inside: bool, res: Text)
    requires p.it <= |p.buffer|
    modifies p`it
    ensures p.it <= |p.buffer|
    ensures inside <==> ReadName(old(p.buffer[p.it..]), RES_BUFF).Some?
    ensures inside ==> var r := ReadName(old(p.buffer[p.it..]), RES_BUFF).value;
                       res == CutAtNul(r.0) && p.buffer[p.it..] == r.1
  {
    ghost var whole := ReadName(p.buffer[p.it..], RES_BUFF);
    assert whole.Some? ==> [] + whole.value.0 == whole.value.0;
    var read: Text := [];
    var i := 0;
    var done := false;
    while i < RES_BUFF && !done
      invariant 0 <= i <= RES_BUFF && p.it <= |p.buffer|
      invariant !done ==> whole == After(read, ReadName(p.buffer[p.it..], RES_BUFF - i))
      invariant done ==> whole == Some((read, p.buffer[p.it..]))
      decreases RES_BUFF - i, !done
    {
      ghost var before := p.buffer[p.it..];
      if p.it == |p.buffer| {
        return false, [];
      }
      var byte := p.GetByte();
      assert before[1..] == p.buffer[p.it..] && before[0] == byte;
      AfterMore(read, byte, ReadName(p.buffer[p.it..], RES_BUFF - i - 1));
      assert read + [0] == read + ([0] + []);
      read := read + [byte];
      if byte == 0 {
        done := true;
      } else {
        i := i + 1;
      }
    }
    assert !done ==> ReadName(p.buffer[p.it..], 0) == Some(([], p.buffer[p.it..]));
    assert read + [] == read;
    inside, res := true, CutAtNul(read);
  }

  /** What a read gives when `read` has been read before. */
  function After(read: Text, r: Option<(Text, seq<Byte>)>): Option<(Text, seq<Byte>)> {
    match r
    case None => None
    case Some((t, rest)) => Some((read + t, rest))
  }

  lemma AfterMore(read: Text, byte: Byte, r: Option<(Text, seq<Byte>)>)
    ensures After(read + [byte], r) == After(read, After([byte], r))
  {
    if r.Some? {
      assert (read + [byte]) + r.value.0 == read + ([byte] + r.value.0);
    }
  }
}
