/** Resource specifications on the command line: `name` or `name:count`, and how the resources
    that were acquired are rendered for the command that runs under the lock. */
module ResourceSpec {
  import S = Strings
  import T = Tokenizer

  // ---- decimal numbers ----

  predicate IsDigit(c: char) {
    '0' <= c <= '9'
  }

  predicate IsSpace(c: char) {
    c == ' ' || 9 <= c as int <= 13
  }

  /** The digits at the front of s, read on from acc. */
  function Number(s: string, acc: nat): nat {
    if |s| > 0 && IsDigit(s[0]) then Number(s[1..], 10 * acc + (s[0] as int - '0' as int)) else acc
  }

  /** The C function `atoi`: white space, a sign, digits; 0 when there are none. */
  function Atoi(s: string): int {
    if |s| == 0 then 0
    else if IsSpace(s[0]) then Atoi(s[1..])
    else if s[0] == '-' then 0 - Number(s[1..], 0)
    else if s[0] == '+' then Number(s[1..], 0)
    else Number(s, 0)
  }

  function Digit(d: nat): (c: char)
    requires d < 10
    ensures IsDigit(c) && c as int - '0' as int == d
  {
    (d + '0' as int) as char
  }

  /** The number in decimal, as `to_string` prints it. */
  function Decimal(n: nat): (s: string)
    ensures |s| > 0 && forall c :: c in s ==> IsDigit(c)
  {
    if n < 10 then [Digit(n)] else Decimal(n / 10) + [Digit(n % 10)]
  }

  const INT_MAX := 0x7fff_ffff

  /** An `int`; the value that an unsigned count has as an `int`. */
  predicate IsInt(n: int) {
    -INT_MAX - 1 <= n <= INT_MAX
  }

  function AsInt(count: nat): int {
    if count <= INT_MAX then count else count - 0x1_0000_0000
  }

  function ToString(n: int): string {
    if n < 0 then "-" + Decimal(-n) else Decimal(n)
  }

  lemma {:induction false} NumberAppend(a: string, d: char, acc: nat)
    requires IsDigit(d) && forall c :: c in a ==> IsDigit(c)
    ensures Number(a + [d], acc) == 10 * Number(a, acc) + (d as int - '0' as int)
  {
    if |a| == 0 {
      assert a + [d] == [d] && [d][1..] == [];
    } else {
      assert (a + [d])[1..] == a[1..] + [d] && a[0] in a;
      NumberAppend(a[1..], d, 10 * acc + (a[0] as int - '0' as int));
    }
  }

  lemma {:induction false} NumberOfDecimal(n: nat)
    ensures Number(Decimal(n), 0) == n
  {
    if n < 10 {
      assert [Digit(n)][1..] == [];
    } else {
      NumberOfDecimal(n / 10);
      NumberAppend(Decimal(n / 10), Digit(n % 10), 0);
    }
  }

  /** Printing a number and reading it again. */
  lemma AtoiOfPrinted(n: int)
    ensures Atoi(ToString(n)) == n
  {
    var digits := Decimal(if n < 0 then -n else n);
    NumberOfDecimal(if n < 0 then -n else n);
    assert digits[0] in digits;
    if n < 0 {
      assert ToString(n)[1..] == digits;
    }
  }

  /** It is printed without leading zeros, and with a sign only if it is negative. */
  lemma {:induction false} DecimalForm(n: nat)
    ensures Decimal(n)[0] == '0' ==> n == 0
  {
    if n >= 10 {
      DecimalForm(n / 10);
    }
  }

  lemma PrintedForm(n: int)
    ensures var s := ToString(n);
            && (forall i :: (if n < 0 then 1 else 0) <= i < |s| ==> IsDigit(s[i]))
            && (n < 0 ==> |s| > 1 && s[0] == '-' && s[1] != '0') && (n > 0 ==> s[0] != '0') && (n == 0 ==> s == "0")
  {
    DecimalForm(if n < 0 then -n else n);
    if n < 0 {
      assert forall i :: 1 <= i < |ToString(n)| ==> ToString(n)[i] == Decimal(-n)[i - 1];
    }
  }

  /** The `int` that an unsigned count becomes is the same number modulo 2^32. */
  lemma AsIntIs(count: nat)
    requires count < 0x1_0000_0000
    ensures -0x8000_0000 <= AsInt(count) <= 0x7fff_ffff && (count - AsInt(count)) % 0x1_0000_0000 == 0
  {
  }

  lemma {:induction false} NumberStops(a: string, tail: string, acc: nat)
    requires (forall c :: c in a ==> IsDigit(c)) && (|tail| > 0 ==> !IsDigit(tail[0]))
    ensures Number(a + tail, acc) == Number(a, acc)
  {
    if |a| == 0 {
      assert a + tail == tail;
    } else {
      assert (a + tail)[1..] == a[1..] + tail && a[0] in a;
      NumberStops(a[1..], tail, 10 * acc + (a[0] as int - '0' as int));
    }
  }

  lemma {:induction false} SpacesSkipped(space: string, s: string)
    requires forall c :: c in space ==> IsSpace(c)
    ensures Atoi(space + s) == Atoi(s)
  {
    if |space| == 0 {
      assert space + s == s;
    } else {
      assert (space + s)[1..] == space[1..] + s && space[0] in space;
      SpacesSkipped(space[1..], s);
    }
  }

  /** Reading a number: white space in front and anything behind it are ignored, a sign is obeyed. */
  lemma AtoiReads(space: string, n: nat, tail: string)
    requires (forall c :: c in space ==> c == ' ' || '\t' <= c <= '\r') && (|tail| > 0 ==> !IsDigit(tail[0]))
    ensures Atoi(space + (Decimal(n) + tail)) == n
    ensures Atoi(space + ("+" + (Decimal(n) + tail))) == n
    ensures Atoi(space + ("-" + (Decimal(n) + tail))) == 0 - n as int
  {
    var s := Decimal(n) + tail;
    SpacesSkipped(space, s);
    SpacesSkipped(space, "+" + s);
    SpacesSkipped(space, "-" + s);
    NumberStops(Decimal(n), tail, 0);
    NumberOfDecimal(n);
    assert ("+" + s)[1..] == s && ("-" + s)[1..] == s;
    assert s[0] == Decimal(n)[0] && Decimal(n)[0] in Decimal(n);
  }

  /** Without a number it reads 0. */
  lemma AtoiOfOther(space: string, s: string)
    requires forall c :: c in space ==> c == ' ' || '\t' <= c <= '\r'
    requires |s| > 0 ==> !IsDigit(s[0]) && !IsSpace(s[0])
    requires |s| > 1 && (s[0] == '-' || s[0] == '+') ==> !IsDigit(s[1])
    ensures Atoi(space + s) == 0
  {
    SpacesSkipped(space, s);
  }

  // ---- one specification ----

  /** Undefined: `atoi` of a number that is no `int`. */
  datatype Parsed = Usage | BadCount | Undefined | Resource(name: string, count: nat)

  /** What a specification means, on the plain split of its text. */
  function Meaning(arg: string): Parsed {
    if |arg| == 0 then Usage
    else if ':' !in arg then Resource(arg, 1)
    else
      var ts := T.Split(arg, ":");
      var count := if |ts| >= 2 then Atoi(ts[1]) else 0;
      if !IsInt(count) then Undefined else if count < 1 then BadCount else Resource(ts[0], count)
  }

  /** The branch of the option loop. */
  method Parse(arg: string) returns (p: Parsed)
    ensures p == Meaning(arg)
  {
    if |arg| == 0 {
      return Usage;
    }
    S.FindOccurs(arg, ":");
    S.CharOccurs(arg, ':');
    if S.Find(arg, ":", 0) != -1 {
      var st := new T.StringTokenizer(arg, ":");
      var r := st.NextToken();
      var token := st.NextToken();
      var count := Atoi(token);
      if !IsInt(count) {
        return Undefined;
      }
      if count < 1 {
        return BadCount;
      }
      return Resource(r, count);
    }
    return Resource(arg, 1);
  }

  /** What the option means by its parts: a name alone, a name and a number, and anything less. Colons in
      front do not count, nor does what follows the number behind another colon. */
  lemma OptionMeans(name: string, number: string, tail: string)
    requires ':' !in name && FitName(number) && (|tail| > 0 ==> tail[0] == ':')
    ensures Meaning(name) == if name == "" then Usage else Resource(name, 1)
    ensures Meaning(name + ":") == BadCount
    ensures name != "" ==>
              var n := Atoi(number);
              Meaning(name + ":" + (number + tail))
              == if !(-0x8000_0000 <= n <= 0x7fff_ffff) then Undefined
                 else if n < 1 then BadCount else Resource(name, n)
  {
    hide Atoi, T.Split;
    S.CharOccurs(name, ':');
    T.SplitAppend(name, "", ":");
    T.SplitNothing(":");
    if name != "" {
      T.SplitWord(name, ":");
    }
    assert name + ":" == name + ":" + "" && (name + ":")[|name|] == ':';
    T.SplitAppend(name, number + tail, ":");
    assert (name + ":" + (number + tail))[|name|] == ':';
    FirstWord(number, tail);
  }

  lemma FirstWord(number: string, tail: string)
    requires FitName(number) && (|tail| > 0 ==> tail[0] == ':')
    ensures var ts := T.Split(number + tail, ":"); |ts| > 0 && ts[0] == number
  {
    S.CharOccurs(number, ':');
    T.SplitWord(number, ":");
    if |tail| == 0 {
      assert number + tail == number;
    } else {
      T.SplitAppend(number, tail[1..], ":");
      assert number + tail == number + ":" + tail[1..];
    }
  }

  lemma ColonInFront(arg: string)
    requires ':' in arg
    ensures Meaning(":" + arg) == Meaning(arg)
  {
    T.SplitAppend("", arg, ":");
    T.SplitNothing(":");
    assert ":" + arg == "" + ":" + arg && [] + T.Split(arg, ":") == T.Split(arg, ":");
    assert (":" + arg)[0] == ':';
  }

  function Rendered(name: string, count: nat): (item: string)
    ensures |item| > 0
  {
    name + ":" + ToString(AsInt(count))
  }

  predicate FitName(name: string) {
    |name| > 0 && ':' !in name
  }

  lemma PrintedWord(n: int)
    ensures |ToString(n)| > 0 && ':' !in ToString(n) && ',' !in ToString(n)
  {
    assert !IsDigit(':') && !IsDigit(',');
  }

  /** The segments between occurrences of one character. */
  lemma Words(s: string, c: char)
    ensures forall t :: t in T.Split(s, [c]) ==> |t| > 0 && c !in t
  {
    T.SplitIsWords(s, [c]);
    forall t | t in T.Split(s, [c]) ensures |t| > 0 && c !in t {
      S.CharOccurs(t, c);
    }
  }

  /** A rendered resource is read back as it was exactly when its name is non-empty and without ':'
      and its count is a positive `int`. */
  lemma RenderedReadIff(name: string, count: nat)
    requires 1 <= count < 0x1_0000_0000
    ensures Meaning(Rendered(name, count)) == Resource(name, count) <==> FitName(name) && count <= 0x7fff_ffff
  {
    var printed := ToString(AsInt(count));
    PrintedWord(AsInt(count));
    AtoiOfPrinted(AsInt(count));
    hide ToString, Atoi;
    S.CharOccurs(printed, ':');
    T.SplitAppend(name, printed, ":");
    T.SplitWord(printed, ":");
    assert Rendered(name, count) == name + [':'] + printed;
    assert Rendered(name, count)[|name|] == ':';
    if FitName(name) {
      S.CharOccurs(name, ':');
      T.SplitWord(name, ":");
    } else {
      Words(Rendered(name, count), ':');
    }
  }

  /** Whatever the option accepts has a name that can be rendered and read back, and a positive count. */
  lemma AcceptedIsFit(arg: string)
    ensures var p := Meaning(arg);
            p.Resource? ==> FitName(p.name) && 1 <= p.count <= 0x7fff_ffff && Meaning(Rendered(p.name, p.count)) == p
  {
    var p := Meaning(arg);
    if p.Resource? {
      Words(arg, ':');
      RenderedReadIff(p.name, p.count);
    }
  }

  // ---- the list of resources ----

  type ResMap = map<string, nat>

  datatype Options = Accepted(resources: ResMap) | Refused(why: Parsed)

  /** All options, in order; the last count for a name wins, the first error ends it. */
  function MeaningAll(args: seq<string>, m: ResMap): Options {
    if |args| == 0 then Accepted(m)
    else match Meaning(args[0])
      case Resource(name, count) => MeaningAll(args[1..], m[name := count])
      case bad => Refused(bad)
  }

  /** The first argument that means no resource. */
  ghost predicate FirstBad(args: seq<string>, k: int) {
    0 <= k < |args| && !Meaning(args[k]).Resource? && forall i :: 0 <= i < k ==> Meaning(args[i]).Resource?
  }

  predicate Names(arg: string, r: string) {
    Meaning(arg).Resource? && Meaning(arg).name == r
  }

  /** The last argument that names r. */
  ghost predicate LastNaming(args: seq<string>, r: string, k: int) {
    0 <= k < |args| && Names(args[k], r) && forall i :: k < i < |args| ==> !Names(args[i], r)
  }

  /** A map that starts as m and takes in the arguments: every name has its last count. */
  ghost predicate LastCounts(args: seq<string>, m: ResMap, got: ResMap) {
    && (forall r, k :: LastNaming(args, r, k) ==> r in got && got[r] == Meaning(args[k]).count)
    && (forall r :: (forall i :: 0 <= i < |args| ==> !Names(args[i], r)) ==>
         (r in got <==> r in m) && (r in m ==> got[r] == m[r]))
  }

  lemma {:induction false} OptionsFrom(args: seq<string>, m: ResMap)
    ensures var o := MeaningAll(args, m);
            && (o.Accepted? <==> forall i :: 0 <= i < |args| ==> Meaning(args[i]).Resource?)
            && (forall k :: FirstBad(args, k) ==> o == Refused(Meaning(args[k])))
            && (o.Accepted? ==> LastCounts(args, m, o.resources))
  {
    hide Meaning;
    if |args| > 0 {
      var p, rest := Meaning(args[0]), args[1..];
      assert forall i :: 0 <= i < |rest| ==> rest[i] == args[i + 1];
      assert forall i :: 1 <= i < |args| ==> args[i] == rest[i - 1];
      if p.Resource? {
        OptionsFrom(rest, m[p.name := p.count]);
        forall k | FirstBad(args, k) ensures FirstBad(rest, k - 1) {
        }
        if MeaningAll(args, m).Accepted? {
          CountsFrom(args, m, MeaningAll(args, m).resources);
        }
      }
    }
  }

  lemma CountsFrom(args: seq<string>, m: ResMap, got: ResMap)
    requires |args| > 0 && Meaning(args[0]).Resource?
    requires LastCounts(args[1..], m[Meaning(args[0]).name := Meaning(args[0]).count], got)
    ensures LastCounts(args, m, got)
  {
    hide Meaning;
    var p, rest := Meaning(args[0]), args[1..];
    assert forall i :: 1 <= i < |args| ==> args[i] == rest[i - 1];
    forall r, k | LastNaming(args, r, k) ensures r in got && got[r] == Meaning(args[k]).count {
      if k > 0 {
        assert LastNaming(rest, r, k - 1);
      } else {
        forall i | 0 <= i < |rest| ensures !Names(rest[i], r) {
          assert rest[i] == args[i + 1];
        }
      }
    }
    forall r | forall i :: 0 <= i < |args| ==> !Names(args[i], r)
      ensures (r in got <==> r in m) && (r in m ==> got[r] == m[r])
    {
      assert !Names(args[0], r);
      forall i | 0 <= i < |rest| ensures !Names(rest[i], r) {
        assert rest[i] == args[i + 1];
      }
    }
  }

  /** The options are accepted if and only if every argument means a resource; else they are refused with
      what the first other argument means. When accepted, exactly the names that occur are there, each
      with the count of the last argument that names it. */
  method ParseAll(args: seq<string>) returns (r: Options)
    ensures r == MeaningAll(args, map[])
    ensures r.Accepted? <==> forall i :: 0 <= i < |args| ==> Meaning(args[i]).Resource?
    ensures forall k :: FirstBad(args, k) ==> r == Refused(Meaning(args[k]))
    ensures r.Accepted? ==> LastCounts(args, map[], r.resources)
  {
    OptionsFrom(args, map[]);
    hide FirstBad, LastCounts;
    var m: ResMap := map[];
    var i := 0;
    while i < |args|
      invariant 0 <= i <= |args| && MeaningAll(args[i..], m) == MeaningAll(args, map[])
    {
      var p := Parse(args[i]);
      assert args[i..][0] == args[i] && args[i..][1..] == args[i + 1..];
      match p {
        case Resource(name, count) => m := m[name := count];
        case bad => return Refused(bad);
      }
      i := i + 1;
    }
    r := Accepted(m);
  }

  /** The specifications of a map's resources, in the order given. */
  function Items(order: seq<string>, m: ResMap): seq<string>
    requires forall r :: r in order ==> r in m
  {
    if |order| == 0 then [] else [Rendered(order[0], m[order[0]])] + Items(order[1..], m)
  }

  lemma {:induction false} JoinedMore(ts: seq<string>, t: string)
    requires |t| > 0 && forall x :: x in ts ==> |x| > 0
    ensures S.Joined(ts + [t], ",") == (if |ts| == 0 then "" else S.Joined(ts, ",") + ",") + t
  {
    if |ts| == 0 {
      assert ts + [t] == [t];
    } else {
      assert (ts + [t])[1..] == ts[1..] + [t];
      JoinedMore(ts[1..], t);
    }
  }

  lemma {:induction false} ItemsMore(order: seq<string>, m: ResMap, k: nat)
    requires k < |order| && forall r :: r in order ==> r in m
    ensures Items(order[..k + 1], m) == Items(order[..k], m) + [Rendered(order[k], m[order[k]])]
  {
    hide Rendered;
    if k > 0 {
      assert order[..k + 1][1..] == order[1..][..k] && order[..k][1..] == order[1..][..k - 1];
      ItemsMore(order[1..], m, k - 1);
    }
  }

  /** One item for each resource, in order: its name, a colon, and its count in decimal, as an `int`. */
  lemma {:induction false} ItemsAre(order: seq<string>, m: ResMap)
    requires forall r :: r in order ==> r in m
    ensures |Items(order, m)| == |order|
    ensures forall i :: 0 <= i < |order| ==> Items(order, m)[i] == order[i] + ":" + ToString(AsInt(m[order[i]]))
  {
    hide ToString, AsInt;
    if |order| > 0 {
      ItemsAre(order[1..], m);
    }
  }

  lemma {:induction false} ItemsNonEmpty(order: seq<string>, m: ResMap)
    requires forall r :: r in order ==> r in m
    ensures forall x :: x in Items(order, m) ==> |x| > 0
    ensures |Items(order, m)| == |order|
  {
    if |order| > 0 {
      ItemsNonEmpty(order[1..], m);
    }
  }

  lemma NothingJoined(order: seq<string>, m: ResMap)
    requires forall r :: r in order ==> r in m
    ensures |order| == 0 ==> S.Joined(Items(order, m), ",") == ""
  {
  }

  /** The rendering loop: each item with a comma behind it, and the last comma dropped. */
  method Render(order: seq<string>, m: ResMap) returns (list: string)
    requires forall r :: r in order ==> r in m
    ensures list == S.Joined(Items(order, m), ",")
  {
    hide Rendered, S.Joined;
    NothingJoined(order, m);
    list := "";
    var i := 0;
    while i < |order|
      invariant 0 <= i <= |order|
      invariant list == if i == 0 then "" else S.Joined(Items(order[..i], m), ",") + ","
    {
      var res := Rendered(order[i], m[order[i]]);
      ItemsNonEmpty(order[..i], m);
      ItemsMore(order, m, i);
      JoinedMore(Items(order[..i], m), res);
      list := list + res + ",";
      i := i + 1;
    }
    assert order[..|order|] == order;
    if |list| > 0 {
      list := list[..|list| - 1];
    }
  }

  predicate ListName(name: string) {
    FitName(name) && ',' !in name
  }

  lemma {:induction false} ItemsAreWords(order: seq<string>, m: ResMap)
    requires forall r :: r in order ==> r in m && ListName(r)
    ensures forall x :: x in Items(order, m) ==> |x| > 0 && ',' !in x
  {
    if |order| > 0 {
      PrintedWord(AsInt(m[order[0]]));
      ItemsAreWords(order[1..], m);
    }
  }

  function Kept(order: seq<string>, m: ResMap): ResMap {
    map r | r in order && r in m :: m[r]
  }

  lemma ListItemRead(name: string, count: nat)
    requires ListName(name) && 1 <= count <= INT_MAX
    ensures Meaning(Rendered(name, count)) == Resource(name, count)
  {
    RenderedReadIff(name, count);
  }

  lemma {:induction false} ItemsRead(order: seq<string>, m: ResMap, acc: ResMap)
    requires forall r :: r in order ==> r in m && ListName(r) && 1 <= m[r] <= INT_MAX
    ensures MeaningAll(Items(order, m), acc) == Accepted(acc + Kept(order, m))
  {
    hide Rendered, Meaning, FitName, ListName;
    if |order| == 0 {
      assert acc + Kept(order, m) == acc;
    } else {
      var r := order[0];
      ListItemRead(r, m[r]);
      ItemsRead(order[1..], m, acc[r := m[r]]);
      assert acc[r := m[r]] + Kept(order[1..], m) == acc + Kept(order, m);
      assert Items(order, m)[1..] == Items(order[1..], m);
    }
  }

  /** The whole list, split at its commas and read as options. */
  function ReadBack(order: seq<string>, m: ResMap): Options
    requires forall r :: r in order ==> r in m
  {
    MeaningAll(T.Split(S.Joined(Items(order, m), ","), ","), map[])
  }

  lemma ListRead(order: seq<string>, m: ResMap)
    requires forall r :: r in m <==> r in order
    requires forall r :: r in order ==> ListName(r) && 1 <= m[r] <= INT_MAX
    ensures ReadBack(order, m) == Accepted(m)
  {
    hide T.Split, S.Joined, MeaningAll, Items, ListName, Rendered;
    ItemsAreWords(order, m);
    forall t | t in Items(order, m) ensures |t| > 0 && !S.Occurs(t, ",") {
      S.CharOccurs(t, ',');
    }
    T.SplitOfJoined(Items(order, m), ",");
    ItemsRead(order, m, map[]);
    assert map[] + Kept(order, m) == m;
  }

  /** An accepted name has no character that its option did not have. */
  lemma NameFromArgument(arg: string, c: char)
    requires Meaning(arg).Resource? && c !in arg
    ensures c !in Meaning(arg).name
  {
    if ':' in arg {
      Words(arg, ':');
      T.SplitHasChars(arg, ":", c);
    }
  }

  /** Options without commas yield nothing but names that survive in a list, and counts that do. */
  lemma {:induction false} OptionsAreListed(args: seq<string>, acc: ResMap)
    requires forall t :: t in args ==> ',' !in t
    ensures var o := MeaningAll(args, acc);
            o.Accepted? ==> forall r :: r in o.resources ==>
                              (r in acc && o.resources[r] == acc[r]) || (ListName(r) && o.resources[r] <= INT_MAX)
  {
    if |args| > 0 {
      var p := Meaning(args[0]);
      if p.Resource? {
        assert args[0] in args;
        AcceptedIsFit(args[0]);
        NameFromArgument(args[0], ',');
        hide Meaning, FitName, Rendered;
        OptionsAreListed(args[1..], acc[p.name := p.count]);
      }
    }
  }

  /** The list that is passed on gives the resources back exactly when no name is empty or holds a ':'
      or a ',', and every count is an `int`. The option accepts names with a ',', so what it accepts
      is not always given back. */
  lemma ListRoundTripIff(order: seq<string>, m: ResMap)
    requires forall r :: r in m <==> r in order
    requires forall r :: r in order ==> 1 <= m[r] < 0x1_0000_0000
    ensures ReadBack(order, m) == Accepted(m) <==> forall r :: r in order ==> ListName(r) && m[r] <= 0x7fff_ffff
  {
    hide ListName, MeaningAll, ReadBack, Items, T.Split, S.Joined;
    if forall r :: r in order ==> ListName(r) && m[r] <= INT_MAX {
      ListRead(order, m);
    }
    if ReadBack(order, m) == Accepted(m) {
      ReadBackListed(order, m);
    }
  }

  lemma ReadBackListed(order: seq<string>, m: ResMap)
    requires (forall r :: r in order ==> r in m) && ReadBack(order, m) == Accepted(m)
    ensures forall r :: r in m ==> ListName(r) && m[r] <= INT_MAX
  {
    hide ListName, MeaningAll, ReadBack, Items, T.Split, S.Joined;
    var words := T.Split(S.Joined(Items(order, m), ","), ",");
    ReadBackIs(order, m);
    Words(S.Joined(Items(order, m), ","), ',');
    OptionsAreListed(words, map[]);
  }

  lemma ReadBackIs(order: seq<string>, m: ResMap)
    requires forall r :: r in order ==> r in m
    ensures ReadBack(order, m) == MeaningAll(T.Split(S.Joined(Items(order, m), ","), ","), map[])
  {
  }

  /** Such a name: the option accepts it, and the list does not give it back. */
  lemma CommaIsLost()
    ensures Meaning("a,b") == Resource("a,b", 1) && ReadBack(["a,b"], map["a,b" := 1]) != Accepted(map["a,b" := 1])
  {
    assert "a,b"[1] == ',' && !ListName("a,b") && ':' !in "a,b";
    assert "a,b" in ["a,b"];
    ListRoundTripIff(["a,b"], map["a,b" := 1]);
  }
}
