/** The string tokenizer, for every delimiter, against a plain split of the string. */
module Tokenizer {
  import opened Strings

  // ---- the plain split ----

  function NonEmpty(ps: seq<string>): seq<string> {
    if |ps| == 0 then [] else (if |ps[0]| > 0 then [ps[0]] else []) + NonEmpty(ps[1..])
  }

  /** The non-empty segments between the occurrences of d, in order. */
  function Split(s: string, d: string): seq<string>
    requires |d| > 0
  {
    NonEmpty(Pieces(s, d))
  }

  lemma {:induction false} NonEmptyAppend(a: seq<string>, b: seq<string>)
    ensures NonEmpty(a + b) == NonEmpty(a) + NonEmpty(b)
  {
    if |a| == 0 {
      assert a + b == b;
    } else {
      assert (a + b)[1..] == a[1..] + b;
      NonEmptyAppend(a[1..], b);
    }
  }

  /** A delimiter anywhere splits the work in two. */
  lemma SplitAppend(a: string, b: string, d: string)
    requires |d| > 0 && Unbordered(d)
    ensures Split(a + d + b, d) == Split(a, d) + Split(b, d)
  {
    PiecesAppend(a, b, d);
    NonEmptyAppend(Pieces(a, d), Pieces(b, d));
  }

  lemma SplitWord(s: string, d: string)
    requires |s| > 0 && |d| > 0 && !Occurs(s, d)
    ensures Split(s, d) == [s]
  {
    assert Find(s, d, 0) >= 0 ==> Occurs(s, d);
    assert Pieces(s, d) == [s];
    AllKept([s]);
  }

  lemma SplitNothing(d: string)
    requires |d| > 0
    ensures Split("", d) == []
  {
    assert Pieces("", d) == [""] && [""][1..] == [];
  }

  /** The split is what joining undoes: it finds any list of words in the string joined from them. */
  lemma {:induction false} SplitOfJoined(ts: seq<string>, d: string)
    requires |d| > 0 && Unbordered(d) && forall t :: t in ts ==> |t| > 0 && !Occurs(t, d)
    ensures Split(Joined(ts, d), d) == ts
  {
    hide Split, Unbordered, Occurs;
    if |ts| == 0 {
      SplitNothing(d);
    } else {
      SplitWord(ts[0], d);
      if |ts| > 1 {
        SplitAppend(ts[0], Joined(ts[1..], d), d);
        SplitOfJoined(ts[1..], d);
      }
    }
  }

  lemma {:induction false} InNonEmpty(ps: seq<string>, t: string)
    ensures t in NonEmpty(ps) <==> t in ps && |t| > 0
  {
    if |ps| > 0 {
      InNonEmpty(ps[1..], t);
    }
  }

  function Concat(ts: seq<string>): string {
    if |ts| == 0 then "" else ts[0] + Concat(ts[1..])
  }

  /** The string with its delimiters erased, from the left. */
  function Without(s: string, d: string): string
    requires |d| > 0
    decreases |s|
  {
    if |s| == 0 then "" else if At(s, d, 0) then Without(s[|d|..], d) else [s[0]] + Without(s[1..], d)
  }

  lemma {:induction false} WithoutRun(s: string, n: nat, d: string)
    requires |d| > 0 && n <= |s| && forall i :: 0 <= i < n ==> !At(s, d, i)
    ensures Without(s, d) == s[..n] + Without(s[n..], d)
  {
    hide At;
    if n == 0 {
      assert s[0..] == s;
    } else {
      forall i | 0 <= i < n - 1 ensures !At(s[1..], d, i) {
        AtSuffix(s, d, 1, i + 1);
      }
      WithoutRun(s[1..], n - 1, d);
      assert s[1..][n - 1..] == s[n..] && s[..n] == [s[0]] + s[1..][..n - 1];
    }
  }

  lemma {:induction false} PiecesConcat(s: string, d: string)
    requires |d| > 0
    ensures Concat(Pieces(s, d)) == Without(s, d)
    decreases |s|
  {
    var p := Find(s, d, 0);
    if p == -1 {
      WithoutRun(s, |s|, d);
      assert Pieces(s, d) == [s] && [s][1..] == [];
    } else {
      var rest := s[p + |d|..];
      PiecesConcat(rest, d);
      WithoutRun(s, p, d);
      AtSuffix(s, d, p, p);
      assert s[p..][|d|..] == rest;
      assert ([s[..p]] + Pieces(rest, d))[1..] == Pieces(rest, d);
    }
  }

  lemma {:induction false} NonEmptyConcat(ps: seq<string>)
    ensures Concat(NonEmpty(ps)) == Concat(ps)
  {
    if |ps| > 0 {
      NonEmptyConcat(ps[1..]);
      if |ps[0]| > 0 {
        assert ([ps[0]] + NonEmpty(ps[1..]))[1..] == NonEmpty(ps[1..]);
      } else {
        assert [] + NonEmpty(ps[1..]) == NonEmpty(ps[1..]);
      }
    }
  }

  /** The segments are not empty, hold no delimiter, and together are the string without its delimiters. */
  lemma SplitIsWords(s: string, d: string)
    requires |d| > 0
    ensures forall t :: t in Split(s, d) ==> |t| > 0 && !Occurs(t, d)
    ensures Concat(Split(s, d)) == Without(s, d)
  {
    hide Occurs;
    PiecesAre(s, d);
    PiecesConcat(s, d);
    NonEmptyConcat(Pieces(s, d));
    forall t | t in Split(s, d) ensures |t| > 0 && !Occurs(t, d) {
      InNonEmpty(Pieces(s, d), t);
      var k :| 0 <= k < |Pieces(s, d)| && Pieces(s, d)[k] == t;
      PieceIsFree(Pieces(s, d), d, k);
    }
  }

  /** The pieces of a string hold no character that it does not. */
  lemma {:induction false} PiecesHaveChars(s: string, d: string, c: char)
    requires |d| > 0 && c !in s
    ensures forall t :: t in Pieces(s, d) ==> c !in t
    decreases |s|
  {
    var p := Find(s, d, 0);
    if p != -1 {
      PiecesHaveChars(s[p + |d|..], d, c);
    }
  }

  lemma SplitHasChars(s: string, d: string, c: char)
    requires |d| > 0 && c !in s
    ensures forall t :: t in Split(s, d) ==> c !in t
  {
    PiecesHaveChars(s, d, c);
    forall t | t in Split(s, d) ensures c !in t {
      InNonEmpty(Pieces(s, d), t);
    }
  }

  // ---- what the tokenizer takes and counts ----

  /** The tokens taken one after the other until the string is used up. */
  function Drawn(s: string, d: string): seq<string>
    requires |d| > 0
    decreases |s|
  {
    if |s| == 0 then []
    else if Find(s, d, 0) == -1 then [s]
    else [s[..Find(s, d, 0)]] + Drawn(s[Find(s, d, 0) + |d|..], d)
  }

  /** A string whose pieces are all words. */
  predicate Clean(s: string, d: string)
    requires |d| > 0
  {
    |s| == 0 || forall t :: t in Pieces(s, d) ==> |t| > 0
  }

  lemma {:induction false} AllKept(ps: seq<string>)
    requires forall t :: t in ps ==> |t| > 0
    ensures NonEmpty(ps) == ps
  {
    if |ps| > 0 {
      AllKept(ps[1..]);
    }
  }

  /** From a clean string the tokens drawn are its segments, and its pieces. */
  lemma {:induction false} DrawnOfClean(s: string, d: string)
    requires |d| > 0 && Clean(s, d)
    ensures Drawn(s, d) == Split(s, d) && (|s| > 0 ==> Drawn(s, d) == Pieces(s, d))
    decreases |s|
  {
    if |s| == 0 {
      SplitNothing(d);
    } else {
      AllKept(Pieces(s, d));
      var p := Find(s, d, 0);
      if p != -1 {
        var rest := s[p + |d|..];
        assert Pieces(s, d)[1..] == Pieces(rest, d);
        CleanRest(s, d);
        DrawnOfClean(rest, d);
      }
    }
  }

  lemma CleanRest(s: string, d: string)
    requires |d| > 0 && |s| > 0 && Clean(s, d) && Find(s, d, 0) != -1
    ensures var rest := s[Find(s, d, 0) + |d|..]; |rest| > 0 && Clean(rest, d)
  {
    var rest := s[Find(s, d, 0) + |d|..];
    assert forall t :: t in Pieces(rest, d) ==> t in Pieces(s, d);
    assert Pieces(rest, d)[0] in Pieces(rest, d);
    FirstPiece(rest, d);
  }

  lemma FirstPiece(s: string, d: string)
    requires |d| > 0
    ensures |Pieces(s, d)[0]| <= |s|
  {
  }

  // ---- collapsing and trimming ----

  /** Remove the delimiters that follow at pos. */
  function Dropped(s: string, d: string, pos: nat): (t: string)
    requires |d| > 0
    ensures |t| <= |s| && !At(t, d, pos)
    decreases |s|
  {
    if At(s, d, pos) then Dropped(s[..pos] + s[pos + |d|..], d, pos) else s
  }

  /** Behind each delimiter from pos on, remove those that follow it immediately. */
  function Collapsed(s: string, d: string, pos: nat): string
    requires |d| > 0
    decreases |s| - pos
  {
    var p := Find(s, d, pos);
    if p == -1 then s else Collapsed(Dropped(s, d, p + |d|), d, p + |d|)
  }

  function WithoutFirst(s: string, d: string): string {
    if At(s, d, 0) then s[|d|..] else s
  }

  function WithoutLast(s: string, d: string): string {
    if At(s, d, |s| - |d|) then s[..|s| - |d|] else s
  }

  /** What the constructor makes of its string. */
  function Cleaned(s: string, d: string): string
    requires |d| > 0
  {
    WithoutLast(WithoutFirst(Collapsed(s, d, 0), d), d)
  }

  // ---- what that is, in pieces ----

  /** Leading empty pieces dropped, the last piece kept. */
  function Strip(ps: seq<string>): (qs: seq<string>)
    ensures |ps| > 0 ==> 0 < |qs| <= |ps|
  {
    if |ps| > 1 && ps[0] == "" then Strip(ps[1..]) else ps
  }

  /** Empty pieces dropped, but not the first and not the last. */
  function Squeezed(ps: seq<string>): (qs: seq<string>)
    ensures |ps| > 0 ==> |qs| > 0
    decreases |ps|
  {
    if |ps| <= 1 then ps else [ps[0]] + Squeezed(Strip(ps[1..]))
  }

  lemma {:induction false} DroppedPieces(s: string, d: string, pos: nat)
    requires |d| > 0 && pos <= |s|
    ensures var t := Dropped(s, d, pos);
            pos <= |t| && t[..pos] == s[..pos] && Pieces(t[pos..], d) == Strip(Pieces(s[pos..], d))
    decreases |s|
  {
    var u := s[pos..];
    AtSuffix(s, d, pos, pos);
    if At(s, d, pos) {
      var t := s[..pos] + s[pos + |d|..];
      DroppedPieces(t, d, pos);
      assert t[pos..] == s[pos + |d|..] == u[|d|..] && t[..pos] == s[..pos];
      assert u[..0] == "" && Find(u, d, 0) == 0;
      assert Pieces(u, d) == [""] + Pieces(u[|d|..], d);
      assert ([""] + Pieces(u[|d|..], d))[1..] == Pieces(u[|d|..], d);
    } else {
      assert Find(u, d, 0) != 0;
    }
  }

  /** Collapsing keeps what is before pos and squeezes what is behind it. */
  lemma {:induction false} CollapsedPieces(s: string, d: string, pos: nat)
    requires |d| > 0 && pos <= |s|
    ensures Collapsed(s, d, pos) == s[..pos] + Joined(Squeezed(Pieces(s[pos..], d)), d)
    decreases |s| - pos
  {
    hide At, Dropped;
    var p, u := Find(s, d, pos), s[pos..];
    FindSuffix(s, d, pos);
    if p == -1 {
      assert Pieces(u, d) == [u] && s[..pos] + u == s;
    } else {
      OccurrenceFits(s, d, p);
      var q := p + |d|;
      var t, rest := Dropped(s, d, q), Pieces(s[q..], d);
      DroppedPieces(s, d, q);
      CollapsedPieces(t, d, q);
      assert u[p - pos + |d|..] == s[q..];
      assert Pieces(u, d) == [u[..p - pos]] + rest && ([u[..p - pos]] + rest)[1..] == rest;
      SqueezedJoin(u[..p - pos], rest, d);
      assert t[..q] == s[..q] == s[..pos] + u[..p - pos] + d;
    }
  }

  lemma OccurrenceFits(s: string, d: string, p: nat)
    requires At(s, d, p)
    ensures p + |d| <= |s| && s[p..p + |d|] == d
  {
  }

  lemma SqueezedJoin(x: string, ps: seq<string>, d: string)
    requires |ps| > 0
    ensures Joined(Squeezed([x] + ps), d) == x + d + Joined(Squeezed(Strip(ps)), d)
  {
    assert ([x] + ps)[1..] == ps;
    var qs := Squeezed(Strip(ps));
    assert ([x] + qs)[1..] == qs;
  }

  ghost predicate Begins(s: string, d: string) {
    exists rest: string :: s == d + rest
  }

  ghost predicate EndsIn(s: string, d: string) {
    exists rest: string :: s == rest + d
  }

  /** u is t without a delimiter at the front, if there is one. */
  ghost predicate FrontTrimmed(t: string, d: string, u: string) {
    if Begins(t, d) then t == d + u else u == t
  }

  ghost predicate EndTrimmed(t: string, d: string, u: string) {
    if EndsIn(t, d) then t == u + d else u == t
  }

  /** Whatever the delimiter: what the constructor leaves is the pieces between the delimiters, taken from
      the left, without the empty ones inside, joined again; then one delimiter at the front is
      removed if there is one, and then one at the end. */
  lemma CleanedPieces(s: string, d: string)
    requires |d| > 0
    ensures exists u: string ::
              FrontTrimmed(Joined(Squeezed(Pieces(s, d)), d), d, u) && EndTrimmed(u, d, Cleaned(s, d))
  {
    hide *;
    CollapsedPieces(s, d, 0);
    CleanedUnfolds(s, d);
    assert s[..0] == "" && s[0..] == s;
    var t := Collapsed(s, d, 0);
    assert t == "" + Joined(Squeezed(Pieces(s, d)), d) == Joined(Squeezed(Pieces(s, d)), d);
    var u := WithoutFirst(t, d);
    FrontIs(t, d);
    EndIs(u, d);
    assert FrontTrimmed(t, d, u) && EndTrimmed(u, d, Cleaned(s, d));
  }

  lemma FrontIs(t: string, d: string)
    ensures FrontTrimmed(t, d, WithoutFirst(t, d))
  {
    BeginsIff(t, d);
  }

  lemma EndIs(t: string, d: string)
    ensures EndTrimmed(t, d, WithoutLast(t, d))
  {
    EndsIff(t, d);
  }

  lemma BeginsIff(s: string, d: string)
    ensures Begins(s, d) <==> At(s, d, 0)
  {
    if At(s, d, 0) {
      assert s == d + s[|d|..];
    }
  }

  lemma EndsIff(s: string, d: string)
    ensures EndsIn(s, d) <==> At(s, d, |s| - |d|)
  {
    if At(s, d, |s| - |d|) {
      assert s == s[..|s| - |d|] + d;
    }
  }

  /** The tokens drawn from a string are its pieces, without the last if that is empty. */
  lemma {:induction false} DrawnPieces(s: string, d: string)
    requires |d| > 0
    ensures var ps := Pieces(s, d); Drawn(s, d) == if ps[|ps| - 1] == "" then ps[..|ps| - 1] else ps
    decreases |s|
  {
    var p := Find(s, d, 0);
    if |s| > 0 && p != -1 {
      var x, rest := s[..p], Pieces(s[p + |d|..], d);
      DrawnPieces(s[p + |d|..], d);
      assert ([x] + rest)[|[x] + rest| - 1] == rest[|rest| - 1];
      assert ([x] + rest)[..|[x] + rest| - 1] == [x] + rest[..|rest| - 1];
    }
  }

  lemma DropOne(s: string, d: string, pos: nat)
    requires |d| > 0 && Unbordered(d) && pos >= |d| && At(s, d, pos - |d|) && At(s, d, pos)
    ensures var t := s[..pos] + s[pos + |d|..];
            Split(t, d) == Split(s, d) && t[..pos] == s[..pos] && At(t, d, pos - |d|)
  {
    hide Split, Unbordered;
    var a, b, t := s[..pos - |d|], s[pos + |d|..], s[..pos] + s[pos + |d|..];
    assert s == a + d + ("" + d + b) && t == a + d + b;
    assert t[pos - |d|..pos] == s[pos - |d|..pos];
    SplitAppend(a, "" + d + b, d);
    SplitAppend("", b, d);
    SplitAppend(a, b, d);
    SplitNothing(d);
  }

  lemma {:induction false} DroppedIs(s: string, d: string, pos: nat)
    requires |d| > 0 && Unbordered(d) && |d| <= pos <= |s| && At(s, d, pos - |d|)
    ensures var t := Dropped(s, d, pos);
            Split(t, d) == Split(s, d) && pos <= |t| && t[..pos] == s[..pos] && At(t, d, pos - |d|)
    decreases |s|
  {
    hide Split, Unbordered;
    if At(s, d, pos) {
      DropOne(s, d, pos);
      DroppedIs(s[..pos] + s[pos + |d|..], d, pos);
    }
  }

  /** No two delimiters in a row that end before pos; pos is the beginning, or is behind a delimiter
      that no other follows. */
  predicate SingleUpTo(s: string, d: string, pos: nat) {
    && pos <= |s|
    && (forall i :: 0 <= i && i + 2 * |d| <= pos ==> !Twice(s, d, i))
    && (pos > 0 ==> At(s, d, pos - |d|) && !At(s, d, pos))
  }

  predicate Twice(s: string, d: string, i: int) {
    At(s, d, i) && At(s, d, i + |d|)
  }

  /** Up to the next delimiter, too, no two follow each other. */
  lemma NoTwice(s: string, d: string, pos: nat, i: int)
    requires |d| > 0 && Unbordered(d) && SingleUpTo(s, d, pos)
    requires 0 <= i && (Find(s, d, pos) == -1 || i < Find(s, d, pos))
    ensures !Twice(s, d, i)
  {
    if Twice(s, d, i) {
      if pos > 0 && i < pos {
        if i > pos - |d| {
          NoOverlap(s, d, pos - |d|, i);
        } else if i < pos - |d| {
          NoOverlap(s, d, i, pos - |d|);
          if i + |d| > pos - |d| {
            NoOverlap(s, d, pos - |d|, i + |d|);
          } else if i + |d| < pos - |d| {
            NoOverlap(s, d, i + |d|, pos - |d|);
          }
        }
      }
    }
  }

  ghost predicate Single(s: string, d: string) {
    forall i :: 0 <= i ==> !Twice(s, d, i)
  }

  lemma StepSingle(s: string, d: string, pos: nat)
    requires |d| > 0 && Unbordered(d) && SingleUpTo(s, d, pos) && Find(s, d, pos) != -1
    ensures var p := Find(s, d, pos); SingleUpTo(Dropped(s, d, p + |d|), d, p + |d|)
    ensures var p := Find(s, d, pos); Split(Dropped(s, d, p + |d|), d) == Split(s, d)
  {
    hide Split, Unbordered, Dropped, Find;
    var p := Find(s, d, pos);
    var q := p + |d|;
    var t := Dropped(s, d, q);
    DroppedIs(s, d, q);
    forall i | 0 <= i && i + 2 * |d| <= q ensures !Twice(t, d, i) {
      NoTwice(s, d, pos, i);
      SamePrefix(s, t, d, q, i);
      SamePrefix(s, t, d, q, i + |d|);
    }
  }

  lemma SamePrefix(s: string, t: string, d: string, q: nat, i: int)
    requires q <= |s| && q <= |t| && s[..q] == t[..q] && i + |d| <= q
    ensures At(s, d, i) == At(t, d, i)
  {
    if 0 <= i {
      assert s[i..i + |d|] == s[..q][i..i + |d|] && t[i..i + |d|] == t[..q][i..i + |d|];
    }
  }

  lemma {:induction false} CollapsedIs(s: string, d: string, pos: nat)
    requires |d| > 0 && Unbordered(d) && SingleUpTo(s, d, pos)
    ensures Split(Collapsed(s, d, pos), d) == Split(s, d) && Single(Collapsed(s, d, pos), d)
    decreases |s| - pos
  {
    hide Split, Unbordered, SingleUpTo, At, Dropped, Twice;
    var p := Find(s, d, pos);
    if p == -1 {
      forall i | 0 <= i ensures !Twice(s, d, i) {
        NoTwice(s, d, pos, i);
      }
    } else {
      StepSingle(s, d, pos);
      CollapsedIs(Dropped(s, d, p + |d|), d, p + |d|);
    }
  }

  lemma FirstDropped(s: string, d: string)
    requires |d| > 0 && Unbordered(d) && Single(s, d)
    ensures var t := WithoutFirst(s, d); Split(t, d) == Split(s, d) && Single(t, d) && !At(t, d, 0)
  {
    hide Split, Unbordered;
    if At(s, d, 0) {
      var t := s[|d|..];
      assert s == "" + d + t;
      assert !Twice(s, d, 0);
      SplitAppend("", t, d);
      SplitNothing(d);
      forall i | 0 <= i ensures At(t, d, i) == At(s, d, i + |d|) {
        AtSuffix(s, d, |d|, i + |d|);
      }
      forall i | 0 <= i ensures !Twice(t, d, i) {
        assert !Twice(s, d, i + |d|);
      }
    }
  }

  lemma LastDropped(s: string, d: string)
    requires |d| > 0 && Unbordered(d) && Single(s, d) && !At(s, d, 0)
    ensures var t := WithoutLast(s, d);
            Split(t, d) == Split(s, d) && Single(t, d) && !At(t, d, 0) && !At(t, d, |t| - |d|)
  {
    hide Split, Unbordered, Single, Twice;
    if At(s, d, |s| - |d|) {
      var t := s[..|s| - |d|];
      assert s == t + d + "";
      SplitAppend(t, "", d);
      SplitNothing(d);
      assert s == t + d;
      ShorterSingle(t, d);
      if |d| <= |t| {
        AtLonger(t, d, d, 0);
      }
    }
  }

  /** What ends before the last delimiter of a string without two in a row. */
  lemma ShorterSingle(t: string, d: string)
    requires |d| > 0 && Single(t + d, d)
    ensures Single(t, d) && !At(t, d, |t| - |d|)
  {
    forall i | i + |d| <= |t| ensures At(t, d, i) == At(t + d, d, i) {
      AtLonger(t, d, d, i);
    }
    assert At(t + d, d, |t|);
    forall i | 0 <= i ensures !Twice(t, d, i) {
      assert !Twice(t + d, d, i);
    }
    assert |t| >= |d| ==> !Twice(t + d, d, |t| - |d|);
  }

  /** Without delimiters at its ends, and without two in a row, a string is clean. */
  lemma {:induction false} SingleIsClean(s: string, d: string)
    requires |d| > 0 && Single(s, d) && !At(s, d, 0) && !At(s, d, |s| - |d|)
    ensures Clean(s, d)
    decreases |s|
  {
    var p := Find(s, d, 0);
    if p != -1 {
      var rest := s[p + |d|..];
      forall i | 0 <= i ensures At(rest, d, i) == At(s, d, i + p + |d|) {
        AtSuffix(s, d, p + |d|, i + p + |d|);
      }
      assert !Twice(s, d, p);
      forall i | 0 <= i ensures !Twice(rest, d, i) {
        assert !Twice(s, d, i + p + |d|);
      }
      SingleIsClean(rest, d);
      assert Pieces(s, d) == [s[..p]] + Pieces(rest, d);
    }
  }

  /** Cleaning with an unbordered delimiter keeps the segments and leaves nothing but them. */
  lemma CleanedIs(s: string, d: string)
    requires |d| > 0 && Unbordered(d)
    ensures Split(Cleaned(s, d), d) == Split(s, d) && Clean(Cleaned(s, d), d)
  {
    hide Split, Unbordered, Single, At, WithoutFirst, WithoutLast, Collapsed;
    CollapsedIs(s, d, 0) by {
      SingleAtFirst(s, d);
    }
    var t := Collapsed(s, d, 0);
    FirstDropped(t, d);
    LastDropped(WithoutFirst(t, d), d);
    SingleIsClean(Cleaned(s, d), d);
  }

  lemma SingleAtFirst(s: string, d: string)
    requires |d| > 0
    ensures SingleUpTo(s, d, 0)
  {
  }

  // ---- which delimiters work ----

  /** A string on which a delimiter with a border goes wrong: the last two of its occurrences overlap. */
  function Overlapping(d: string, k: nat): string
    requires 0 < k < |d|
  {
    [if d[0] == 'a' then 'b' else 'a'] + d + d[|d| - k..]
  }

  lemma OverlapsTwice(d: string, k: nat)
    requires 0 < k < |d| && d[k..] == d[..|d| - k]
    ensures var s := Overlapping(d, k);
            !At(s, d, 0) && At(s, d, 1) && At(s, d, 1 + k) && |s| == 1 + k + |d|
  {
    var s := Overlapping(d, k);
    assert s[1..1 + |d|] == d;
    forall j | 0 <= j < |d| ensures s[1 + k + j] == d[j] {
      if k + j < |d| {
        assert s[1 + k + j] == d[k + j] && d[k..][j] == d[..|d| - k][j];
      } else {
        assert s[1 + k + j] == d[|d| - k..][k + j - |d|];
      }
    }
    assert s[1 + k..1 + k + |d|] == d;
    assert s[0] != d[0];
  }

  /** Nothing follows the first occurrence immediately, so only the ending one is trimmed. */
  lemma OverlapCleaned(d: string, k: nat)
    requires 0 < k < |d| && d[k..] == d[..|d| - k]
    ensures var s := Overlapping(d, k); Cleaned(s, d) == s[..1 + k] && Drawn(s[..1 + k], d) == [s[..1 + k]]
  {
    var s := Overlapping(d, k);
    OverlapsTwice(d, k);
    var t := s[..1 + k];
    assert t[0] != d[0];
    hide Overlapping;
    assert Find(s, d, 0) == 1;
    assert Dropped(s, d, 1 + |d|) == s && Find(s, d, 1 + |d|) == -1;
    assert Collapsed(s, d, 1 + |d|) == s && Collapsed(s, d, 0) == s;
    assert Find(t, d, 0) == -1;
  }

  /** A plain split finds the first occurrence, and what is left behind it. */
  lemma OverlapSplit(d: string, k: nat)
    requires 0 < k < |d| && d[k..] == d[..|d| - k]
    ensures Split(Overlapping(d, k), d) == [Overlapping(d, k)[..1], d[|d| - k..]]
  {
    var s, y := Overlapping(d, k), d[|d| - k..];
    OverlapsTwice(d, k);
    assert s[1 + |d|..] == y;
    hide Overlapping;
    assert Find(s, d, 0) == 1 && Find(y, d, 0) == -1;
    assert Pieces(s, d) == [s[..1]] + [y] == [s[..1], y];
    AllKept([s[..1], y]);
  }

  lemma BorderedGoesWrong(d: string, k: nat)
    requires 0 < k < |d| && d[k..] == d[..|d| - k]
    ensures Drawn(Cleaned(Overlapping(d, k), d), d) != Split(Overlapping(d, k), d)
  {
    hide Drawn, Cleaned, Split, Overlapping;
    OverlapCleaned(d, k);
    OverlapSplit(d, k);
  }

  /** The tokens of every string are its non-empty segments if and only if the delimiter is
      unbordered, as every delimiter of one character is. */
  lemma TokensAreSegmentsIff(d: string)
    requires |d| > 0
    ensures (forall s: string :: Drawn(Cleaned(s, d), d) == Split(s, d)) <==> Unbordered(d)
  {
    if Unbordered(d) {
      forall s: string ensures Drawn(Cleaned(s, d), d) == Split(s, d) {
        CleanedIs(s, d);
        DrawnOfClean(Cleaned(s, d), d);
      }
    } else {
      var k :| 0 < k < |d| && d[k..] == d[..|d| - k];
      BorderedGoesWrong(d, k);
    }
  }

  // ---- the tokenizer ----

  /** The last position of w, -1 if there is none. */
  function FindLast(s: string, w: string, pos: nat): (p: int)
    requires |w| > 0
    ensures p == -1 || (0 <= p <= pos && At(s, w, p))
    ensures forall i :: p < i <= pos ==> !At(s, w, i)
  {
    if At(s, w, pos) then pos else if pos == 0 then -1 else FindLast(s, w, pos - 1)
  }

  /** The counting loop over a non-empty string. */
  method CountPieces(s: string, d: string) returns (n: int)
    requires |d| > 0
    ensures n == |Pieces(s, d)|
  {
    hide *;
    n := 0;
    var pos := 0;
    assert s[0..] == s;
    while true
      invariant 0 <= pos <= |s|
      invariant n + |Pieces(s[pos..], d)| == |Pieces(s, d)|
      decreases |s| - pos
    {
      var found := Find(s, d, pos);
      PiecesFrom(s, d, pos);
      if found == -1 {
        break;
      }
      n := n + 1;
      pos := found + |d|;
    }
    n := n + 1;
  }

  lemma PiecesFrom(s: string, d: string, pos: nat)
    requires |d| > 0 && pos <= |s|
    ensures var p := Find(s, d, pos);
            if p == -1 then |Pieces(s[pos..], d)| == 1
            else pos <= p && p + |d| <= |s| && |Pieces(s[pos..], d)| == 1 + |Pieces(s[p + |d|..], d)|
  {
    hide At;
    var p, u := Find(s, d, pos), s[pos..];
    FindSuffix(s, d, pos);
    if p != -1 {
      OccurrenceFits(s, d, p);
      assert u[p - pos + |d|..] == s[p + |d|..];
    }
  }

  class StringTokenizer {
    var tokenStr: string
    var delim: string

    predicate Valid()
      reads this
    {
      |delim| == 0 ==> tokenStr == ""
    }

    /** The tokens that are left. */
    function Tokens(): seq<string>
      reads this
    {
      if |delim| == 0 then [] else Drawn(tokenStr, delim)
    }

    /** The string is as the constructor should leave it: nothing but words and single delimiters. */
    predicate Proper()
      reads this
    {
      |delim| > 0 ==> Clean(tokenStr, delim)
    }

    /** With an empty string or an empty delimiter there are no tokens. With any unbordered delimiter
        the tokens are the non-empty segments of the string. */
    constructor (str: string, delimiter: string)
      ensures Valid()
      ensures |str| == 0 || |delimiter| == 0 ==> Tokens() == [] && Proper()
      ensures |str| > 0 && |delimiter| > 0 ==>
                tokenStr == Cleaned(str, delimiter) && delim == delimiter && Tokens() == Drawn(tokenStr, delim)
      ensures |delimiter| > 0 && Unbordered(delimiter) ==> Tokens() == Split(str, delimiter) && Proper()
    {
      tokenStr, delim := "", "";
      new;
      hide Split, Collapsed, Unbordered, Clean, Cleaned;
      if |delimiter| > 0 {
        SplitNothing(delimiter);
      }
      if |str| == 0 || |delimiter| == 0 {
        return;
      }
      tokenStr, delim := str, delimiter;
      CollapseDelimiters();
      if Find(tokenStr, delim, 0) == 0 {
        tokenStr := tokenStr[|delim|..];
      }
      TrimEnd(WithoutFirst(Collapsed(str, delimiter, 0), delimiter));
      CleanedUnfolds(str, delimiter);
      if Unbordered(delimiter) {
        CleanedIs(str, delimiter);
        DrawnOfClean(tokenStr, delimiter);
      }
    }

    /** Remove sequential delimiters. */
    method CollapseDelimiters()
      requires |delim| > 0
      modifies this`tokenStr
      ensures tokenStr == Collapsed(old(tokenStr), delim, 0)
      ensures Unbordered(delim) ==> Single(tokenStr, delim) && Split(tokenStr, delim) == old(Split(tokenStr, delim))
    {
      hide Dropped, Collapsed, Split, Single, Unbordered;
      if Unbordered(delim) {
        SingleAtFirst(tokenStr, delim);
        CollapsedIs(tokenStr, delim, 0);
      }
      var pos := 0;
      while true
        invariant 0 <= pos && Collapsed(tokenStr, delim, pos) == Collapsed(old(tokenStr), delim, 0)
        decreases |tokenStr| - pos
      {
        CollapsedUnfolds(tokenStr, delim, pos);
        var found := Find(tokenStr, delim, pos);
        if found == -1 {
          break;
        }
        pos := found + |delim|;
        ghost var before := tokenStr;
        while Find(tokenStr, delim, pos) == pos
          invariant pos <= |tokenStr| <= |before| && Dropped(tokenStr, delim, pos) == Dropped(before, delim, pos)
          decreases |tokenStr|
        {
          DroppedUnfolds(tokenStr, delim, pos);
          tokenStr := tokenStr[..pos] + tokenStr[pos + |delim|..];
        }
        DroppedUnfolds(tokenStr, delim, pos);
      }
    }

    /** Trim the ending delimiter. */
    method TrimEnd(ghost was: string)
      requires |delim| > 0 && was == tokenStr
      modifies this`tokenStr
      ensures tokenStr == WithoutLast(was, delim)
    {
      var pos := FindLast(tokenStr, delim, |tokenStr|);
      if pos != -1 {
        if pos != |tokenStr| - |delim| {
          return;
        }
        tokenStr := tokenStr[..|tokenStr| - |delim|];
      }
    }

    /** The number of pieces; of a proper string, the number of tokens left. */
    method CountTokens() returns (n: int)
      requires Valid()
      ensures n == if |tokenStr| == 0 then 0 else |Pieces(tokenStr, delim)|
      ensures Proper() ==> n == |Tokens()|
    {
      if |tokenStr| == 0 {
        return 0;
      }
      n := CountPieces(tokenStr, delim);
      if Proper() {
        DrawnOfClean(tokenStr, delim);
      }
    }

    method HasMoreTokens() returns (more: bool)
      requires Valid()
      ensures more == (|Tokens()| > 0)
    {
      more := |tokenStr| > 0;
    }

    /** The next token; "" when there is none. */
    method NextToken() returns (token: string)
      requires Valid()
      modifies this`tokenStr
      ensures Valid() && (old(Proper()) ==> Proper())
      ensures if |old(Tokens())| == 0 then token == "" && Tokens() == []
              else token == old(Tokens())[0] && Tokens() == old(Tokens())[1..]
    {
      if |tokenStr| == 0 {
        return "";
      }
      var pos := Find(tokenStr, delim, 0);
      if pos != -1 {
        if Proper() {
          CleanRest(tokenStr, delim);
        }
        token := tokenStr[..pos];
        tokenStr := tokenStr[pos + |delim|..];
      } else {
        token := tokenStr[..];
        tokenStr := "";
      }
    }
  }

  lemma DroppedUnfolds(s: string, d: string, pos: nat)
    requires |d| > 0
    ensures Dropped(s, d, pos) == if Find(s, d, pos) == pos then Dropped(s[..pos] + s[pos + |d|..], d, pos) else s
  {
  }

  lemma CollapsedUnfolds(s: string, d: string, pos: nat)
    requires |d| > 0
    ensures Collapsed(s, d, pos) == var p := Find(s, d, pos);
                                    if p == -1 then s else Collapsed(Dropped(s, d, p + |d|), d, p + |d|)
  {
  }

  lemma CleanedUnfolds(s: string, d: string)
    requires |d| > 0
    ensures Cleaned(s, d) == WithoutLast(WithoutFirst(Collapsed(s, d, 0), d), d)
  {
  }

  /** Taking tokens until there are none left gives those the constructor left; with an unbordered
      delimiter the non-empty segments, in order. */
  method AllTokens(str: string, d: string) returns (ts: seq<string>)
    ensures ts == if |str| == 0 || |d| == 0 then [] else Drawn(Cleaned(str, d), d)
    ensures |d| > 0 && Unbordered(d) ==> ts == Split(str, d)
  {
    hide *;
    var st := new StringTokenizer(str, d);
    ghost var all := st.Tokens();
    ts := [];
    var more := st.HasMoreTokens();
    while more
      invariant fresh(st) && st.Valid() && ts + st.Tokens() == all && more == (|st.Tokens()| > 0)
      decreases |st.Tokens()|
    {
      var t := st.NextToken();
      ts := ts + [t];
      more := st.HasMoreTokens();
    }
    assert ts + [] == ts;
  }
}
