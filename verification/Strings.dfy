/** Searching and cutting strings. */
module Strings {

  // ---- occurrences ----

  predicate At(s: string, w: string, i: int) {
    0 <= i && i + |w| <= |s| && s[i..i + |w|] == w
  }

  predicate Occurs(s: string, w: string) {
    exists i :: 0 <= i <= |s| && At(s, w, i)
  }

  /** The first occurrence of w from pos on, -1 if there is none. */
  function Find(s: string, w: string, pos: nat): (p: int)
    ensures p == -1 || (pos <= p && At(s, w, p))
    ensures p >= 0 ==> forall i :: pos <= i < p ==> !At(s, w, i)
    ensures p == -1 ==> forall i :: pos <= i ==> !At(s, w, i)
    decreases |s| - pos
  {
    if pos + |w| > |s| then -1 else if At(s, w, pos) then pos else Find(s, w, pos + 1)
  }

  lemma AtSuffix(s: string, w: string, pos: nat, i: int)
    requires pos <= |s| && pos <= i
    ensures At(s, w, i) <==> At(s[pos..], w, i - pos)
  {
    if i + |w| <= |s| {
      assert s[i..i + |w|] == s[pos..][i - pos..i - pos + |w|];
    }
  }

  lemma FindSuffix(s: string, w: string, pos: nat)
    requires pos <= |s|
    ensures Find(s, w, pos) == var p := Find(s[pos..], w, 0); if p == -1 then -1 else pos + p
  {
    forall i | pos <= i ensures At(s, w, i) <==> At(s[pos..], w, i - pos) {
      AtSuffix(s, w, pos, i);
    }
    var p, q := Find(s, w, pos), Find(s[pos..], w, 0);
    assert p >= 0 ==> At(s[pos..], w, p - pos);
    assert q >= 0 ==> At(s, w, pos + q);
  }

  // ---- cutting at every occurrence ----

  function Joined(ps: seq<string>, w: string): string {
    if |ps| == 0 then "" else if |ps| == 1 then ps[0] else ps[0] + w + Joined(ps[1..], w)
  }

  /** Each piece but the last runs up to the first occurrence of w; the last holds none. */
  ghost predicate Leftmost(ps: seq<string>, w: string) {
    && |ps| > 0
    && (forall k :: 0 <= k < |ps| - 1 ==> forall i :: 0 <= i < |ps[k]| ==> !At(ps[k] + w, w, i))
    && !Occurs(ps[|ps| - 1], w)
  }

  /** The pieces of s between the occurrences of w, taken from the left without overlap. */
  function Pieces(s: string, w: string): (ps: seq<string>)
    requires |w| > 0
    ensures |ps| > 0
    decreases |s|
  {
    var p := Find(s, w, 0);
    if p == -1 then [s] else [s[..p]] + Pieces(s[p + |w|..], w)
  }

  /** Inside the first piece and the occurrence after it, positions are those of the whole. */
  lemma AtFirst(x: string, w: string, rest: string, i: int)
    requires i <= |x|
    ensures At(x + w + rest, w, i) <==> At(x + w, w, i)
  {
    if 0 <= i {
      assert (x + w + rest)[i..i + |w|] == (x + w)[i..i + |w|];
    }
  }

  /** The pieces, joined again, are the string, and they are cut from the left. */
  lemma {:induction false} PiecesAre(s: string, w: string)
    requires |w| > 0
    ensures Joined(Pieces(s, w), w) == s && Leftmost(Pieces(s, w), w)
    decreases |s|
  {
    var p := Find(s, w, 0);
    if p != -1 {
      var rest := s[p + |w|..];
      PiecesAre(rest, w);
      assert s == s[..p] + w + rest;
      forall i | 0 <= i < p ensures !At(s[..p] + w, w, i) {
        AtFirst(s[..p], w, rest, i);
      }
      LeftmostMore(s[..p], Pieces(rest, w), w);
    }
  }

  lemma LeftmostMore(x: string, ps: seq<string>, w: string)
    requires Leftmost(ps, w) && forall i :: 0 <= i < |x| ==> !At(x + w, w, i)
    ensures Leftmost([x] + ps, w)
  {
    var qs := [x] + ps;
    assert qs[|qs| - 1] == ps[|ps| - 1];
    forall k | 0 <= k < |qs| - 1 ensures forall i :: 0 <= i < |qs[k]| ==> !At(qs[k] + w, w, i) {
      if k > 0 {
        assert qs[k] == ps[k - 1];
      }
    }
  }

  /** They are the only pieces like that. */
  lemma {:induction false} PiecesUnique(ps: seq<string>, w: string)
    requires |w| > 0 && Leftmost(ps, w)
    ensures Pieces(Joined(ps, w), w) == ps
    decreases |ps|
  {
    var s := Joined(ps, w);
    if |ps| > 1 {
      var rest := Joined(ps[1..], w);
      assert s == ps[0] + w + rest;
      forall i | 0 <= i < |ps[0]| ensures !At(s, w, i) {
        AtFirst(ps[0], w, rest, i);
      }
      assert At(s, w, |ps[0]|);
      assert Find(s, w, 0) == |ps[0]|;
      assert s[|ps[0]| + |w|..] == rest && s[..|ps[0]|] == ps[0];
      assert ps[1..][|ps[1..]| - 1] == ps[|ps| - 1];
      PiecesUnique(ps[1..], w);
    }
  }

  /** Positions that fit into x are those of x, whatever follows it. */
  lemma AtLonger(x: string, w: string, y: string, i: int)
    requires i + |w| <= |x|
    ensures At(x + y, w, i) <==> At(x, w, i)
  {
    if 0 <= i {
      assert (x + y)[i..i + |w|] == x[i..i + |w|];
    }
  }

  /** No piece holds w. */
  lemma PieceIsFree(ps: seq<string>, w: string, k: nat)
    requires Leftmost(ps, w) && |w| > 0 && k < |ps|
    ensures !Occurs(ps[k], w)
  {
    if k < |ps| - 1 {
      forall i | 0 <= i && i + |w| <= |ps[k]| ensures !At(ps[k], w, i) {
        AtLonger(ps[k], w, w, i);
      }
    }
  }

  // ---- delimiters that cannot overlap ----

  /** No proper beginning of w is also its end. */
  predicate Unbordered(w: string) {
    forall k :: 0 < k < |w| ==> w[k..] != w[..|w| - k]
  }

  lemma FindOccurs(s: string, w: string)
    ensures Find(s, w, 0) == -1 <==> !Occurs(s, w)
  {
    assert Find(s, w, 0) >= 0 ==> At(s, w, Find(s, w, 0));
  }

  /** A single character is found where it stands. */
  lemma CharOccurs(s: string, c: char)
    ensures Occurs(s, [c]) <==> c in s
  {
    forall i | 0 <= i < |s| ensures At(s, [c], i) <==> s[i] == c {
      assert s[i..i + 1] == [s[i]];
    }
    if c in s {
      var i :| 0 <= i < |s| && s[i] == c;
      assert At(s, [c], i);
    }
  }

  lemma OverlapIsBorder(s: string, w: string, i: int, j: int)
    requires At(s, w, i) && At(s, w, j) && i < j < i + |w|
    ensures w[j - i..] == w[..|w| - (j - i)]
  {
    assert s[i..i + |w|][j - i..] == s[j..i + |w|];
    assert s[j..j + |w|][..|w| - (j - i)] == s[j..i + |w|];
  }

  /** Two occurrences of an unbordered string never overlap. */
  lemma NoOverlap(s: string, w: string, i: int, j: int)
    requires Unbordered(w) && At(s, w, i) && At(s, w, j) && i < j
    ensures i + |w| <= j
  {
    if j < i + |w| {
      OverlapIsBorder(s, w, i, j);
    }
  }

  lemma FindInAppend(a: string, b: string, w: string)
    requires |w| > 0 && Unbordered(w)
    ensures Find(a + w + b, w, 0) == if Find(a, w, 0) == -1 then |a| else Find(a, w, 0)
  {
    var s := a + w + b;
    forall i | 0 <= i && i + |w| <= |a| ensures At(s, w, i) == At(a, w, i) {
      AtLonger(a, w, w + b, i);
      assert s == a + (w + b);
    }
    assert At(s, w, |a|);
    forall i | |a| - |w| < i < |a| ensures !At(s, w, i) {
      if At(s, w, i) {
        NoOverlap(s, w, i, |a|);
      }
    }
    hide At, Unbordered;
  }

  /** An occurrence of an unbordered w cuts the string in two. */
  lemma {:induction false} PiecesAppend(a: string, b: string, w: string)
    requires |w| > 0 && Unbordered(w)
    ensures Pieces(a + w + b, w) == Pieces(a, w) + Pieces(b, w)
    decreases |a|
  {
    hide Find, Unbordered;
    FindInAppend(a, b, w);
    var s, q := a + w + b, Find(a, w, 0);
    if q == -1 {
      assert s[..|a|] == a && s[|a| + |w|..] == b;
    } else {
      assert s[..q] == a[..q] && s[q + |w|..] == a[q + |w|..] + w + b;
      PiecesAppend(a[q + |w|..], b, w);
    }
  }
}
