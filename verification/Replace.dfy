/** Replacing every occurrence of one string by another, in place. */
module Replace {
  import opened Strings

  /** Leftmost, non-overlapping replacement on the original string; an empty pattern replaces nothing. */
  function Replaced(s: string, from: string, to: string): string {
    if |from| == 0 then s else Joined(Pieces(s, from), to)
  }

  // ---- the loop ----

  class Text {
    var s: string

    constructor (s: string)
      ensures this.s == s
    {
      this.s := s;
    }

    /** Replace n characters at pos. */
    method Splice(pos: nat, n: nat, to: string)
      requires pos + n <= |s|
      modifies this
      ensures s == old(s)[..pos] + to + old(s)[pos + n..]
    {
      s := s[..pos] + to + s[pos + n..];
    }
  }

  /** The loop goes on behind each replacement, so it ends even when `to` contains `from`. */
  method StringReplace(t: Text, from: string, to: string)
    modifies t
    ensures t.s == Replaced(old(t.s), from, to)
    ensures t.s == if |from| == 0 then old(t.s) else Joined(Pieces(old(t.s), from), to)
  {
    if |from| > 0 {
      var pos := 0;
      var found := Find(t.s, from, pos);
      assert t.s[0..] == t.s;
      while found != -1
        invariant 0 <= pos <= |t.s| && found == Find(t.s, from, pos)
        invariant t.s[..pos] + Joined(Pieces(t.s[pos..], from), to) == Joined(Pieces(old(t.s), from), to)
        decreases |t.s| - pos
      {
        ghost var before, was := t.s, pos;
        OneReplaced(before, was, found, from, to);
        t.Splice(found, |from|, to);
        pos := found + |to|;
        assert t.s[pos..] == before[found + |from|..] && t.s[..pos] == before[..found] + to;
        found := Find(t.s, from, pos);
      }
      FindSuffix(t.s, from, pos);
      assert t.s == t.s[..pos] + t.s[pos..];
    }
  }

  lemma OneReplaced(s: string, pos: nat, found: int, from: string, to: string)
    requires |from| > 0 && pos <= |s| && found == Find(s, from, pos) != -1
    ensures s[..pos] + Joined(Pieces(s[pos..], from), to)
         == (s[..found] + to) + Joined(Pieces(s[found + |from|..], from), to)
  {
    FindSuffix(s, from, pos);
    var u, p := s[pos..], found - pos;
    var ps := Pieces(u[p + |from|..], from);
    assert u[p + |from|..] == s[found + |from|..];
    assert Pieces(u, from) == [u[..p]] + ps && ([u[..p]] + ps)[1..] == ps;
    assert s[..found] == s[..pos] + u[..p];
  }
}
