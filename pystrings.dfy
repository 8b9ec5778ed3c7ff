/** The host string operations that dispatch relies on: `str.split` with a
    one-character separator. */
module PyStrings {

  /** The pieces of `s` between occurrences of `c`, as `s.split(c)` returns them. */
  function Split(s: string, c: char): (r: seq<string>)
    ensures |r| >= 1
    ensures forall k :: 0 <= k < |r| ==> c !in r[k]
  {
    if |s| == 0 then [""]
    else if s[0] == c then [""] + Split(s[1..], c)
    else
      var rest := Split(s[1..], c);
      [[s[0]] + rest[0]] + rest[1..]
  }

  /** The pieces joined with the separator, as `c.join(pieces)` does. */
  function Join(pieces: seq<string>, c: char): string
    requires |pieces| >= 1
  {
    if |pieces| == 1 then pieces[0] else pieces[0] + [c] + Join(pieces[1..], c)
  }

  /** Splitting loses nothing: joining the pieces gives back the string. */
  lemma {:induction false} JoinSplit(s: string, c: char)
    ensures Join(Split(s, c), c) == s
  {
    if |s| == 0 {
    } else if s[0] == c {
      JoinSplit(s[1..], c);
      assert [c] + s[1..] == s;
    } else {
      var rest := Split(s[1..], c);
      JoinSplit(s[1..], c);
      if |rest| == 1 {
        assert [s[0]] + rest[0] == s;
      } else {
        assert ([s[0]] + rest[0]) + [c] + Join(rest[1..], c) == [s[0]] + (rest[0] + [c] + Join(rest[1..], c));
        assert [s[0]] + s[1..] == s;
      }
    }
  }

  /** There is a second piece exactly when the separator occurs in the string. */
  lemma {:induction false} SplitHasSecondPiece(s: string, c: char)
    ensures |Split(s, c)| >= 2 <==> c in s
  {
    if |s| == 0 {
    } else if s[0] == c {
    } else {
      SplitHasSecondPiece(s[1..], c);
      assert c in s <==> c in s[1..] by {
        assert s == [s[0]] + s[1..];
      }
    }
  }

  /** Splitting a string that starts with a separator-free prefix and the
      separator gives the prefix as the first piece, then the pieces of the rest. */
  lemma {:induction false} SplitAfterPrefix(p: string, c: char, t: string)
    requires c !in p
    ensures Split(p + [c] + t, c) == [p] + Split(t, c)
  {
    var s := p + [c] + t;
    if |p| == 0 {
      assert s == [c] + t;
      assert s[1..] == t;
    } else {
      assert s[0] == p[0];
      assert s[1..] == p[1..] + [c] + t;
      SplitAfterPrefix(p[1..], c, t);
      assert [p[0]] + p[1..] == p;
    }
  }
}
