/** The string operations the storefront uses: `String.prototype.split` on one
    separator character, `trim`, `toLowerCase` and `includes`. */
module Text {

  /** A character `trim` removes: the ECMAScript WhiteSpace and LineTerminator
      code points (tab, vertical tab, form feed, the Unicode space separators,
      the byte order mark, line feed, carriage return, line and paragraph
      separators). */
  predicate IsSpace(c: char) {
    || c == '\t' || c == '\n' || c == '\U{B}' || c == '\U{C}' || c == '\r'
    || c == ' ' || c == '\U{A0}' || c == '\U{1680}'
    || ('\U{2000}' <= c <= '\U{200A}')
    || c == '\U{2028}' || c == '\U{2029}' || c == '\U{202F}' || c == '\U{205F}'
    || c == '\U{3000}' || c == '\U{FEFF}'
  }

  ghost predicate AllSpace(s: string) {
    forall i :: 0 <= i < |s| ==> IsSpace(s[i])
  }

  // ---------------------------------------------------------------------------
  // split
  // ---------------------------------------------------------------------------

  /** `s.split(sep)` for a one-character separator: the pieces between the
      separators, in order. The result is never empty: `"".split(",")` is `[""]`. */
  function Split(s: string, sep: char): (r: seq<string>)
    ensures |r| >= 1
    ensures forall i :: 0 <= i < |r| ==> sep !in r[i]
    // the first piece is the text before the first separator (or all of s)
    ensures |r[0]| <= |s| && r[0] == s[..|r[0]|]
    ensures |r[0]| < |s| ==> s[|r[0]|] == sep
  {
    if s == [] then [[]]
    else
      var rest := Split(s[1..], sep);
      if s[0] == sep then [[]] + rest
      else [[s[0]] + rest[0]] + rest[1..]
  }

  /** `pieces.join(sep)`, the inverse of Split. */
  function Join(pieces: seq<string>, sep: char): (r: string)
    requires |pieces| >= 1
    ensures |r| == (|pieces| - 1) + SumOfLengths(pieces)
  {
    if |pieces| == 1 then pieces[0]
    else pieces[0] + [sep] + Join(pieces[1..], sep)
  }

  /** The total length of the pieces. */
  function SumOfLengths(pieces: seq<string>): (r: nat)
  {
    if pieces == [] then 0 else |pieces[0]| + SumOfLengths(pieces[1..])
  }

  /** Splitting and joining back gives the original text. */
  lemma {:induction false} JoinSplit(s: string, sep: char)
    ensures Join(Split(s, sep), sep) == s
  {
    if s != [] {
      var rest := Split(s[1..], sep);
      JoinSplit(s[1..], sep);
      if s[0] == sep {
        assert Split(s, sep)[1..] == rest;
      } else {
        var r := Split(s, sep);
        if |rest| == 1 {
          assert r == [[s[0]] + rest[0]];
        } else {
          assert r[1..] == rest[1..];
          assert Join(rest, sep) == rest[0] + [sep] + Join(rest[1..], sep);
        }
      }
    }
  }

  /** Joining pieces that hold no separator and splitting again gives the pieces back. */
  lemma {:induction false} SplitJoin(pieces: seq<string>, sep: char)
    requires |pieces| >= 1
    requires forall i :: 0 <= i < |pieces| ==> sep !in pieces[i]
    ensures Split(Join(pieces, sep), sep) == pieces
  {
    if |pieces| == 1 {
      SplitPiece(pieces[0], sep);
    } else {
      var tail := Join(pieces[1..], sep);
      SplitJoin(pieces[1..], sep);
      SplitSeparated(pieces[0], tail, sep);
      assert [pieces[0]] + pieces[1..] == pieces;
    }
  }

  /** A text without the separator splits into itself. */
  lemma {:induction false} SplitPiece(w: string, sep: char)
    requires sep !in w
    ensures Split(w, sep) == [w]
  {
    if w != [] {
      SplitPiece(w[1..], sep);
      assert [w[0]] + w[1..] == w;
    }
  }

  /** A separator-free head followed by the separator starts a new piece. */
  lemma {:induction false} SplitSeparated(w: string, t: string, sep: char)
    requires sep !in w
    ensures Split(w + [sep] + t, sep) == [w] + Split(t, sep)
  {
    if w == [] {
      assert w + [sep] + t == [sep] + t;
      assert ([sep] + t)[1..] == t;
    } else {
      assert (w + [sep] + t)[1..] == w[1..] + [sep] + t;
      SplitSeparated(w[1..], t, sep);
      assert [w[0]] + w[1..] == w;
    }
  }

  // ---------------------------------------------------------------------------
  // trim
  // ---------------------------------------------------------------------------

  /** `s.trimStart()`: drops the leading whitespace. */
  function TrimStart(s: string): (r: string)
    ensures |r| <= |s| && r == s[|s| - |r|..]
    ensures forall i :: 0 <= i < |s| - |r| ==> IsSpace(s[i])
    ensures r != [] ==> !IsSpace(r[0])
  {
    if s != [] && IsSpace(s[0]) then TrimStart(s[1..]) else s
  }

  /** `s.trimEnd()`: drops the trailing whitespace. */
  function TrimEnd(s: string): (r: string)
    ensures |r| <= |s| && r == s[..|r|]
    ensures forall i :: |r| <= i < |s| ==> IsSpace(s[i])
    ensures r != [] ==> !IsSpace(r[|r| - 1])
  {
    if s != [] && IsSpace(s[|s| - 1]) then TrimEnd(s[..|s| - 1]) else s
  }

  /** `s.trim()`: drops whitespace at both ends. */
  function Trim(s: string): (r: string)
    ensures |r| <= |s|
    ensures r != [] ==> !IsSpace(r[0]) && !IsSpace(r[|r| - 1])
    ensures r == [] <==> AllSpace(s)
    ensures forall c :: c in r ==> c in s
  {
    var t := TrimStart(s);
    var r := TrimEnd(t);
    assert r != [] ==> r[0] == t[0];
    r
  }

  /** Trim removes exactly the surrounding whitespace: text whose ends are not
      whitespace, padded with whitespace on either side, trims back to itself. */
  lemma TrimPadded(pre: string, w: string, post: string)
    requires AllSpace(pre) && AllSpace(post)
    requires w != [] ==> !IsSpace(w[0]) && !IsSpace(w[|w| - 1])
    ensures Trim(pre + w + post) == w
  {
    if w == [] {
      AllSpaceAppend(pre, post);
      assert pre + w + post == pre + post;
    } else {
      var t := w + post;
      assert pre + w + post == pre + t;
      assert t[0] == w[0];
      TrimStartPadded(pre, t);
      TrimEndPadded(w, post);
    }
  }

  lemma AllSpaceAppend(a: string, b: string)
    requires AllSpace(a) && AllSpace(b)
    ensures AllSpace(a + b)
  {
    forall i | 0 <= i < |a + b| ensures IsSpace((a + b)[i]) {
      if i >= |a| { assert (a + b)[i] == b[i - |a|]; }
    }
  }

  lemma {:induction false} TrimStartPadded(pre: string, t: string)
    requires AllSpace(pre)
    requires t != [] ==> !IsSpace(t[0])
    ensures TrimStart(pre + t) == t
  {
    if pre != [] {
      assert (pre + t)[1..] == pre[1..] + t;
      TrimStartPadded(pre[1..], t);
    }
  }

  lemma {:induction false} TrimEndPadded(t: string, post: string)
    requires AllSpace(post)
    requires t != [] ==> !IsSpace(t[|t| - 1])
    ensures TrimEnd(t + post) == t
  {
    if post != [] {
      var n := |post| - 1;
      assert (t + post)[..|t + post| - 1] == t + post[..n];
      TrimEndPadded(t, post[..n]);
    } else {
      assert t + post == t;
    }
  }

  /** Trimming twice is trimming once. */
  lemma TrimIdempotent(s: string)
    ensures Trim(Trim(s)) == Trim(s)
  {
    TrimPadded([], Trim(s), []);
    assert [] + Trim(s) + [] == Trim(s);
  }

  // ---------------------------------------------------------------------------
  // toLowerCase and includes
  // ---------------------------------------------------------------------------

  /** `toLowerCase` on one character, for the ASCII letters. */
  function LowerChar(c: char): (r: char)
    ensures 'A' <= c <= 'Z' ==> 'a' <= r <= 'z'
    ensures 'A' <= c <= 'Z' ==> r as int == c as int - 'A' as int + 'a' as int
    ensures !('A' <= c <= 'Z') ==> r == c
  {
    if 'A' <= c <= 'Z' then (c as int - 'A' as int + 'a' as int) as char else c
  }

  /** `s.toLowerCase()`: every character mapped on its own. */
  function Lower(s: string): (r: string)
    ensures |r| == |s|
    ensures forall i :: 0 <= i < |s| ==> r[i] == LowerChar(s[i])
  {
    seq(|s|, i requires 0 <= i < |s| => LowerChar(s[i]))
  }

  /** Lowering twice is lowering once, so a lowered query is its own lowering. */
  lemma LowerIdempotent(s: string)
    ensures Lower(Lower(s)) == Lower(s)
  {
  }

  /** `sub` occurs in `s` starting at index i. */
  ghost predicate OccursAt(s: string, sub: string, i: int) {
    0 <= i && i + |sub| <= |s| && s[i..i + |sub|] == sub
  }

  /** `s.includes(sub)`: tries every start position from the left. */
  function Contains(s: string, sub: string): (r: bool)
    ensures sub == [] ==> r
    ensures r ==> |sub| <= |s|
  {
    if |sub| > |s| then false
    else if s[..|sub|] == sub then true
    else Contains(s[1..], sub)
  }

  /** Contains holds exactly when `sub` occurs somewhere in `s`. */
  lemma {:induction false} ContainsIffOccurs(s: string, sub: string)
    ensures Contains(s, sub) <==> exists i :: OccursAt(s, sub, i)
  {
    if |sub| > |s| {
    } else if s[..|sub|] == sub {
      assert OccursAt(s, sub, 0);
    } else {
      ContainsIffOccurs(s[1..], sub);
      assert !OccursAt(s, sub, 0);
      if i :| OccursAt(s, sub, i) {
        OccursShift(s, sub, i);
        assert OccursAt(s[1..], sub, i - 1);
      }
      if j :| OccursAt(s[1..], sub, j) {
        OccursShift(s, sub, j + 1);
        assert OccursAt(s, sub, j + 1);
      }
    }
  }

  /** An occurrence past the first character is an occurrence in the rest. */
  lemma OccursShift(s: string, sub: string, i: int)
    requires 1 <= i && s != []
    ensures OccursAt(s, sub, i) <==> OccursAt(s[1..], sub, i - 1)
  {
    if i + |sub| <= |s| {
      assert s[1..][i - 1..i - 1 + |sub|] == s[i..i + |sub|];
    }
  }

  /** Every text contains the empty text. */
  lemma ContainsEmpty(s: string)
    ensures Contains(s, [])
  {
  }
}
