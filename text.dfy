/**
  The string operations of Go's `strings` package that the command layer uses,
  restricted to the shapes it calls them with: a one-character separator for
  Split, a one-character needle for Index, and ASCII letters for the case
  operations.
*/
module Text {

  /** The first position at or after i holding c, or -1. */
  function IndexFrom(s: string, c: char, i: nat): (k: int)
    requires i <= |s|
    ensures k == -1 || i <= k < |s|
    ensures k == -1 ==> forall j :: i <= j < |s| ==> s[j] != c
    ensures k >= 0 ==> s[k] == c && forall j :: i <= j < k ==> s[j] != c
    decreases |s| - i
  {
    if i == |s| then -1 else if s[i] == c then i else IndexFrom(s, c, i + 1)
  }

  /** Go's strings.Index(s, string(c)): the first position holding c, or -1. */
  function IndexOf(s: string, c: char): (k: int)
    ensures -1 <= k < |s|
    ensures k == -1 <==> c !in s
    ensures k >= 0 ==> s[k] == c && c !in s[..k]
  {
    var k := IndexFrom(s, c, 0);
    assert k >= 0 ==> forall j :: 0 <= j < k ==> s[..k][j] != c;
    k
  }

  /** The first occurrence of c in a + [c] + b is the one after a, when a has none. */
  lemma {:induction false} IndexOfAfter(a: string, c: char, b: string)
    requires c !in a
    ensures IndexOf(a + [c] + b, c) == |a|
  {
    if a != [] {
      var s := a + [c] + b;
      assert s[0] == a[0];
      assert s[1..] == a[1..] + [c] + b;
      IndexOfAfter(a[1..], c, b);
    }
  }

  /** A position holding c with no c before it is the one IndexOf finds. */
  lemma {:induction false} IndexOfFirst(s: string, c: char, j: nat)
    requires j < |s| && s[j] == c && c !in s[..j]
    ensures IndexOf(s, c) == j
  {
    if j > 0 {
      assert s[0] == s[..j][0];
      assert s[1..][..j - 1] == s[..j][1..];
      IndexOfFirst(s[1..], c, j - 1);
    }
  }

  /** The number of occurrences of c in s. */
  function Count(s: string, c: char): nat
  {
    if s == [] then 0 else (if s[0] == c then 1 else 0) + Count(s[1..], c)
  }

  lemma {:induction false} CountAppend(a: string, b: string, c: char)
    ensures Count(a + b, c) == Count(a, c) + Count(b, c)
  {
    if a == [] {
      assert a + b == b;
    } else {
      assert (a + b)[0] == a[0];
      assert (a + b)[1..] == a[1..] + b;
      CountAppend(a[1..], b, c);
    }
  }

  lemma {:induction false} CountPresent(s: string, c: char)
    requires c in s
    ensures Count(s, c) >= 1
  {
    if s[0] != c {
      assert c in s[1..];
      CountPresent(s[1..], c);
    }
  }

  lemma {:induction false} CountAbsent(s: string, c: char)
    requires c !in s
    ensures Count(s, c) == 0
  {
    if s != [] {
      CountAbsent(s[1..], c);
    }
  }

  /** Go's strings.Split(s, string(sep)): the pieces between the separators. */
  function Split(s: string, sep: char): (parts: seq<string>)
    ensures |parts| >= 1
    decreases |s|
  {
    var k := IndexOf(s, sep);
    if k < 0 then [s] else [s[..k]] + Split(s[k + 1..], sep)
  }

  /** Go's strings.Join. */
  function Join(parts: seq<string>, sep: string): string
  {
    if |parts| == 0 then ""
    else if |parts| == 1 then parts[0]
    else parts[0] + sep + Join(parts[1..], sep)
  }

  /** Appending one more part to a non-empty list adds the separator and the part. */
  lemma {:induction false} JoinSnoc(parts: seq<string>, x: string, sep: string)
    requires |parts| >= 1
    ensures Join(parts + [x], sep) == Join(parts, sep) + sep + x
  {
    if |parts| > 1 {
      assert (parts + [x])[1..] == parts[1..] + [x];
      JoinSnoc(parts[1..], x, sep);
    }
  }

  /** Joining the pieces of a split with the separator gives the original string back. */
  lemma {:induction false} JoinSplit(s: string, sep: char)
    ensures Join(Split(s, sep), [sep]) == s
    decreases |s|
  {
    var k := IndexOf(s, sep);
    if k < 0 {
      assert Split(s, sep) == [s];
    } else {
      var head, t := s[..k], s[k + 1..];
      var rest := Split(t, sep);
      assert Split(s, sep) == [head] + rest;
      JoinSplit(t, sep);
      JoinCons(head, rest, [sep]);
      Around(s, k);
    }
  }

  /** A string is what comes before position k, the character at k, and what follows. */
  lemma Around(s: string, k: nat)
    requires k < |s|
    ensures s[..k] + [s[k]] + s[k + 1..] == s
  {
    assert s[k..] == [s[k]] + s[k + 1..];
    assert s[..k] + s[k..] == s;
  }

  /** Joining a list with one more part in front. */
  lemma JoinCons(a: string, rest: seq<string>, sep: string)
    requires |rest| >= 1
    ensures Join([a] + rest, sep) == a + sep + Join(rest, sep)
  {
    assert ([a] + rest)[1..] == rest;
  }

  /** Splitting a join of separator-free pieces gives the pieces back. */
  lemma {:induction false} SplitJoin(parts: seq<string>, sep: char)
    requires |parts| >= 1
    requires forall i :: 0 <= i < |parts| ==> sep !in parts[i]
    ensures Split(Join(parts, [sep]), sep) == parts
  {
    if |parts| > 1 {
      var rest := Join(parts[1..], [sep]);
      var s := parts[0] + [sep] + rest;
      assert Join(parts, [sep]) == s;
      IndexOfAfter(parts[0], sep, rest);
      assert s[..|parts[0]|] == parts[0];
      assert s[|parts[0]| + 1..] == rest;
      SplitJoin(parts[1..], sep);
      assert parts == [parts[0]] + parts[1..];
    }
  }

  /** Split yields a single piece exactly when the separator does not occur, and that piece is the whole string. */
  lemma SplitOne(s: string, sep: char)
    ensures |Split(s, sep)| == 1 <==> sep !in s
    ensures sep !in s ==> Split(s, sep) == [s]
  {
    SplitCount(s, sep);
    if sep in s {
      CountPresent(s, sep);
    } else {
      assert Split(s, sep) == [s];
    }
  }

  /** Split yields one piece more than there are separators. */
  lemma {:induction false} SplitCount(s: string, sep: char)
    ensures |Split(s, sep)| == Count(s, sep) + 1
    decreases |s|
  {
    var k := IndexOf(s, sep);
    if k < 0 {
      CountAbsent(s, sep);
    } else {
      SplitCount(s[k + 1..], sep);
      assert s == s[..k] + ([sep] + s[k + 1..]);
      CountAppend(s[..k], [sep] + s[k + 1..], sep);
      CountAbsent(s[..k], sep);
      assert ([sep] + s[k + 1..])[1..] == s[k + 1..];
    }
  }

  /** piece is a separator-free suffix of s, preceded by the separator when it is shorter than s. */
  predicate LastPiece(s: string, sep: char, piece: string)
  {
    && sep !in piece
    && |piece| <= |s|
    && s[|s| - |piece|..] == piece
    && (|piece| < |s| ==> s[|s| - |piece| - 1] == sep)
  }

  lemma ShiftLastPiece(s: string, sep: char, k: nat, piece: string)
    requires k < |s| && s[k] == sep && LastPiece(s[k + 1..], sep, piece)
    ensures LastPiece(s, sep, piece)
  {
    var t := s[k + 1..];
    var b := |t| - |piece|;
    assert |s| - |piece| == k + 1 + b;
    assert t[b..] == s[k + 1 + b..];
    assert s[|s| - |piece|..] == piece;
    if b > 0 {
      assert s[k + b] == t[b - 1];
    }
  }

  /** The last element of Split: what follows the last separator, or the whole string. */
  lemma {:induction false} SplitLast(s: string, sep: char)
    ensures LastPiece(s, sep, Split(s, sep)[|Split(s, sep)| - 1])
    decreases |s|
  {
    var parts := Split(s, sep);
    var k := IndexOf(s, sep);
    if k < 0 {
      assert parts == [s];
      assert s[0..] == s;
    } else {
      var t := s[k + 1..];
      SplitLast(t, sep);
      var rest := Split(t, sep);
      assert parts == [s[..k]] + rest;
      assert parts[|parts| - 1] == rest[|rest| - 1];
      ShiftLastPiece(s, sep, k, rest[|rest| - 1]);
    }
  }

  /** Go's unicode.ToLower on an ASCII letter; other characters are kept. */
  function ToLower(c: char): char
  {
    if 'A' <= c <= 'Z' then (c as int + 32) as char else c
  }

  /** Go's unicode.ToUpper on an ASCII letter; other characters are kept. */
  function ToUpper(c: char): char
  {
    if 'a' <= c <= 'z' then (c as int - 32) as char else c
  }

  /** Go's strings.EqualFold, with case folding of the ASCII letters. */
  predicate EqualFold(a: string, b: string)
  {
    |a| == |b| && forall i :: 0 <= i < |a| ==> ToLower(a[i]) == ToLower(b[i])
  }

  /** The concatenation of a list of strings (what a strings.Builder holds after the writes). */
  function Concat(ss: seq<string>): string
  {
    if ss == [] then "" else Concat(ss[..|ss| - 1]) + ss[|ss| - 1]
  }

  /** Writing pieces into a strings.Builder one after another gives their concatenation. */
  method WriteAll(pieces: seq<string>) returns (sb: string)
    ensures sb == Concat(pieces)
  {
    sb := "";
    for i := 0 to |pieces|
      invariant sb == Concat(pieces[..i])
    {
      assert pieces[..i + 1][..i] == pieces[..i];
      sb := sb + pieces[i];
    }
    assert pieces[..|pieces|] == pieces;
  }

  /** Concatenating pieces that each hold c once gives a string holding it once per piece. */
  lemma {:induction false} CountConcat(ss: seq<string>, c: char)
    requires forall i :: 0 <= i < |ss| ==> Count(ss[i], c) == 1
    ensures Count(Concat(ss), c) == |ss|
  {
    if ss != [] {
      var init := ss[..|ss| - 1];
      assert forall i :: 0 <= i < |init| ==> init[i] == ss[i];
      CountConcat(init, c);
      CountAppend(Concat(init), ss[|ss| - 1], c);
    }
  }
}
