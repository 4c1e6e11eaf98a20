/**
  The slash-command tokenizer: the non-overlapping leftmost-first matches of
  the pattern '[^']*'|"[^"]*"|\S+ from left to right, with the enclosing
  quotes then removed from quoted tokens. The regular expression is replaced
  by a scanner that makes, at each position, the choice the pattern makes.
*/
module Tokenizer {
  import opened Text

  /** The characters of the class \s: tab, line feed, form feed, carriage return and space. */
  predicate IsSpace(c: char)
  {
    c == ' ' || c == '\t' || c == '\n' || c == '\U{000C}' || c == '\r'
  }

  predicate IsQuote(c: char)
  {
    c == '\'' || c == '"'
  }

  /** What the alternative '[^']*' (q a single quote) or "[^"]*" (q a double quote) matches. */
  predicate QuotedMatch(t: string, q: char)
  {
    IsQuote(q) && |t| >= 2 && t[0] == q && t[|t| - 1] == q && q !in t[1..|t| - 1]
  }

  /** What the alternative \S+ matches. */
  predicate WordMatch(t: string)
  {
    |t| >= 1 && forall i :: 0 <= i < |t| ==> !IsSpace(t[i])
  }

  /** The length of the leading run of non-space characters. */
  function WordLength(s: string): (n: nat)
    ensures n <= |s|
    ensures forall i :: 0 <= i < n ==> !IsSpace(s[i])
    ensures n < |s| ==> IsSpace(s[n])
  {
    if s == [] || IsSpace(s[0]) then 0 else 1 + WordLength(s[1..])
  }

  /**
    The length of the match that starts at s[0]: a quote with a closing quote
    of the same kind later on takes the quoted alternative up to the first such
    closing quote; anything else takes the longest run of non-space characters.
  */
  function MatchLength(s: string): (n: nat)
    requires s != [] && !IsSpace(s[0])
    ensures 1 <= n <= |s|
  {
    if IsQuote(s[0]) && s[0] in s[1..] then IndexOf(s[1..], s[0]) + 2 else WordLength(s)
  }

  /**
    The choice MatchLength makes is the pattern's: when a quoted alternative
    matches a prefix, that prefix is taken (and it is the only prefix it
    matches); otherwise \S+ is taken, as far as it reaches.
  */
  lemma LeftmostFirst(s: string)
    requires s != [] && !IsSpace(s[0])
    ensures forall m :: 0 <= m <= |s| && QuotedMatch(s[..m], s[0]) ==> MatchLength(s) == m
    ensures QuotedMatch(s[..MatchLength(s)], s[0])
      || (WordMatch(s[..MatchLength(s)]) && (MatchLength(s) == |s| || IsSpace(s[MatchLength(s)])))
    ensures (forall m :: 0 <= m <= |s| ==> !QuotedMatch(s[..m], s[0])) ==>
      WordMatch(s[..MatchLength(s)]) && (MatchLength(s) == |s| || IsSpace(s[MatchLength(s)]))
  {
    var q, n := s[0], MatchLength(s);
    forall m | 0 <= m <= |s| && QuotedMatch(s[..m], q)
      ensures IsQuote(q) && q in s[1..] && n == m
    {
      assert s[1..][m - 2] == s[..m][m - 1];
      assert s[1..][..m - 2] == s[..m][1..m - 1];
      IndexOfFirst(s[1..], q, m - 2);
    }
    if IsQuote(q) && q in s[1..] {
      var k := IndexOf(s[1..], q);
      assert s[..n][1..n - 1] == s[1..][..k];
    }
  }

  /** FindAllString: the matches of the pattern in s, left to right. */
  function Matches(s: string): seq<string>
    decreases |s|
  {
    if s == [] then []
    else if IsSpace(s[0]) then Matches(s[1..])
    else
      var n := MatchLength(s);
      [s[..n]] + Matches(s[n..])
  }

  /** The quote removal: a token longer than one character that starts and ends with the same quote loses both. */
  function Strip(t: string): (r: string)
    ensures r == t || (|t| >= 2 && IsQuote(t[0]) && t[|t| - 1] == t[0] && r == t[1..|t| - 1])
    ensures |t| >= 2 && IsQuote(t[0]) && t[|t| - 1] == t[0] ==> r == t[1..|t| - 1]
  {
    var n := |t|;
    if n > 1 && ((t[0] == '"' && t[n - 1] == '"') || (t[0] == '\'' && t[n - 1] == '\'')) then t[1..n - 1] else t
  }

  function StripAll(ts: seq<string>): seq<string>
  {
    if ts == [] then [] else [Strip(ts[0])] + StripAll(ts[1..])
  }

  lemma {:induction false} StripAllAt(ts: seq<string>)
    ensures |StripAll(ts)| == |ts|
    ensures forall j :: 0 <= j < |ts| ==> StripAll(ts)[j] == Strip(ts[j])
  {
    if ts != [] {
      StripAllAt(ts[1..]);
    }
  }

  /** tokenize: the matches with their quotes removed. */
  function Tokens(s: string): seq<string>
  {
    StripAll(Matches(s))
  }

  /** tokenize, rewriting the match list in place. */
  method Tokenize(str: string) returns (tokens: seq<string>)
    ensures tokens == Tokens(str)
  {
    ghost var ms := Matches(str);
    tokens := Matches(str);
    for i := 0 to |tokens|
      invariant |tokens| == |ms|
      invariant forall j :: 0 <= j < i ==> tokens[j] == Strip(ms[j])
      invariant forall j :: i <= j < |tokens| ==> tokens[j] == ms[j]
    {
      var token := tokens[i];
      var tokLen := |token|;
      if tokLen > 1 && ((token[0] == '"' && token[tokLen - 1] == '"') || (token[0] == '\'' && token[tokLen - 1] == '\'')) {
        tokens := tokens[i := token[1..tokLen - 1]];
      }
    }
    StripAllAt(ms);
  }

  /** Whitespace before the first match is skipped. */
  lemma {:induction false} SkipSpaces(ws: string, s: string)
    requires forall i :: 0 <= i < |ws| ==> IsSpace(ws[i])
    ensures Matches(ws + s) == Matches(s)
  {
    if ws != [] {
      assert (ws + s)[0] == ws[0];
      assert (ws + s)[1..] == ws[1..] + s;
      SkipSpaces(ws[1..], s);
      assert Matches(ws + s) == Matches((ws + s)[1..]);
    } else {
      assert ws + s == s;
    }
  }

  /** A closed quoted span is one token, whatever it holds, and loses its quotes; `''` gives the empty token. */
  lemma QuotedSpan(q: char, body: string, rest: string)
    requires IsQuote(q) && q !in body
    ensures Matches([q] + body + [q] + rest) == [[q] + body + [q]] + Matches(rest)
    ensures Tokens([q] + body + [q] + rest) == [body] + Tokens(rest)
  {
    var s := [q] + body + [q] + rest;
    assert s[1..] == body + [q] + rest;
    IndexOfAfter(body, q, rest);
    assert q in s[1..] by { assert s[1..][|body|] == q; }
    assert s[..|body| + 2] == [q] + body + [q];
    assert s[|body| + 2..] == rest;
    var t := [q] + body + [q];
    assert t[1..|t| - 1] == body;
  }

  /** The pieces of s between single whitespace characters, empty pieces included. */
  function Pieces(s: string): (ps: seq<string>)
    ensures |ps| >= 1
  {
    if s == [] then [""]
    else
      var p := Pieces(s[1..]);
      if IsSpace(s[0]) then [""] + p else [[s[0]] + p[0]] + p[1..]
  }

  function NonEmpty(ps: seq<string>): seq<string>
  {
    if ps == [] then [] else (if ps[0] == "" then [] else [ps[0]]) + NonEmpty(ps[1..])
  }

  /** The first piece is the leading word; the rest are the pieces of what follows the space after it. */
  lemma {:induction false} PiecesWord(s: string)
    ensures Pieces(s)[0] == s[..WordLength(s)]
    ensures Pieces(s)[1..] == if WordLength(s) == |s| then [] else Pieces(s[WordLength(s) + 1..])
  {
    if s != [] && !IsSpace(s[0]) {
      PiecesWord(s[1..]);
      var w := WordLength(s[1..]);
      assert [s[0]] + s[1..][..w] == s[..w + 1];
      if w < |s| - 1 {
        assert s[1..][w + 1..] == s[w + 2..];
      }
    }
  }

  /** On input without quote characters, tokenize splits at runs of whitespace and drops empty pieces. */
  lemma {:induction false} QuoteFreeFields(s: string)
    requires forall i :: 0 <= i < |s| ==> !IsQuote(s[i])
    ensures Tokens(s) == NonEmpty(Pieces(s))
    decreases |s|
  {
    if s != [] {
      if IsSpace(s[0]) {
        QuoteFreeFields(s[1..]);
      } else {
        var n := WordLength(s);
        PiecesWord(s);
        assert MatchLength(s) == n;
        var word := s[..n];
        assert Strip(word) == word;
        assert Pieces(s) == [word] + Pieces(s)[1..];
        assert Matches(s) == [word] + Matches(s[n..]);
        assert Tokens(s) == [word] + Tokens(s[n..]);
        assert NonEmpty(Pieces(s)) == [word] + NonEmpty(Pieces(s)[1..]);
        if n == |s| {
          assert s[n..] == [];
        } else {
          var rest := s[n + 1..];
          QuoteFreeFields(rest);
          assert s[n..][1..] == rest;
          assert Matches(s[n..]) == Matches(rest);
        }
      }
    }
  }
}
