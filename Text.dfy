/** The string operations the converter uses: `String.split` on a one-character
    separator and `replaceAll` of one character by nothing. */
module Text {

  /** Every piece between separators, empty pieces included, so that `Join`
      undoes it exactly. */
  function Split(s: string, sep: char): (pieces: seq<string>)
    ensures |pieces| >= 1
    ensures forall i :: 0 <= i < |pieces| ==> sep !in pieces[i]
  {
    if s == [] then [[]]
    else
      var rest := Split(s[1..], sep);
      if s[0] == sep then [[]] + rest
      else [[s[0]] + rest[0]] + rest[1..]
  }

  /** The pieces with one separator between neighbours. */
  function Join(pieces: seq<string>, sep: char): string
    requires |pieces| >= 1
  {
    if |pieces| == 1 then pieces[0] else pieces[0] + [sep] + Join(pieces[1..], sep)
  }

  lemma {:induction false} JoinPrepend(c: char, pieces: seq<string>, sep: char)
    requires |pieces| >= 1
    ensures Join([[c] + pieces[0]] + pieces[1..], sep) == [c] + Join(pieces, sep)
  {
    var ps := [[c] + pieces[0]] + pieces[1..];
    assert ps[1..] == pieces[1..];
  }

  /** Splitting and joining again gives back the string. */
  lemma {:induction false} JoinSplit(s: string, sep: char)
    ensures Join(Split(s, sep), sep) == s
  {
    if s != [] {
      var rest := Split(s[1..], sep);
      JoinSplit(s[1..], sep);
      if s[0] == sep {
        assert ([[]] + rest)[1..] == rest;
      } else {
        JoinPrepend(s[0], rest, sep);
      }
      assert s == [s[0]] + s[1..];
    }
  }

  lemma {:induction false} SplitPieceThenSep(p: string, t: string, sep: char)
    requires sep !in p
    ensures Split(p + [sep] + t, sep) == [p] + Split(t, sep)
  {
    if p == [] {
      assert p + [sep] + t == [sep] + t;
      assert ([sep] + t)[1..] == t;
    } else {
      var s := p + [sep] + t;
      assert s[0] == p[0] && s[1..] == p[1..] + [sep] + t;
      SplitPieceThenSep(p[1..], t, sep);
      assert [p[0]] + p[1..] == p;
    }
  }

  lemma {:induction false} SplitWithoutSep(p: string, sep: char)
    requires sep !in p
    ensures Split(p, sep) == [p]
  {
    if p != [] {
      SplitWithoutSep(p[1..], sep);
      assert [p[0]] + p[1..] == p;
    }
  }

  /** Joining pieces that hold no separator and splitting again gives back the pieces. */
  lemma {:induction false} SplitJoin(pieces: seq<string>, sep: char)
    requires |pieces| >= 1
    requires forall i :: 0 <= i < |pieces| ==> sep !in pieces[i]
    ensures Split(Join(pieces, sep), sep) == pieces
  {
    if |pieces| == 1 {
      SplitWithoutSep(pieces[0], sep);
    } else {
      SplitJoin(pieces[1..], sep);
      SplitPieceThenSep(pieces[0], Join(pieces[1..], sep), sep);
      assert [pieces[0]] + pieces[1..] == pieces;
    }
  }

  /** The last piece is empty exactly when the string ends with the separator. */
  lemma {:induction false} LastPieceEmpty(s: string, sep: char)
    requires s != []
    ensures var ps := Split(s, sep); ps[|ps| - 1] == [] <==> s[|s| - 1] == sep
  {
    if |s| > 1 {
      LastPieceEmpty(s[1..], sep);
      assert s[1..][|s| - 2] == s[|s| - 1];
    } else {
      assert s[1..] == [];
    }
  }

  /** The longest prefix that does not end with an empty piece. */
  function DropTrailingEmpty(pieces: seq<string>): (r: seq<string>)
    ensures r <= pieces
    ensures r == [] || r[|r| - 1] != []
    ensures forall i :: |r| <= i < |pieces| ==> pieces[i] == []
  {
    if pieces == [] then []
    else if pieces[|pieces| - 1] == [] then DropTrailingEmpty(pieces[..|pieces| - 1])
    else pieces
  }

  /** Java's `s.split(regex)` for a regex matching exactly `sep`: the pieces
      between separators with trailing empty pieces removed, except that a
      string with no separator at all (the empty string included) is returned
      as the only piece. */
  function JavaSplit(s: string, sep: char): (r: seq<string>)
    ensures sep !in s ==> r == [s]
    ensures sep in s ==> r <= Split(s, sep)
    ensures sep in s ==> r == [] || r[|r| - 1] != []
    ensures sep in s ==> forall i :: |r| <= i < |Split(s, sep)| ==> Split(s, sep)[i] == []
    ensures forall i :: 0 <= i < |r| ==> sep !in r[i]
  {
    if sep !in s then [s] else DropTrailingEmpty(Split(s, sep))
  }

  /** For a string that does not end with the separator, Java's split keeps
      every piece, so joining its pieces gives back the string. */
  lemma JavaSplitKeepsAll(s: string, sep: char)
    requires s != [] && s[|s| - 1] != sep
    ensures JavaSplit(s, sep) == Split(s, sep)
    ensures Join(JavaSplit(s, sep), sep) == s
  {
    if sep in s {
      LastPieceEmpty(s, sep);
    } else {
      SplitWithoutSep(s, sep);
    }
    JoinSplit(s, sep);
  }

  /** A character in no piece, other than the separator, is not in the join. */
  lemma {:induction false} JoinExcludes(pieces: seq<string>, sep: char, c: char)
    requires |pieces| >= 1 && c != sep
    requires forall i :: 0 <= i < |pieces| ==> c !in pieces[i]
    ensures c !in Join(pieces, sep)
  {
    if |pieces| > 1 {
      JoinExcludes(pieces[1..], sep, c);
    }
  }

  /** A join whose last piece is not empty ends with that piece's last character. */
  lemma {:induction false} JoinLastChar(pieces: seq<string>, sep: char)
    requires |pieces| >= 1 && pieces[|pieces| - 1] != []
    ensures var j := Join(pieces, sep); var p := pieces[|pieces| - 1];
      j != [] && j[|j| - 1] == p[|p| - 1]
  {
    if |pieces| > 1 {
      JoinLastChar(pieces[1..], sep);
    }
  }

  /** Java's split undoes a join of separator-free pieces whose last piece is not empty. */
  lemma JavaSplitJoin(pieces: seq<string>, sep: char)
    requires |pieces| >= 1 && pieces[|pieces| - 1] != []
    requires forall i :: 0 <= i < |pieces| ==> sep !in pieces[i]
    ensures JavaSplit(Join(pieces, sep), sep) == pieces
  {
    JoinLastChar(pieces, sep);
    var j := Join(pieces, sep);
    var p := pieces[|pieces| - 1];
    assert p[|p| - 1] != sep by { assert p[|p| - 1] in p; }
    JavaSplitKeepsAll(j, sep);
    SplitJoin(pieces, sep);
  }

  /** Java's `s.replaceAll(quote(c), "")`: every occurrence of `c` removed. */
  function RemoveChar(s: string, c: char): (r: string)
    ensures c !in r
    ensures |r| <= |s|
    ensures multiset(r) == multiset(s)[c := 0]
  {
    if s == [] then []
    else
      assert s == [s[0]] + s[1..];
      (if s[0] == c then [] else [s[0]]) + RemoveChar(s[1..], c)
  }

  lemma {:induction false} RemoveAbsentChar(s: string, c: char)
    requires c !in s
    ensures RemoveChar(s, c) == s
  {
    if s != [] {
      RemoveAbsentChar(s[1..], c);
      assert [s[0]] + s[1..] == s;
    }
  }

  /** Removal distributes over concatenation, so the remaining characters keep their order. */
  lemma {:induction false} RemoveCharConcat(a: string, b: string, c: char)
    ensures RemoveChar(a + b, c) == RemoveChar(a, c) + RemoveChar(b, c)
  {
    if a != [] {
      assert (a + b)[0] == a[0] && (a + b)[1..] == a[1..] + b;
      RemoveCharConcat(a[1..], b, c);
    } else {
      assert a + b == b;
    }
  }

  /** Both parentheses removed, `(` first and then `)`, as parseVector3D does:
      every other character is kept, with its count. */
  function StripParentheses(s: string): (r: string)
    ensures '(' !in r && ')' !in r
    ensures multiset(r) == multiset(s)['(' := 0][')' := 0]
  {
    var t := RemoveChar(s, '(');
    var r := RemoveChar(t, ')');
    assert multiset(r)['('] == multiset(t)['('] == 0;
    r
  }

  /** Stripping distributes over concatenation, so the kept characters keep their order. */
  lemma StripParenthesesConcat(a: string, b: string)
    ensures StripParentheses(a + b) == StripParentheses(a) + StripParentheses(b)
  {
    RemoveCharConcat(a, b, '(');
    RemoveCharConcat(RemoveChar(a, '('), RemoveChar(b, '('), ')');
  }

  /** A parenthesis is stripped; any other character is kept. */
  lemma StripParenthesesSingle(d: char)
    ensures StripParentheses([d]) == if d == '(' || d == ')' then [] else [d]
  {
    RemoveCharSingle(d, '(');
    if d != '(' {
      RemoveCharSingle(d, ')');
    } else {
      assert RemoveChar([], ')') == [];
    }
  }

  lemma StripParenthesesIdempotent(s: string)
    ensures StripParentheses(StripParentheses(s)) == StripParentheses(s)
  {
    var t := StripParentheses(s);
    RemoveAbsentChar(t, '(');
    RemoveAbsentChar(t, ')');
  }

  lemma StripParenthesesNoop(s: string)
    requires '(' !in s && ')' !in s
    ensures StripParentheses(s) == s
  {
    RemoveAbsentChar(s, '(');
    RemoveAbsentChar(s, ')');
  }

  /** Removal from a one-character string. */
  lemma RemoveCharSingle(d: char, c: char)
    ensures RemoveChar([d], c) == if d == c then [] else [d]
  {
    assert [d][1..] == [];
  }

  /** Removing the parentheses around a parenthesis-free string gives the string. */
  lemma StripEnclosingParentheses(s: string)
    requires '(' !in s && ')' !in s
    ensures StripParentheses("(" + s + ")") == s
  {
    var open, close := ['('], [')'];
    var t := open + s;
    StripParenthesesConcat(open, s);
    StripParenthesesConcat(t, close);
    StripParenthesesSingle('(');
    StripParenthesesSingle(')');
    StripParenthesesNoop(s);
    assert StripParentheses(t) == s;
    assert StripParentheses(t + close) == s;
    assert "(" + s + ")" == t + close;
  }
}
