/** Facts about strings shared by the modules that build identifiers by joining segments. */
module Text {
  import opened Seqs

  ghost predicate Free(c: char, s: string) {
    c !in s
  }

  /** Splitting at the last separator is unambiguous. */
  lemma LastSeparatorSplits(sep: char, a: string, b: string, a': string, b': string)
    requires Free(sep, b) && Free(sep, b')
    requires a + [sep] + b == a' + [sep] + b'
    ensures a == a' && b == b'
  {
    var s := a + [sep] + b;
    assert s[|a|] == sep && s[|a'|] == sep;
    assert forall i :: |a| < i < |s| ==> s[i] == b[i - |a| - 1];
    assert forall i :: |a'| < i < |s| ==> s[i] == b'[i - |a'| - 1];
    assert |a| == |a'|;
    assert a == s[..|a|] && a' == s[..|a'|];
    assert b == s[|a| + 1..] && b' == s[|a'| + 1..];
  }

  /** Around a single slash, a spelling can be read back. */
  lemma OneSlash(a: string, b: string, c: string, d: string)
    requires Free('/', c) && Free('/', d) && a + "/" + b == c + "/" + d
    ensures a == c && b == d
  {
    var text := c + "/" + d;
    assert text[|a|] == '/' && text[|c|] == '/';
    assert forall i :: 0 <= i < |c| ==> text[i] == c[i];
    assert forall i :: 0 <= i < |d| ==> text[|c| + 1 + i] == d[i];
    assert a == text[..|a|] && b == text[|a| + 1..] && c == text[..|c|] && d == text[|c| + 1..];
  }

  /** Splitting at the first separator is unambiguous. */
  lemma FirstSeparatorSplits(sep: char, a: string, b: string, a': string, b': string)
    requires Free(sep, a) && Free(sep, a')
    requires a + [sep] + b == a' + [sep] + b'
    ensures a == a' && b == b'
  {
    var s := a + [sep] + b;
    assert s[|a|] == sep && s[|a'|] == sep;
    assert forall i :: 0 <= i < |a| ==> s[i] == a[i];
    assert forall i :: 0 <= i < |a'| ==> s[i] == a'[i];
    assert |a| == |a'|;
    assert a == s[..|a|] && a' == s[..|a'|];
    assert b == s[|a| + 1..] && b' == s[|a'| + 1..];
  }

  /** split of JavaScript strings on a one-character separator. */
  function Split(s: string, sep: char): (pieces: seq<string>)
    ensures pieces != []
  {
    if s == [] then [[]]
    else
      var rest := Split(s[1..], sep);
      if s[0] == sep then [[]] + rest else [[s[0]] + rest[0]] + rest[1..]
  }

  /** join of JavaScript arrays of strings. */
  function Join(pieces: seq<string>, sep: char): string {
    if pieces == [] then []
    else if |pieces| == 1 then pieces[0]
    else pieces[0] + [sep] + Join(pieces[1..], sep)
  }

  lemma {:induction false} SplitAtFirst(piece: string, rest: string, sep: char)
    requires Free(sep, piece)
    ensures Split(piece + [sep] + rest, sep) == [piece] + Split(rest, sep)
    decreases piece
  {
    var s := piece + [sep] + rest;
    if piece == [] {
      assert s[1..] == rest;
    } else {
      assert s[1..] == piece[1..] + [sep] + rest;
      SplitAtFirst(piece[1..], rest, sep);
      assert [piece[0]] + piece[1..] == piece;
    }
  }

  lemma {:induction false} SplitWhole(piece: string, sep: char)
    requires Free(sep, piece)
    ensures Split(piece, sep) == [piece]
  {
    if piece != [] {
      SplitWhole(piece[1..], sep);
      assert [piece[0]] + piece[1..] == piece;
    }
  }

  /** Splitting undoes joining when the pieces are free of the separator ... */
  lemma {:induction false} SplitInvertsJoin(pieces: seq<string>, sep: char)
    requires pieces != [] && forall piece :: piece in pieces ==> Free(sep, piece)
    ensures Split(Join(pieces, sep), sep) == pieces
  {
    if |pieces| == 1 {
      SplitWhole(pieces[0], sep);
    } else {
      SplitAtFirst(pieces[0], Join(pieces[1..], sep), sep);
      SplitInvertsJoin(pieces[1..], sep);
    }
  }

  /** ... and joining undoes splitting always. */
  lemma {:induction false} JoinInvertsSplit(s: string, sep: char)
    ensures Join(Split(s, sep), sep) == s
    ensures forall piece :: piece in Split(s, sep) ==> Free(sep, piece)
  {
    if s != [] {
      var rest := Split(s[1..], sep);
      JoinInvertsSplit(s[1..], sep);
      assert [s[0]] + s[1..] == s;
      if s[0] == sep {
        TakeDrop([[]], rest);
      } else {
        var head := [s[0]] + rest[0];
        TakeDrop([head], rest[1..]);
        assert rest[0] in rest && Free(sep, head);
        if |rest| > 1 {
          Assoc([s[0]], rest[0], [sep] + Join(rest[1..], sep));
          Assoc(rest[0], [sep], Join(rest[1..], sep));
          Assoc(head, [sep], Join(rest[1..], sep));
        }
      }
    }
  }
}
