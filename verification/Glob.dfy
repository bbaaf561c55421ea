/** Glob patterns: '*' for any bytes, '?' for one byte, every other byte for itself. */
module Glob {
  import opened CStrings

  const ALL: byte := 42
  const ONE: byte := 63

  /** match_glob; None stands for a null pointer. */
  predicate MatchGlob(str: Option<CString>, glob: Option<CString>) {
    str.Some? && glob.Some? && Match(str.value, glob.value)
  }

  /** The end of a string reads as the terminating NUL, which no pattern byte equals. */
  predicate Match(str: CString, glob: CString)
    decreases |glob|, |str|
  {
    if glob != [] && glob[0] == ALL then
      Match(str, glob[1..]) || (str != [] && Match(str[1..], glob))
    else if str != [] then
      glob != [] && (glob[0] == ONE || str[0] == glob[0]) && Match(str[1..], glob[1..])
    else
      glob == []
  }

  /** What each byte of a pattern may stand for. */
  predicate Stands(piece: CString, g: byte) {
    g == ALL || (|piece| == 1 && (g == ONE || piece[0] == g))
  }

  function Concat(pieces: seq<CString>): CString {
    if pieces == [] then [] else pieces[0] + Concat(pieces[1..])
  }

  /** `pieces` cuts `str` into one piece for each byte of the pattern. */
  ghost predicate Cut(str: CString, glob: CString, pieces: seq<CString>) {
    && |pieces| == |glob|
    && Concat(pieces) == str
    && forall i :: 0 <= i < |glob| ==> Stands(pieces[i], glob[i])
  }

  ghost predicate InLanguage(str: CString, glob: CString) {
    exists pieces :: Cut(str, glob, pieces)
  }

  lemma {:induction false} MatchGivesPieces(str: CString, glob: CString) returns (pieces: seq<CString>)
    requires Match(str, glob)
    ensures Cut(str, glob, pieces)
    decreases |glob|, |str|
  {
    if glob == [] {
      pieces := [];
    } else if glob[0] == ALL {
      if Match(str, glob[1..]) {
        var rest := MatchGivesPieces(str, glob[1..]);
        pieces := [[]] + rest;
        assert Concat(pieces) == [] + Concat(rest);
      } else {
        var rest := MatchGivesPieces(str[1..], glob);
        pieces := [[str[0]] + rest[0]] + rest[1..];
        assert Concat(pieces) == [str[0]] + rest[0] + Concat(rest[1..]);
        assert [str[0]] + rest[0] + Concat(rest[1..]) == [str[0]] + str[1..];
      }
    } else {
      var rest := MatchGivesPieces(str[1..], glob[1..]);
      pieces := [[str[0]]] + rest;
      assert Concat(pieces) == [str[0]] + Concat(rest);
    }
  }

  lemma {:induction false} PiecesMatch(str: CString, glob: CString, pieces: seq<CString>)
    requires Cut(str, glob, pieces)
    ensures Match(str, glob)
    decreases |glob|, |str|
  {
    if glob != [] {
      var first, rest := pieces[0], pieces[1..];
      assert Stands(first, glob[0]);
      assert str == first + Concat(rest);
      if first == [] {
        assert Cut(str, glob[1..], rest);
        PiecesMatch(str, glob[1..], rest);
      } else if glob[0] == ALL {
        var shorter := [first[1..]] + rest;
        assert shorter[1..] == rest;
        assert str[1..] == first[1..] + Concat(rest);
        PiecesMatch(str[1..], glob, shorter);
      } else {
        assert str[1..] == Concat(rest);
        PiecesMatch(str[1..], glob[1..], rest);
      }
    }
  }

  /** A string matches exactly if it is in the language of the pattern; a missing string or
      pattern matches nothing. */
  lemma MatchesExactly(str: Option<CString>, glob: Option<CString>)
    ensures MatchGlob(str, glob) <==> str.Some? && glob.Some? && InLanguage(str.value, glob.value)
  {
    if str.Some? && glob.Some? {
      if Match(str.value, glob.value) {
        var pieces := MatchGivesPieces(str.value, glob.value);
      }
      if InLanguage(str.value, glob.value) {
        var pieces :| Cut(str.value, glob.value, pieces);
        PiecesMatch(str.value, glob.value, pieces);
      }
    }
  }

  lemma {:induction false} StarMatchesAll(str: CString)
    ensures Match(str, [ALL])
  {
    PiecesMatch(str, [ALL], [str]);
  }

  /** Two stars in a row, wherever they are, say no more than one. */
  lemma {:induction false} DoubleStar(str: CString, before: CString, after: CString)
    ensures Match(str, before + [ALL, ALL] + after) <==> Match(str, before + [ALL] + after)
    decreases |before|, |str|
  {
    var two, one := before + [ALL, ALL] + after, before + [ALL] + after;
    if before == [] {
      assert two[1..] == one && one[1..] == after;
      if str != [] {
        DoubleStar(str[1..], before, after);
      }
    } else {
      assert two[1..] == before[1..] + [ALL, ALL] + after;
      assert one[1..] == before[1..] + [ALL] + after;
      DoubleStar(str, before[1..], after);
      if str != [] {
        DoubleStar(str[1..], before, after);
        DoubleStar(str[1..], before[1..], after);
      }
    }
  }

  /** Without a star only strings of the pattern's length match, byte by byte. */
  lemma {:induction false} StarFreeLength(str: CString, glob: CString)
    requires ALL !in glob
    ensures Match(str, glob) <==>
            |str| == |glob| && forall i :: 0 <= i < |glob| ==> glob[i] == ONE || str[i] == glob[i]
  {
    if str != [] && glob != [] {
      StarFreeLength(str[1..], glob[1..]);
      assert glob == [glob[0]] + glob[1..] && str == [str[0]] + str[1..];
      if |str| == |glob| && forall i :: 0 <= i < |glob| ==> glob[i] == ONE || str[i] == glob[i] {
        assert forall i :: 0 <= i < |glob| - 1 ==> glob[1..][i] == glob[i + 1] && str[1..][i] == str[i + 1];
      }
    }
  }
}
