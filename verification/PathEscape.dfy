/** Object path escaping: any byte string becomes one element of a D-Bus object path
    (D-Bus Specification, section "Valid Object Paths"). */
module PathEscape {
  import opened CStrings

  predicate IsAlpha(c: byte) {
    97 <= c <= 122 || 65 <= c <= 90
  }

  predicate IsDigit(c: byte) {
    48 <= c <= 57
  }

  const UNDERSCORE: byte := 95

  function HexChar(x: int): (c: byte)
    requires x >= 0
  {
    var d := x % 16;
    if d < 10 then (48 + d) as byte else (87 + d) as byte
  }

  /** Digits stand for themselves except in front. */
  predicate Plain(c: byte, first: bool) {
    IsAlpha(c) || (!first && IsDigit(c))
  }

  function EscapeByte(c: byte, first: bool): CString {
    if Plain(c, first) then [c] else [UNDERSCORE, HexChar(c as int / 16), HexChar(c as int)]
  }

  function EscapeFrom(s: CString, first: bool): CString {
    if s == [] then [] else EscapeByte(s[0], first) + EscapeFrom(s[1..], false)
  }

  function Escape(s: CString): CString {
    if s == [] then [UNDERSCORE] else EscapeFrom(s, true)
  }

  const HEX := "0123456789abcdef"

  /** A byte that may not stand for itself becomes an underscore and its two hexadecimal digits,
      in lower case; letters stand for themselves, and digits except in front. */
  lemma EscapedByte(c: byte, first: bool)
    ensures var plain := ('a' as int <= c as int <= 'z' as int) || ('A' as int <= c as int <= 'Z' as int)
                         || (!first && '0' as int <= c as int <= '9' as int);
      && (plain ==> EscapeByte(c, first) == [c])
      && (!plain ==>
            && |EscapeByte(c, first)| == 3 && EscapeByte(c, first)[0] as int == '_' as int
            && EscapeByte(c, first)[1] as int == HEX[c as int / 16] as int
            && EscapeByte(c, first)[2] as int == HEX[c as int % 16] as int)
  {
    HexDigit(c as int / 16);
    HexDigit(c as int % 16);
  }

  lemma HexDigit(x: int)
    requires 0 <= x < 16
    ensures HexChar(x) as int == HEX[x] as int
  {
    assert HEX[0] == '0' && HEX[1] == '1' && HEX[2] == '2' && HEX[3] == '3' && HEX[4] == '4' && HEX[5] == '5';
    assert HEX[6] == '6' && HEX[7] == '7' && HEX[8] == '8' && HEX[9] == '9' && HEX[10] == 'a' && HEX[11] == 'b';
    assert HEX[12] == 'c' && HEX[13] == 'd' && HEX[14] == 'e' && HEX[15] == 'f';
  }

  /** The escape is that of the bytes, one after the other, and an underscore for none. */
  lemma {:induction false} EscapeConcat(s: CString, more: CString)
    requires s != []
    ensures Escape(s + more) == Escape(s) + EscapeFrom(more, false)
    ensures Escape([]) == Ascii("_")
  {
    EscapeFromConcat(s, more, true);
  }

  lemma {:induction false} EscapeFromConcat(s: CString, more: CString, first: bool)
    requires s != []
    ensures EscapeFrom(s + more, first) == EscapeFrom(s, first) + EscapeFrom(more, false)
  {
    assert (s + more)[1..] == s[1..] + more;
    if |s| > 1 {
      EscapeFromConcat(s[1..], more, false);
    } else {
      assert EscapeFrom(s, first) == EscapeByte(s[0], first) + [];
    }
  }

  lemma EscapeStep(done: CString, s: CString, f: nat)
    requires f < |s|
    ensures done + EscapeFrom(s[f..], f == 0)
              == (done + EscapeByte(s[f], f == 0)) + EscapeFrom(s[f + 1..], false)
  {
    assert s[f..][1..] == s[f + 1..];
  }

  /** Writes the escaped string and a terminating NUL into a buffer of 3 * |s| + 1 bytes. */
  method BusPathEscape(s: CString) returns (r: array<byte>, len: nat)
    ensures fresh(r)
    ensures len < r.Length && r[len] == 0
    ensures r[..len] == Escape(s)
  {
    if s == [] {
      r := new byte[2] [UNDERSCORE, 0];
      len := 1;
      return;
    }
    r := new byte[|s| * 3 + 1];
    var t, f := 0, 0;
    while f < |s|
      invariant 0 <= f <= |s| && 0 <= t <= 3 * f
      invariant r[..t] + EscapeFrom(s[f..], f == 0) == EscapeFrom(s, true)
    {
      ghost var done := r[..t];
      var c := s[f];
      if !IsAlpha(c) && !(f > 0 && IsDigit(c)) {
        r[t] := UNDERSCORE;
        r[t + 1] := HexChar(c as int / 16);
        r[t + 2] := HexChar(c as int);
        t := t + 3;
      } else {
        r[t] := c;
        t := t + 1;
      }
      assert r[..t] == done + EscapeByte(c, f == 0);
      EscapeStep(done, s, f);
      f := f + 1;
    }
    r[t] := 0;
    len := t;
    assert r[..t] + [] == r[..t];
  }

  // ---------------------------------------------------------------- what is written

  predicate PathByte(c: byte) {
    IsAlpha(c) || IsDigit(c) || c == UNDERSCORE
  }

  lemma {:induction false} EscapeFromAlphabet(s: CString, first: bool)
    ensures forall c :: c in EscapeFrom(s, first) ==> PathByte(c)
    ensures |s| <= |EscapeFrom(s, first)| <= 3 * |s|
  {
    if s != [] {
      EscapeFromAlphabet(s[1..], false);
    }
  }

  /** The result is a non-empty path element and fits the buffer. */
  lemma EscapeIsPathElement(s: CString)
    ensures Escape(s) != []
    ensures forall c :: c in Escape(s) ==> PathByte(c)
    ensures |Escape(s)| + 1 <= if s == [] then 2 else 3 * |s| + 1
  {
    EscapeFromAlphabet(s, true);
  }

  // ---------------------------------------------------------------- decoding

  function HexValue(c: byte): int {
    if IsDigit(c) then c as int - 48 else if 97 <= c <= 102 then c as int - 87 else 0
  }

  function Decode(r: CString): CString {
    if r == [] then []
    else if r[0] == UNDERSCORE && |r| >= 3 then [(HexValue(r[1]) * 16 + HexValue(r[2])) as byte] + Decode(r[3..])
    else [r[0]] + Decode(r[1..])
  }

  function Unescape(r: CString): CString {
    if r == [UNDERSCORE] then [] else Decode(r)
  }

  lemma HexDigits(c: byte)
    ensures HexValue(HexChar(c as int / 16)) * 16 + HexValue(HexChar(c as int)) == c as int
  {
  }

  lemma {:induction false} DecodeEscape(s: CString, first: bool)
    ensures Decode(EscapeFrom(s, first)) == s
  {
    if s != [] {
      var rest := EscapeFrom(s[1..], false);
      DecodeEscape(s[1..], false);
      if Plain(s[0], first) {
        assert ([s[0]] + rest)[1..] == rest;
      } else {
        HexDigits(s[0]);
        var e := EscapeByte(s[0], first);
        assert (e + rest)[3..] == rest;
        assert (e + rest)[0] == UNDERSCORE && (e + rest)[1] == e[1] && (e + rest)[2] == e[2];
      }
    }
  }

  /** Escaping loses nothing. */
  lemma UnescapeEscape(s: CString)
    ensures Unescape(Escape(s)) == s
  {
    if s != [] {
      DecodeEscape(s, true);
      EscapeFromAlphabet(s[1..], false);
      assert EscapeFrom(s, true)[0] == UNDERSCORE ==> |EscapeFrom(s, true)| >= 3;
    }
  }

  lemma EscapeInjective(a: CString, b: CString)
    requires Escape(a) == Escape(b)
    ensures a == b
  {
    UnescapeEscape(a);
    UnescapeEscape(b);
  }

  // ---------------------------------------------------------------- object paths

  const SYSTEMD_OBJECT_PATH: CString := Ascii("/org/freedesktop/systemd1")

  function AssembleObjectPath(prefix: CString, name: CString): CString {
    prefix + Ascii("/") + Escape(name)
  }

  function MakeUnitPath(unit: CString): CString {
    SYSTEMD_OBJECT_PATH + Ascii("/unit/") + Escape(unit)
  }

  /** The agent's own way to make a unit path gives what systemd calls are addressed to. */
  lemma UnitPathsAgree(unit: CString)
    ensures MakeUnitPath(unit) == AssembleObjectPath(SYSTEMD_OBJECT_PATH + Ascii("/unit"), unit)
  {
    assert Ascii("/unit") + Ascii("/") == Ascii("/unit/");
  }

  /** Objects with different names never share a path. */
  lemma ObjectPathsDiffer(prefix: CString, a: CString, b: CString)
    requires AssembleObjectPath(prefix, a) == AssembleObjectPath(prefix, b)
    ensures a == b
  {
    var p := prefix + Ascii("/");
    assert Escape(a) == (p + Escape(a))[|p|..];
    assert Escape(b) == (p + Escape(b))[|p|..];
    EscapeInjective(a, b);
  }

  lemma UnitPathsDiffer(a: CString, b: CString)
    requires MakeUnitPath(a) == MakeUnitPath(b)
    ensures a == b
  {
    UnitPathsAgree(a);
    UnitPathsAgree(b);
    ObjectPathsDiffer(SYSTEMD_OBJECT_PATH + Ascii("/unit"), a, b);
  }
}
