/** `incrementVersion` of the build scripts: split a version string on '.',
    replace component 2 by its integer value plus one, join it back. */
module BuildUtils {
  import opened Wrappers

  /** `s.split('.')`: the pieces between the dots, at least one. */
  function Split(s: string): (parts: seq<string>)
    ensures |parts| >= 1
    ensures forall i :: 0 <= i < |parts| ==> '.' !in parts[i]
    decreases |s|
  {
    if s == [] then [""]
    else
      var rest := Split(s[1..]);
      if s[0] == '.' then [""] + rest else [[s[0]] + rest[0]] + rest[1..]
  }

  /** `parts.join('.')`; an empty array joins to the empty string. */
  function Join(parts: seq<string>): string
    decreases |parts|
  {
    if |parts| == 0 then ""
    else if |parts| == 1 then parts[0]
    else parts[0] + "." + Join(parts[1..])
  }

  /** Joining the pieces of a split gives the string back. */
  lemma {:induction false} JoinSplit(s: string)
    ensures Join(Split(s)) == s
    decreases |s|
  {
    if s != [] {
      JoinSplit(s[1..]);
      var rest := Split(s[1..]);
      if s[0] == '.' {
        assert Split(s) == [""] + rest;
        assert s == "" + "." + s[1..];
      } else {
        JoinFirst([s[0]], rest);
        assert s == [s[0]] + s[1..];
      }
    }
  }

  /** Concatenation regroups. */
  lemma Regroup(x: string, y: string, z: string)
    ensures (x + y) + z == x + (y + z)
  {
    var l, r := (x + y) + z, x + (y + z);
    assert |l| == |r|;
    forall i | 0 <= i < |l|
      ensures l[i] == r[i]
    {
      if i < |x| {
        assert l[i] == x[i] && r[i] == x[i];
      }
    }
  }

  /** Prefixing the first piece prefixes the joined string. */
  lemma JoinFirst(c: string, parts: seq<string>)
    requires |parts| >= 1
    ensures Join([c + parts[0]] + parts[1..]) == c + Join(parts)
  {
    var q := [c + parts[0]] + parts[1..];
    assert q[0] == c + parts[0] && q[1..] == parts[1..];
    if |parts| > 1 {
      var tail := "." + Join(parts[1..]);
      assert Join(q) == (c + parts[0]) + "." + Join(parts[1..]);
      Regroup(c + parts[0], ".", Join(parts[1..]));
      Regroup(parts[0], ".", Join(parts[1..]));
      Regroup(c, parts[0], tail);
    }
  }

  /** Splitting a join of dot-free pieces gives the pieces back. */
  lemma {:induction false} SplitJoin(parts: seq<string>)
    requires |parts| >= 1
    requires forall i :: 0 <= i < |parts| ==> '.' !in parts[i]
    ensures Split(Join(parts)) == parts
    decreases |parts|, |parts[0]|
  {
    if parts[0] == [] {
      if |parts| > 1 {
        SplitJoin(parts[1..]);
        assert Join(parts) == "." + Join(parts[1..]);
        assert Join(parts)[1..] == Join(parts[1..]);
        assert parts == [""] + parts[1..];
      }
    } else {
      var p0 := parts[0];
      var shorter := [p0[1..]] + parts[1..];
      forall i | 0 <= i < |shorter|
        ensures '.' !in shorter[i]
      {
        if i == 0 {
          assert forall c :: c in p0[1..] ==> c in p0;
        } else {
          assert shorter[i] == parts[i];
        }
      }
      SplitJoin(shorter);
      assert shorter[1..] == parts[1..];
      assert shorter[0] == p0[1..];
      JoinFirst([p0[0]], shorter);
      assert [p0[0]] + p0[1..] == p0;
      assert [[p0[0]] + shorter[0]] + shorter[1..] == parts;
      var j := Join(parts);
      assert j == [p0[0]] + Join(shorter);
      assert j[1..] == Join(shorter);
      assert j[0] == p0[0] && p0[0] != '.';
    }
  }

  /** The characters `parseInt` skips before the number: the StrWhiteSpaceChar
      set of ECMAScript (tab, vertical tab, form feed, space, no-break space,
      the byte-order mark, every space separator, and the line terminators). */
  predicate IsJsSpace(c: char)
  {
    c == '\t' || c == '\n' || c == '\U{000B}' || c == '\U{000C}' || c == '\r' || c == ' '
    || c == '\U{00A0}' || c == '\U{1680}' || ('\U{2000}' <= c <= '\U{200A}')
    || c == '\U{2028}' || c == '\U{2029}' || c == '\U{202F}' || c == '\U{205F}'
    || c == '\U{3000}' || c == '\U{FEFF}'
  }

  /** The string with its leading whitespace removed. */
  function TrimStart(s: string): (t: string)
    ensures |t| <= |s| && t == s[|s| - |t|..]
    ensures |t| > 0 ==> !IsJsSpace(t[0])
    ensures forall i :: 0 <= i < |s| - |t| ==> IsJsSpace(s[i])
  {
    if |s| > 0 && IsJsSpace(s[0]) then TrimStart(s[1..]) else s
  }

  /** The value of a digit in radix 36 notation: 0-9, then letters of either case; 36 for anything else. */
  function DigitValue(c: char): (v: nat)
    ensures v <= 36
  {
    if '0' <= c <= '9' then c as int - '0' as int
    else if 'a' <= c <= 'z' then c as int - 'a' as int + 10
    else if 'A' <= c <= 'Z' then c as int - 'A' as int + 10
    else 36
  }

  /** Length of the longest prefix of `s` made of digits of `radix`. */
  function DigitRun(s: string, radix: nat): (k: nat)
    ensures k <= |s|
    ensures forall i :: 0 <= i < k ==> DigitValue(s[i]) < radix
    ensures k < |s| ==> DigitValue(s[k]) >= radix
  {
    if |s| > 0 && DigitValue(s[0]) < radix then 1 + DigitRun(s[1..], radix) else 0
  }

  /** The value of a string of digits in `radix`, most significant first. */
  function DigitsValue(ds: string, radix: nat): nat
    decreases |ds|
  {
    if |ds| == 0 then 0
    else DigitsValue(ds[..|ds| - 1], radix) * radix + DigitValue(ds[|ds| - 1])
  }

  /** `parseInt(s)` with no radix, None standing for NaN: leading whitespace is
      skipped, then an optional sign, then with a `0x`/`0X` prefix hexadecimal
      digits and otherwise decimal ones, as many as there are; no digit gives NaN. */
  function ParseInt(s: string): Option<int>
  {
    var t := TrimStart(s);
    var negative := |t| > 0 && t[0] == '-';
    var u := if |t| > 0 && (t[0] == '-' || t[0] == '+') then t[1..] else t;
    var hex := |u| >= 2 && u[0] == '0' && (u[1] == 'x' || u[1] == 'X');
    var radix := if hex then 16 else 10;
    var body := if hex then u[2..] else u;
    var k := DigitRun(body, radix);
    if k == 0 then None
    else
      var magnitude: int := DigitsValue(body[..k], radix);
      Some(if negative then -magnitude else magnitude)
  }

  /** The decimal digit character of `d`. */
  function DigitChar(d: nat): (c: char)
    requires d < 10
    ensures DigitValue(c) == d
  {
    "0123456789"[d]
  }

  /** `n.toString()` for a natural number: its decimal digits, no leading zero. */
  function NatToString(n: nat): (s: string)
    ensures |s| >= 1
    ensures forall i :: 0 <= i < |s| ==> DigitValue(s[i]) < 10
    ensures s[0] == '0' ==> n == 0
    decreases n
  {
    if n < 10 then [DigitChar(n)] else NatToString(n / 10) + [DigitChar(n % 10)]
  }

  /** `x.toString()` for an integer. */
  function IntToString(x: int): string
  {
    if x < 0 then "-" + NatToString(-x) else NatToString(x)
  }

  /** The new third component: the parsed value plus one, rendered; NaN stays NaN. */
  function Bumped(v: Option<int>): string
  {
    if v.Some? then IntToString(v.value + 1) else "NaN"
  }

  /** `incrementVersion(version)`. With fewer than three components,
      assigning index 2 extends the array; a skipped index 1 is a hole that
      joining renders as the empty string, and parsing the missing third piece gives NaN. */
  function IncrementVersion(version: string): string
  {
    var parts := Split(version);
    if |parts| > 2 then Join(parts[2 := Bumped(ParseInt(parts[2]))])
    else Join(parts + (if |parts| == 1 then [""] else []) + ["NaN"])
  }

  /** The decimal digits of `n` read back give `n`. */
  lemma {:induction false} NatToStringValue(n: nat)
    ensures DigitsValue(NatToString(n), 10) == n
    decreases n
  {
    if n >= 10 {
      NatToStringValue(n / 10);
      var s := NatToString(n);
      assert s[..|s| - 1] == NatToString(n / 10);
    }
  }

  /** A rendering never holds a dot. */
  lemma BumpedHasNoDot(v: Option<int>)
    ensures '.' !in Bumped(v)
  {
    if v.Some? {
      var x := v.value + 1;
      var digits := NatToString(if x < 0 then -x else x);
      assert forall i :: 0 <= i < |digits| ==> digits[i] != '.';
    }
  }

  /** With at least three components, the result has the same components
      except component 2, which is the rendering of its value plus one. */
  lemma IncrementComponents(version: string)
    requires |Split(version)| >= 3
    ensures var parts := Split(version);
      Split(IncrementVersion(version)) == parts[2 := Bumped(ParseInt(parts[2]))]
  {
    var parts := Split(version);
    var bumped := parts[2 := Bumped(ParseInt(parts[2]))];
    BumpedHasNoDot(ParseInt(parts[2]));
    assert forall i :: 0 <= i < |bumped| ==> '.' !in bumped[i];
    SplitJoin(bumped);
  }

  /** The component count is kept from three components on; other components are untouched. */
  lemma IncrementKeepsOthers(version: string, i: int)
    requires |Split(version)| >= 3 && 0 <= i < |Split(version)| && i != 2
    ensures |Split(IncrementVersion(version))| == |Split(version)|
    ensures Split(IncrementVersion(version))[i] == Split(version)[i]
  {
    IncrementComponents(version);
  }

  /** With one or two components the result gains components up to index 2, which is "NaN". */
  lemma IncrementShortVersion(version: string)
    requires |Split(version)| < 3
    ensures var parts := Split(version);
      Split(IncrementVersion(version)) == parts + (if |parts| == 1 then [""] else []) + ["NaN"]
  {
    var parts := Split(version);
    var extended := parts + (if |parts| == 1 then [""] else []) + ["NaN"];
    assert forall i :: 0 <= i < |extended| ==> '.' !in extended[i];
    SplitJoin(extended);
  }

  /** A string starting with a decimal digit is not trimmed, has no sign,
      and is read in decimal unless it starts with `0x` or `0X`. */
  lemma ParseDecimal(s: string)
    requires |s| > 0 && DigitValue(s[0]) < 10
    requires !(|s| >= 2 && s[0] == '0' && (s[1] == 'x' || s[1] == 'X'))
    ensures var k := DigitRun(s, 10);
      ParseInt(s) == if k == 0 then None else Some(DigitsValue(s[..k], 10))
  {
    assert !IsJsSpace(s[0]);
    assert TrimStart(s) == s;
  }

  /** `parseInt` reads a decimal rendering back, ignoring whatever follows it
      from the first character that is not a decimal digit; after a lone `0`
      that character must not be an `x`, which would make a hexadecimal prefix. */
  lemma ParseRendering(n: nat, tail: string)
    requires |tail| > 0 ==> DigitValue(tail[0]) >= 10
    requires n == 0 && |tail| > 0 ==> tail[0] != 'x' && tail[0] != 'X'
    ensures ParseInt(NatToString(n) + tail) == Some(n)
  {
    var ds := NatToString(n);
    var s := ds + tail;
    assert s[0] == ds[0];
    if |s| >= 2 && s[0] == '0' {
      assert n == 0 && |ds| == 1;
      assert s[1] == tail[0];
    }
    ParseDecimal(s);
    DigitRunPrefix(ds, tail);
    assert s[..|ds|] == ds;
    NatToStringValue(n);
  }

  /** A string whose first character is no whitespace, sign or decimal digit reads as NaN. */
  lemma ParseNoDigit(s: string)
    requires |s| > 0 ==> !IsJsSpace(s[0]) && s[0] != '-' && s[0] != '+' && DigitValue(s[0]) >= 10
    ensures ParseInt(s).None?
  {
    assert TrimStart(s) == s;
    if |s| > 0 {
      assert s[0] != '0';
      assert DigitRun(s, 10) == 0;
    }
  }

  lemma {:induction false} DigitRunPrefix(ds: string, tail: string)
    requires forall i :: 0 <= i < |ds| ==> DigitValue(ds[i]) < 10
    requires |tail| > 0 ==> DigitValue(tail[0]) >= 10
    ensures DigitRun(ds + tail, 10) == |ds|
    decreases |ds|
  {
    if |ds| > 0 {
      DigitRunPrefix(ds[1..], tail);
      assert (ds + tail)[1..] == ds[1..] + tail;
    } else {
      assert ds + tail == tail;
    }
  }

  /** The three-component join spelled out. */
  lemma Join3(a: string, b: string, c: string)
    ensures Join([a, b, c]) == a + "." + b + "." + c
  {
    assert [a, b, c][1..] == [b, c];
    assert [b, c][1..] == [c];
    assert Join([b, c]) == b + "." + c;
    assert Join([a, b, c]) == a + "." + (b + "." + c);
    Regroup(a + ".", b + ".", c);
    Regroup(a + ".", b, ".");
  }

  /** A version whose components are given: `major.minor.patch` split back. */
  lemma SplitThree(a: string, b: string, c: string)
    requires '.' !in a && '.' !in b && '.' !in c
    ensures Split(Join([a, b, c])) == [a, b, c]
  {
    SplitJoin([a, b, c]);
  }

  /** A rendering holds no dot. */
  lemma NatToStringNoDot(n: nat)
    ensures '.' !in NatToString(n)
  {
    var s := NatToString(n);
    assert forall i :: 0 <= i < |s| ==> s[i] != '.';
  }

  /** `major.minor.n` becomes `major.minor.(n+1)`. */
  lemma IncrementCanonical(major: string, minor: string, n: nat)
    requires '.' !in major && '.' !in minor
    ensures IncrementVersion(major + "." + minor + "." + NatToString(n))
      == major + "." + minor + "." + NatToString(n + 1)
  {
    IncrementDropsSuffix(major, minor, n, "");
    assert NatToString(n) + "" == NatToString(n);
  }

  /** Two increments of `major.minor.n` add two. */
  lemma IncrementTwice(major: string, minor: string, n: nat)
    requires '.' !in major && '.' !in minor
    ensures IncrementVersion(IncrementVersion(major + "." + minor + "." + NatToString(n)))
      == major + "." + minor + "." + NatToString(n + 2)
  {
    IncrementCanonical(major, minor, n);
    IncrementCanonical(major, minor, n + 1);
  }

  /** A suffix after the number is dropped: `1.2.3-beta` becomes `1.2.4`. */
  lemma IncrementDropsSuffix(major: string, minor: string, n: nat, tail: string)
    requires '.' !in major && '.' !in minor && '.' !in tail
    requires |tail| > 0 ==> DigitValue(tail[0]) >= 10
    requires n == 0 && |tail| > 0 ==> tail[0] != 'x' && tail[0] != 'X'
    ensures IncrementVersion(major + "." + minor + "." + (NatToString(n) + tail))
      == major + "." + minor + "." + NatToString(n + 1)
  {
    var c := NatToString(n) + tail;
    NatToStringNoDot(n);
    assert '.' !in c;
    SplitThree(major, minor, c);
    ParseRendering(n, tail);
    assert [major, minor, c][2 := NatToString(n + 1)] == [major, minor, NatToString(n + 1)];
    Join3(major, minor, c);
    Join3(major, minor, NatToString(n + 1));
  }

  /** A third component that does not start with a number, such as `beta`
      or an empty one, becomes `NaN`. */
  lemma IncrementNonNumeric(major: string, minor: string, patch: string)
    requires '.' !in major && '.' !in minor && '.' !in patch
    requires |patch| > 0 ==> !IsJsSpace(patch[0]) && patch[0] != '-' && patch[0] != '+' && DigitValue(patch[0]) >= 10
    ensures IncrementVersion(major + "." + minor + "." + patch) == major + "." + minor + ".NaN"
  {
    SplitThree(major, minor, patch);
    ParseNoDigit(patch);
    assert [major, minor, patch][2 := "NaN"] == [major, minor, "NaN"];
    Join3(major, minor, patch);
    Join3(major, minor, "NaN");
    Regroup(major + "." + minor, ".", "NaN");
  }
}
