/** The parts of Python's `str` behaviour the model relies on, restricted to ASCII text:
    `split` on one character, `join`, `strip`, `lower`/`upper`, `isdigit`, `int()` and
    decimal/hexadecimal rendering. */
module Strings {
  import opened Wrappers

  predicate IsDigitChar(c: char) { '0' <= c <= '9' }

  /** `s.isdigit()` for ASCII text: non-empty and only decimal digits. */
  predicate IsDigits(s: string) { |s| > 0 && forall i :: 0 <= i < |s| ==> IsDigitChar(s[i]) }

  function DigitValue(c: char): nat
    requires IsDigitChar(c)
  {
    (c as int) - ('0' as int)
  }

  function DigitChar(d: nat): (c: char)
    requires d < 10
    ensures IsDigitChar(c) && DigitValue(c) == d
  {
    (('0' as int) + d) as char
  }

  /** The value of a string of decimal digits, most significant first. */
  function DigitsValue(s: string): nat
    requires forall i :: 0 <= i < |s| ==> IsDigitChar(s[i])
  {
    if |s| == 0 then 0 else DigitsValue(s[..|s| - 1]) * 10 + DigitValue(s[|s| - 1])
  }

  /** `str(n)` for a natural number. */
  function NatToString(n: nat): (s: string)
    ensures IsDigits(s)
    ensures |s| > 1 ==> s[0] != '0'
    decreases n
  {
    if n < 10 then [DigitChar(n)] else NatToString(n / 10) + [DigitChar(n % 10)]
  }

  lemma {:induction false} NatToStringValue(n: nat)
    ensures DigitsValue(NatToString(n)) == n
    decreases n
  {
    if n >= 10 {
      NatToStringValue(n / 10);
      var s := NatToString(n);
      assert s[..|s| - 1] == NatToString(n / 10);
    }
  }

  /** Numbers below 1000 have at most three digits. */
  lemma NatToStringShort(n: nat)
    requires n < 1000
    ensures |NatToString(n)| <= 3
  {
    if n >= 10 {
      assert |NatToString(n / 10)| <= 2 by {
        if n / 10 >= 10 {
          assert |NatToString(n / 100)| == 1;
        }
      }
    }
  }

  /** A digit string without a leading zero has a positive value. */
  lemma {:induction false} DigitsPositive(s: string)
    requires IsDigits(s) && s[0] != '0'
    ensures DigitsValue(s) > 0
    decreases |s|
  {
    if |s| > 1 {
      DigitsPositive(s[..|s| - 1]);
    }
  }

  /** `str(int(s))` gives back a digit string that has no leading zero. */
  lemma {:induction false} NatToStringOfDigits(s: string)
    requires IsDigits(s)
    requires |s| > 1 ==> s[0] != '0'
    ensures NatToString(DigitsValue(s)) == s
    decreases |s|
  {
    var last := s[|s| - 1];
    if |s| == 1 {
      assert DigitChar(DigitValue(last)) == last;
    } else {
      var init := s[..|s| - 1];
      DigitsPositive(init);
      NatToStringOfDigits(init);
      var n := DigitsValue(s);
      assert n / 10 == DigitsValue(init) && n % 10 == DigitValue(last);
      assert DigitChar(DigitValue(last)) == last;
      assert init + [last] == s;
    }
  }

  /** A character that is not a digit does not occur in a string of digits. */
  lemma NotInDigits(s: string, c: char)
    requires forall i :: 0 <= i < |s| ==> IsDigitChar(s[i])
    requires !IsDigitChar(c)
    ensures c !in s
  {
  }

  /** `str(i)` for an integer. */
  function IntToString(i: int): string
  {
    if i < 0 then "-" + NatToString(-i) else NatToString(i)
  }

  /** `str(value)` for an optional text: None is rendered "None". */
  function PyStr(value: Option<string>): string
  {
    if value.Some? then value.value else "None"
  }

  /** `c.isspace()` on ASCII: space, \t, \n, \v, \f, \r and the separators \x1c to \x1f. */
  predicate IsSpace(c: char)
  {
    c == ' ' || c == '\t' || c == '\n' || c == '\r' || c as int == 11 || c as int == 12 || 28 <= c as int <= 31
  }

  function TrimLeft(s: string): (r: string)
    ensures |r| <= |s| && r == s[|s| - |r|..]
    ensures |r| > 0 ==> !IsSpace(r[0])
    ensures forall i :: 0 <= i < |s| - |r| ==> IsSpace(s[i])
  {
    if |s| > 0 && IsSpace(s[0]) then
      var r := TrimLeft(s[1..]);
      assert s[|s| - |r|..] == s[1..][|s| - 1 - |r|..];
      assert forall i :: 1 <= i < |s| - |r| ==> IsSpace(s[i]) by {
        forall i | 1 <= i < |s| - |r| ensures IsSpace(s[i]) { assert s[i] == s[1..][i - 1]; }
      }
      r
    else s
  }

  function TrimRight(s: string): (r: string)
    ensures |r| <= |s| && r == s[..|r|]
    ensures |r| > 0 ==> !IsSpace(r[|r| - 1])
    ensures forall i :: |r| <= i < |s| ==> IsSpace(s[i])
  {
    if |s| > 0 && IsSpace(s[|s| - 1]) then TrimRight(s[..|s| - 1]) else s
  }

  /** `s.strip()`: leading and trailing whitespace removed. */
  function Strip(s: string): (r: string)
    ensures |r| > 0 ==> !IsSpace(r[0]) && !IsSpace(r[|r| - 1])
  {
    TrimRight(TrimLeft(s))
  }

  function LowerChar(c: char): char { if 'A' <= c <= 'Z' then (c as int + 32) as char else c }
  function UpperChar(c: char): char { if 'a' <= c <= 'z' then (c as int - 32) as char else c }

  /** `s.lower()` on ASCII letters. */
  function Lower(s: string): (r: string)
    ensures |r| == |s| && forall i :: 0 <= i < |s| ==> r[i] == LowerChar(s[i])
  {
    if |s| == 0 then [] else [LowerChar(s[0])] + Lower(s[1..])
  }

  /** `s.upper()` on ASCII letters. */
  function Upper(s: string): (r: string)
    ensures |r| == |s| && forall i :: 0 <= i < |s| ==> r[i] == UpperChar(s[i])
  {
    if |s| == 0 then [] else [UpperChar(s[0])] + Upper(s[1..])
  }

  /** `s.split(sep)` for a one-character separator: n separators give n + 1 pieces. */
  function Split(s: string, sep: char): (r: seq<string>)
    ensures |r| >= 1
    ensures forall k :: 0 <= k < |r| ==> sep !in r[k]
    decreases |s|
  {
    if |s| == 0 then [""]
    else
      var rest := Split(s[1..], sep);
      if s[0] == sep then [""] + rest else [[s[0]] + rest[0]] + rest[1..]
  }

  /** A string without the separator splits into itself alone. */
  lemma {:induction false} SplitNoSep(s: string, sep: char)
    requires sep !in s
    ensures Split(s, sep) == [s]
    decreases |s|
  {
    if |s| > 0 {
      SplitNoSep(s[1..], sep);
      assert [s[0]] + s[1..] == s;
    }
  }

  /** `sep.join(parts)`. */
  function Join(parts: seq<string>, sep: string): string
  {
    if |parts| == 0 then ""
    else if |parts| == 1 then parts[0]
    else parts[0] + sep + Join(parts[1..], sep)
  }

  lemma {:induction false} JoinSplit(s: string, sep: char)
    ensures Join(Split(s, sep), [sep]) == s
    decreases |s|
  {
    if |s| > 0 {
      JoinSplit(s[1..], sep);
      var rest := Split(s[1..], sep);
      if s[0] != sep && |rest| > 1 {
        assert rest == [rest[0]] + rest[1..];
      }
    }
  }

  /** A character found in no piece and not in the separator is not in the joined text. */
  lemma {:induction false} JoinNotIn(parts: seq<string>, sep: string, c: char)
    requires forall k :: 0 <= k < |parts| ==> c !in parts[k]
    requires c !in sep
    ensures c !in Join(parts, sep)
    decreases |parts|
  {
    if |parts| > 1 {
      JoinNotIn(parts[1..], sep, c);
      assert c !in parts[0];
    }
  }

  /** Splitting at a separator placed between two texts splits each text on its own. */
  lemma {:induction false} SplitAppend(a: string, b: string, sep: char)
    ensures Split(a + [sep] + b, sep) == Split(a, sep) + Split(b, sep)
    decreases |a|
  {
    if |a| == 0 {
      assert a + [sep] + b == [sep] + b;
      assert ([sep] + b)[1..] == b;
    } else {
      var s := a + [sep] + b;
      assert s[0] == a[0] && s[1..] == a[1..] + [sep] + b;
      SplitAppend(a[1..], b, sep);
      var left := Split(a[1..], sep);
      var rest := Split(s[1..], sep);
      assert rest == left + Split(b, sep);
      if a[0] != sep {
        assert rest[0] == left[0] && rest[1..] == left[1..] + Split(b, sep);
      }
    }
  }

  /** Splitting a joined sequence gives the pieces back when no piece holds the separator. */
  lemma {:induction false} SplitJoin(parts: seq<string>, sep: char)
    requires |parts| >= 1
    requires forall k :: 0 <= k < |parts| ==> sep !in parts[k]
    ensures Split(Join(parts, [sep]), sep) == parts
    decreases |parts|, |parts[0]|
  {
    var p := parts[0];
    if |p| > 0 {
      var parts' := [p[1..]] + parts[1..];
      assert Join(parts, [sep]) == [p[0]] + Join(parts', [sep]) by {
        if |parts| > 1 {
          assert Join(parts, [sep]) == p + [sep] + Join(parts[1..], [sep]);
          assert parts'[1..] == parts[1..];
        }
      }
      SplitJoin(parts', sep);
      assert p[0] != sep by { assert p[0] in p; }
      assert [p[0]] + p[1..] == p;
    } else if |parts| > 1 {
      assert Join(parts, [sep]) == [sep] + Join(parts[1..], [sep]);
      SplitJoin(parts[1..], sep);
    }
  }

  /** `s.replace(c, "")`. */
  function RemoveChar(s: string, c: char): (r: string)
    ensures c !in r
  {
    if |s| == 0 then [] else (if s[0] == c then [] else [s[0]]) + RemoveChar(s[1..], c)
  }

  /** The digits `int()` accepts: decimal digits, where a single underscore may stand
      between two of them ("1_000"). */
  predicate IsDigitGroups(s: string)
  {
    && |s| > 0 && IsDigitChar(s[0]) && IsDigitChar(s[|s| - 1])
    && (forall i :: 0 <= i < |s| ==> IsDigitChar(s[i]) || s[i] == '_')
    && (forall i :: 0 <= i < |s| - 1 && s[i] == '_' ==> s[i + 1] != '_')
  }

  /** The value of decimal digits, most significant first, with underscores skipped. */
  function GroupedValue(s: string): nat
    requires forall i :: 0 <= i < |s| ==> IsDigitChar(s[i]) || s[i] == '_'
  {
    if |s| == 0 then 0
    else if s[|s| - 1] == '_' then GroupedValue(s[..|s| - 1])
    else GroupedValue(s[..|s| - 1]) * 10 + DigitValue(s[|s| - 1])
  }

  /** Digits without underscores are digit groups of the same value. */
  lemma {:induction false} GroupedDigits(s: string)
    requires forall i :: 0 <= i < |s| ==> IsDigitChar(s[i])
    ensures GroupedValue(s) == DigitsValue(s)
    ensures |s| > 0 ==> IsDigitGroups(s)
  {
    if |s| > 0 {
      GroupedDigits(s[..|s| - 1]);
    }
  }

  /** `int(s)` for ASCII text: surrounding whitespace, an optional sign, then decimal digits
      with single underscores allowed between them. Anything else raises ValueError. */
  function ParseInt(s: string): (r: Result<int>)
    ensures r.Err? ==> r.error == ValueError
  {
    var t := Strip(s);
    if IsDigitGroups(t) then Ok(GroupedValue(t))
    else if |t| > 1 && t[0] == '-' && IsDigitGroups(t[1..]) then Ok(0 - GroupedValue(t[1..]) as int)
    else if |t| > 1 && t[0] == '+' && IsDigitGroups(t[1..]) then Ok(GroupedValue(t[1..]))
    else Err(ValueError)
  }

  /** An underscore between two runs of digits does not change the value `int()` reads:
      `int("1_000") == int("1000")`. */
  lemma ParseIntGrouped(a: string, b: string)
    requires IsDigits(a) && IsDigits(b)
    ensures ParseInt(a + "_" + b) == Ok(DigitsValue(a + b))
  {
    var t := a + "_" + b;
    assert t[0] == a[0] && t[|t| - 1] == b[|b| - 1];
    StripUnpadded(t);
    forall i | 0 <= i < |t| ensures if i == |a| then t[i] == '_' else IsDigitChar(t[i]) {
      if i < |a| { assert t[i] == a[i]; } else if i > |a| { assert t[i] == b[i - |a| - 1]; }
    }
    assert t[|a| + 1] == b[0];
    GroupedSkip(a, b);
  }

  /** Skipping one underscore: the grouped value of `a_b` is the value of `ab`. */
  lemma {:induction false} GroupedSkip(a: string, b: string)
    requires forall i :: 0 <= i < |a| ==> IsDigitChar(a[i])
    requires forall i :: 0 <= i < |b| ==> IsDigitChar(b[i])
    ensures forall i :: 0 <= i < |a + b| ==> IsDigitChar((a + b)[i])
    ensures GroupedValue(a + "_" + b) == DigitsValue(a + b)
    decreases |b|
  {
    assert forall i :: 0 <= i < |a + b| ==> IsDigitChar((a + b)[i]) by {
      forall i | 0 <= i < |a + b| ensures IsDigitChar((a + b)[i]) {
        if i >= |a| { assert (a + b)[i] == b[i - |a|]; }
      }
    }
    if |b| == 0 {
      assert (a + "_" + b)[..|a|] == a && a + b == a;
      GroupedDigits(a);
    } else {
      var b' := b[..|b| - 1];
      assert (a + "_" + b)[..|a + "_" + b| - 1] == a + "_" + b';
      assert (a + b)[..|a + b| - 1] == a + b';
      GroupedSkip(a, b');
    }
  }

  /** An underscore may not lead, trail or follow another: `int()` rejects `_d`, `d_` and
      `a__b`. */
  lemma ParseIntMisplacedUnderscore(a: string, b: string)
    requires IsDigits(a) && IsDigits(b)
    ensures ParseInt("_" + a).Err? && ParseInt(a + "_").Err? && ParseInt(a + "__" + b).Err?
  {
    var lead, trail, double := "_" + a, a + "_", a + "__" + b;
    StripUnpadded(lead);
    StripUnpadded(trail);
    assert double[0] == a[0] && double[|double| - 1] == b[|b| - 1];
    StripUnpadded(double);
    assert double[|a|] == '_' && double[|a| + 1] == '_';
    assert !IsDigitGroups(double);
  }

  lemma StripUnpadded(t: string)
    requires |t| > 0 && !IsSpace(t[0]) && !IsSpace(t[|t| - 1])
    ensures Strip(t) == t
  {
    assert TrimLeft(t) == t;
  }

  lemma ParseIntDigits(d: string)
    requires IsDigits(d)
    ensures ParseInt(d) == Ok(DigitsValue(d))
  {
    assert IsDigitChar(d[0]) && IsDigitChar(d[|d| - 1]);
    StripUnpadded(d);
    GroupedDigits(d);
  }

  lemma ParseIntNegative(d: string, t: string)
    requires IsDigits(d) && t == "-" + d
    ensures ParseInt(t) == Ok(0 - DigitsValue(d))
  {
    assert t[1..] == d;
    assert IsDigitChar(t[|t| - 1]) by { assert t[|t| - 1] == d[|d| - 1]; }
    StripUnpadded(t);
    assert !IsDigitGroups(t) by { assert !IsDigitChar(t[0]); }
    GroupedDigits(d);
  }

  lemma ParseIntOfNat(i: int)
    requires i >= 0
    ensures ParseInt(IntToString(i)) == Ok(i)
  {
    var d := NatToString(i);
    NatToStringValue(i);
    ParseIntDigits(d);
    assert IntToString(i) == d;
  }

  lemma ParseIntOfNegative(i: int)
    requires i < 0
    ensures ParseInt(IntToString(i)) == Ok(i)
  {
    var d := NatToString(-i);
    var t := IntToString(i);
    assert t == "-" + d;
    NatToStringValue(-i);
    assert 0 - DigitsValue(d) == i;
    ParseIntNegative(d, t);
    assert ParseInt(t) == Ok(i);
  }

  /** `int(str(i)) == i`. */
  lemma ParseIntOfString(i: int)
    ensures ParseInt(IntToString(i)) == Ok(i)
  {
    if i < 0 { ParseIntOfNegative(i); } else { ParseIntOfNat(i); }
  }

  lemma ParseNatString(n: nat)
    ensures ParseInt(NatToString(n)) == Ok(n)
  {
    ParseIntOfString(n);
  }

  predicate IsHexChar(c: char) { IsDigitChar(c) || 'a' <= c <= 'f' || 'A' <= c <= 'F' }

  function HexValue(c: char): nat
    requires IsHexChar(c)
  {
    if IsDigitChar(c) then DigitValue(c)
    else if 'a' <= c <= 'f' then (c as int) - ('a' as int) + 10
    else (c as int) - ('A' as int) + 10
  }

  function HexChar(d: nat): (c: char)
    requires d < 16
    ensures IsHexChar(c) && HexValue(c) == d && c != ':'
  {
    if d < 10 then DigitChar(d) else (('a' as int) + d - 10) as char
  }

  /** `f"{b:02x}"` for a value below 256: two lower-case hexadecimal digits. */
  function Hex2(b: nat): (s: string)
    requires b < 256
    ensures |s| == 2 && ':' !in s
  {
    [HexChar(b / 16), HexChar(b % 16)]
  }

  /** `int(s, 16)` for ASCII text without sign, prefix or separators. */
  function ParseHex(s: string): (r: Result<nat>)
  {
    if |s| > 0 && forall i :: 0 <= i < |s| ==> IsHexChar(s[i]) then Ok(HexDigitsValue(s))
    else Err(ValueError)
  }

  function HexDigitsValue(s: string): nat
    requires forall i :: 0 <= i < |s| ==> IsHexChar(s[i])
  {
    if |s| == 0 then 0 else HexDigitsValue(s[..|s| - 1]) * 16 + HexValue(s[|s| - 1])
  }

  lemma ParseHex2(b: nat)
    requires b < 256
    ensures ParseHex(Hex2(b)) == Ok(b)
  {
    var s := Hex2(b);
    assert s[..1] == [HexChar(b / 16)] && s[..1][..0] == [];
    assert HexDigitsValue(s[..1]) == HexValue(s[0]) == b / 16;
    assert HexDigitsValue(s) == HexDigitsValue(s[..1]) * 16 + HexValue(s[1]);
  }
}
