/**
 * The few java.lang.String and java.lang.Integer operations the loaders rely on,
 * on strings as sequences of characters (`seq<char>`, one Unicode scalar value each).
 */
module JavaText {
  import opened Optional

  /** Number of occurrences of `d` in `s`. */
  function Occurrences(s: string, d: char): nat
  {
    if s == [] then 0 else (if s[0] == d then 1 else 0) + Occurrences(s[1..], d)
  }

  // ---------------------------------------------------------------------------
  // s.split(d, -1): a negative limit keeps every field, trailing empty ones too
  // ---------------------------------------------------------------------------

  /**
   * The fields of `s` between occurrences of the separator `d`. There is one more
   * field than there are separators, and no field contains the separator.
   */
  function Split(s: string, d: char): (fields: seq<string>)
    ensures |fields| == Occurrences(s, d) + 1
    ensures forall i :: 0 <= i < |fields| ==> d !in fields[i]
    decreases |s|
  {
    if s == [] then [""]
    else
      var rest := Split(s[1..], d);
      if s[0] == d then [""] + rest
      else [[s[0]] + rest[0]] + rest[1..]
  }

  /** The fields glued back together with the separator: the inverse of `Split`. */
  function Join(fields: seq<string>, d: char): string
    requires |fields| >= 1
  {
    if |fields| == 1 then fields[0] else fields[0] + [d] + Join(fields[1..], d)
  }

  lemma {:induction false} JoinSplit(s: string, d: char)
    ensures Join(Split(s, d), d) == s
    decreases |s|
  {
    if s != [] {
      JoinSplit(s[1..], d);
      var rest := Split(s[1..], d);
      if s[0] != d {
        if |rest| > 1 {
          calc {
            Join(Split(s, d), d);
            ([s[0]] + rest[0]) + [d] + Join(rest[1..], d);
            [s[0]] + (rest[0] + [d] + Join(rest[1..], d));
            [s[0]] + Join(rest, d);
          }
        }
        assert s == [s[0]] + s[1..];
      } else {
        assert s == [d] + s[1..];
      }
    }
  }

  /** A field without the separator splits to itself. */
  lemma {:induction false} SplitField(a: string, d: char)
    requires d !in a
    ensures Split(a, d) == [a]
    decreases |a|
  {
    if a != [] {
      assert d !in a[1..];
      SplitField(a[1..], d);
      assert [a[0]] + a[1..] == a;
    }
  }

  /** A separator right after the field `a` ends that field. */
  lemma {:induction false} SplitAfterField(a: string, d: char, b: string)
    requires d !in a
    ensures Split(a + [d] + b, d) == [a] + Split(b, d)
    decreases |a|
  {
    var s := a + [d] + b;
    if a == [] {
      assert s[1..] == b;
    } else {
      assert s[1..] == a[1..] + [d] + b;
      assert d !in a[1..];
      SplitAfterField(a[1..], d, b);
      assert [a[0]] + a[1..] == a;
    }
  }

  /** Splitting a line glued from separator-free fields gives those fields back. */
  lemma {:induction false} SplitJoin(fields: seq<string>, d: char)
    requires |fields| >= 1
    requires forall i :: 0 <= i < |fields| ==> d !in fields[i]
    ensures Split(Join(fields, d), d) == fields
    decreases |fields|
  {
    if |fields| == 1 {
      SplitField(fields[0], d);
    } else {
      SplitJoin(fields[1..], d);
      SplitAfterField(fields[0], d, Join(fields[1..], d));
      assert fields == [fields[0]] + fields[1..];
    }
  }

  // ---------------------------------------------------------------------------
  // s.split(d): a zero limit drops the trailing empty fields, and a string
  // without the separator splits to itself
  // ---------------------------------------------------------------------------

  /** `fields` without its trailing empty strings. */
  function DropTrailingEmpty(fields: seq<string>): (r: seq<string>)
    ensures |r| <= |fields| && r == fields[..|r|]
    ensures r != [] ==> r[|r| - 1] != ""
    ensures forall i :: |r| <= i < |fields| ==> fields[i] == ""
  {
    if fields == [] then []
    else if fields[|fields| - 1] == "" then DropTrailingEmpty(fields[..|fields| - 1])
    else fields
  }

  function SplitDroppingTrailing(s: string, d: char): (fields: seq<string>)
  {
    if d !in s then [s] else DropTrailingEmpty(Split(s, d))
  }

  // ---------------------------------------------------------------------------
  // s.trim(): strips every character up to U+0020 from both ends
  // ---------------------------------------------------------------------------

  predicate IsBlank(c: char) { c <= ' ' }

  /** Index of the first non-blank character, or |s| if there is none. */
  function TrimStart(s: string, from: nat): (i: nat)
    requires from <= |s|
    requires forall k :: 0 <= k < from ==> IsBlank(s[k])
    ensures from <= i <= |s|
    ensures forall k :: 0 <= k < i ==> IsBlank(s[k])
    ensures i < |s| ==> !IsBlank(s[i])
    decreases |s| - from
  {
    if from < |s| && IsBlank(s[from]) then TrimStart(s, from + 1) else from
  }

  /** One past the last non-blank character at or after `lo`, or `lo` if there is none. */
  function TrimEnd(s: string, lo: nat, hi: nat): (j: nat)
    requires lo <= hi <= |s|
    requires forall k :: hi <= k < |s| ==> IsBlank(s[k])
    ensures lo <= j <= hi
    ensures forall k :: j <= k < |s| ==> IsBlank(s[k])
    ensures j > lo ==> !IsBlank(s[j - 1])
    decreases hi
  {
    if hi > lo && IsBlank(s[hi - 1]) then TrimEnd(s, lo, hi - 1) else hi
  }

  /**
   * The middle of `s` once the blank characters at both ends are stripped: what is
   * stripped is blank, and what is kept starts and ends with a non-blank character.
   */
  function Trim(s: string): (t: string)
    ensures exists i, j ::
              && 0 <= i <= j <= |s| && t == s[i..j]
              && (forall k :: 0 <= k < i ==> IsBlank(s[k]))
              && (forall k :: j <= k < |s| ==> IsBlank(s[k]))
    ensures t != [] ==> !IsBlank(t[0]) && !IsBlank(t[|t| - 1])
  {
    var i := TrimStart(s, 0);
    var j := TrimEnd(s, i, |s|);
    s[i..j]
  }

  /** A string trims to nothing exactly when every character in it is blank. */
  lemma TrimEmpty(s: string)
    ensures Trim(s) == "" <==> forall k :: 0 <= k < |s| ==> IsBlank(s[k])
  {
  }

  /** A string that starts and ends with a non-blank character is its own trim. */
  lemma TrimUnpadded(s: string)
    requires s != [] && !IsBlank(s[0]) && !IsBlank(s[|s| - 1])
    ensures Trim(s) == s
  {
    assert TrimStart(s, 0) == 0;
    assert TrimEnd(s, 0, |s|) == |s|;
    assert s[0..|s|] == s;
  }

  // ---------------------------------------------------------------------------
  // s.contains(sub): a raw substring test
  // ---------------------------------------------------------------------------

  predicate StartsWith(s: string, prefix: string)
  {
    |prefix| <= |s| && s[..|prefix|] == prefix
  }

  /** True exactly when `sub` occurs somewhere in `s`, at any position. */
  function Contains(s: string, sub: string): (r: bool)
    ensures r <==> exists i :: 0 <= i <= |s| - |sub| && StartsWith(s[i..], sub)
    decreases |s|
  {
    if StartsWith(s, sub) then
      assert StartsWith(s[0..], sub);
      true
    else if s == [] then false
    else
      var r := Contains(s[1..], sub);
      if r then
        var i :| 0 <= i <= |s[1..]| - |sub| && StartsWith(s[1..][i..], sub);
        assert s[1..][i..] == s[i + 1..];
        r
      else
        assert forall i :: 1 <= i <= |s| - |sub| ==> s[i..] == s[1..][i - 1..];
        r
  }

  // ---------------------------------------------------------------------------
  // Integer.parseInt(s): optional sign, one or more decimal digits, 32-bit range
  // ---------------------------------------------------------------------------

  const IntMin: int := -0x8000_0000
  const IntMax: int := 0x7fff_ffff

  predicate IsDigit(c: char) { '0' <= c <= '9' }

  predicate AllDigits(s: string) { forall k :: 0 <= k < |s| ==> IsDigit(s[k]) }

  /** The value of a string of decimal digits, most significant first. */
  function DigitsValue(ds: string): nat
    requires AllDigits(ds)
  {
    if ds == [] then 0
    else DigitsValue(ds[..|ds| - 1]) * 10 + (ds[|ds| - 1] as int - '0' as int)
  }

  /**
   * The value `Integer.parseInt` returns, or None where it throws
   * NumberFormatException: an empty string, a lone sign, a non-digit, or a value
   * outside the 32-bit range.
   */
  function ParseInt(s: string): (r: Option<int>)
    ensures r.Some? ==> IntMin <= r.value <= IntMax
    ensures r.Some? ==> s != [] && (IsDigit(s[0]) || s[0] == '-' || s[0] == '+')
  {
    if s == [] then None
    else
      var negative := s[0] == '-';
      var digits := if s[0] == '-' || s[0] == '+' then s[1..] else s;
      if digits == [] || !AllDigits(digits) then None
      else
        var magnitude: int := DigitsValue(digits);
        var v := if negative then -magnitude else magnitude;
        if IntMin <= v <= IntMax then Some(v) else None
  }

  /** `Integer.toString(n)` for a non-negative value. */
  function NatToString(n: nat): (s: string)
    ensures s != [] && AllDigits(s)
  {
    if n < 10 then ['0' + n as char]
    else NatToString(n / 10) + ['0' + (n % 10) as char]
  }

  /** `Integer.toString(n)`. */
  function IntToString(n: int): string
  {
    if n < 0 then "-" + NatToString(-n) else NatToString(n)
  }

  lemma {:induction false} DigitsValueOfNatToString(n: nat)
    ensures DigitsValue(NatToString(n)) == n
  {
    var s := NatToString(n);
    if n >= 10 {
      DigitsValueOfNatToString(n / 10);
      assert s[..|s| - 1] == NatToString(n / 10);
    }
  }

  /** Every 32-bit integer survives `parseInt(toString(n))`. */
  lemma ParseIntToString(n: int)
    requires IntMin <= n <= IntMax
    ensures ParseInt(IntToString(n)) == Some(n)
  {
    if n < 0 {
      DigitsValueOfNatToString(-n);
      assert IntToString(n)[1..] == NatToString(-n);
    } else {
      DigitsValueOfNatToString(n);
    }
  }

  /** What `Integer.parseInt` rejects as malformed: a letter among the digits, a lone sign, the empty string. */
  lemma ParseIntRejects()
    ensures ParseInt("19a9") == None && ParseInt("+") == None && ParseInt("-") == None && ParseInt("") == None
  {
    assert !IsDigit("19a9"[2]);
  }

  /** Both ends of the 32-bit range parse, and one past either end does not. */
  lemma ParseIntRange()
    ensures ParseInt("2147483648") == None && ParseInt("-2147483649") == None
    ensures ParseInt("2147483647") == Some(IntMax) && ParseInt("-2147483648") == Some(IntMin)
  {
    DigitsNearIntMax('7');
    DigitsNearIntMax('8');
    DigitsNearIntMax('9');
    assert "214748364" + ['7'] == "2147483647";
    assert "214748364" + ['8'] == "2147483648" == "-2147483648"[1..];
    assert "214748364" + ['9'] == "2147483649" == "-2147483649"[1..];
  }

  /** The digit strings at and just past the top of the 32-bit range denote the values they spell. */
  lemma DigitsNearIntMax(d: char)
    requires '7' <= d <= '9'
    ensures AllDigits("214748364" + [d])
    ensures DigitsValue("214748364" + [d]) == IntMax + (d as int - '7' as int)
  {
    DigitsAbove();
    DigitsAppend("214748364", [d]);
    assert [d][..0] == [];
  }

  lemma DigitsAbove()
    ensures DigitsValue("214748364") == 214748364
  {
    assert DigitsValue("21474") == 21474 by { DigitsAppend("214", "74"); assert "214" + "74" == "21474"; }
    assert DigitsValue("8364") == 8364 by { DigitsAppend("83", "64"); assert "83" + "64" == "8364"; }
    DigitsAppend("21474", "8364");
    assert Pow10(4) == 10000 by { assert Pow10(2) == 100; }
    assert "21474" + "8364" == "214748364";
  }

  function Pow10(n: nat): (p: nat)
    ensures p >= 1
  {
    if n == 0 then 1 else 10 * Pow10(n - 1)
  }

  /** Appending digits shifts the value of the prefix left by their count. */
  lemma {:induction false} DigitsAppend(a: string, b: string)
    requires AllDigits(a) && AllDigits(b)
    ensures AllDigits(a + b)
    ensures DigitsValue(a + b) == DigitsValue(a) * Pow10(|b|) + DigitsValue(b)
    decreases |b|
  {
    if b == [] {
      assert a + b == a;
    } else {
      var b' := b[..|b| - 1];
      assert AllDigits(b');
      assert (a + b)[..|a + b| - 1] == a + b';
      DigitsAppend(a, b');
      assert b'[..] + [b[|b| - 1]] == b;
      calc {
        DigitsValue(a + b);
        DigitsValue(a + b') * 10 + (b[|b| - 1] as int - '0' as int);
        (DigitsValue(a) * Pow10(|b'|) + DigitsValue(b')) * 10 + (b[|b| - 1] as int - '0' as int);
        DigitsValue(a) * (Pow10(|b'|) * 10) + (DigitsValue(b') * 10 + (b[|b| - 1] as int - '0' as int));
      }
    }
  }

  /** The IMDb "absent" sentinel `\N` never parses as an integer. */
  lemma ParseIntSentinel()
    ensures ParseInt("\\N") == None
  {
  }
}
