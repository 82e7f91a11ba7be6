/** The handful of Python `str` operations the core relies on, over
    `seq<char>`: `lower()`, `in`, `split()`, `split(sep)`, `strip()`,
    `sep.join(...)`, and `float(...)` restricted to the digit-and-dot strings the
    critic feeds it.  Lower-casing is ASCII only. */
module Text {
  import opened Wrappers

  function LowerChar(c: char): (r: char)
    ensures 'A' <= c <= 'Z' ==> 'a' <= r <= 'z' && r as int == c as int + 32
    ensures !('A' <= c <= 'Z') ==> r == c
  {
    if 'A' <= c <= 'Z' then (c as int - 'A' as int + 'a' as int) as char else c
  }

  /** `s.lower()` on ASCII letters. */
  function Lower(s: string): (r: string)
    ensures |r| == |s|
    ensures forall i :: 0 <= i < |s| ==> r[i] == LowerChar(s[i])
  {
    seq(|s|, i requires 0 <= i < |s| => LowerChar(s[i]))
  }

  predicate StartsWith(s: string, prefix: string) {
    |prefix| <= |s| && s[..|prefix|] == prefix
  }

  /** `needle in s`. */
  predicate Contains(s: string, needle: string)
    decreases |s|
  {
    StartsWith(s, needle) || (|s| > 0 && Contains(s[1..], needle))
  }

  predicate OccursAt(s: string, needle: string, i: int) {
    0 <= i && i + |needle| <= |s| && s[i..i + |needle|] == needle
  }

  /** `needle in s` holds exactly when `needle` occurs at some position. */
  lemma {:induction false} ContainsIff(s: string, needle: string)
    ensures Contains(s, needle) <==> exists i :: OccursAt(s, needle, i)
    decreases |s|
  {
    if StartsWith(s, needle) {
      assert OccursAt(s, needle, 0);
    } else if |s| > 0 {
      ContainsIff(s[1..], needle);
      if Contains(s[1..], needle) {
        var i :| OccursAt(s[1..], needle, i);
        assert s[i + 1..i + 1 + |needle|] == s[1..][i..i + |needle|];
        assert OccursAt(s, needle, i + 1);
      }
      if exists i :: OccursAt(s, needle, i) {
        var i :| OccursAt(s, needle, i);
        assert i != 0;
        assert s[1..][i - 1..i - 1 + |needle|] == s[i..i + |needle|];
        assert OccursAt(s[1..], needle, i - 1);
      }
    } else {
      assert forall i :: !OccursAt(s, needle, i);
    }
  }

  lemma ContainsAt(s: string, needle: string, i: nat)
    requires OccursAt(s, needle, i)
    ensures Contains(s, needle)
  {
    ContainsIff(s, needle);
  }

  /** Every character of a contained needle occurs in the text. */
  lemma ContainsChar(s: string, needle: string, c: char)
    requires Contains(s, needle) && c in needle
    ensures c in s
  {
    ContainsIff(s, needle);
    var i :| OccursAt(s, needle, i);
    var j :| 0 <= j < |needle| && needle[j] == c;
    assert s[i..i + |needle|][j] == s[i + j];
  }

  /** Characters Python's `str.split()` and `str.strip()` treat as whitespace. */
  predicate IsSpace(c: char) {
    var n := c as int;
    (0x09 <= n <= 0x0D) || (0x1C <= n <= 0x20) || n == 0x85 || n == 0xA0 || n == 0x1680
    || (0x2000 <= n <= 0x200A) || n == 0x2028 || n == 0x2029 || n == 0x202F || n == 0x205F
    || n == 0x3000
  }

  /** `len(s.split())` when a word has just been seen (`inWord`) or not. */
  function WordsFrom(s: string, inWord: bool): nat
    decreases |s|
  {
    if s == [] then 0
    else if IsSpace(s[0]) then WordsFrom(s[1..], false)
    else (if inWord then 0 else 1) + WordsFrom(s[1..], true)
  }

  /** `len(s.split())`: the number of maximal runs of non-whitespace. */
  function WordCount(s: string): nat {
    WordsFrom(s, false)
  }

  function CountChar(s: string, c: char): nat {
    if s == [] then 0 else (if s[0] == c then 1 else 0) + CountChar(s[1..], c)
  }

  /** `s.split(sep)` for a one-character separator. */
  function Split(s: string, sep: char): (parts: seq<string>)
    ensures |parts| == CountChar(s, sep) + 1
    ensures forall k :: 0 <= k < |parts| ==> sep !in parts[k]
  {
    if s == [] then [""]
    else
      var rest := Split(s[1..], sep);
      if s[0] == sep then [""] + rest
      else [[s[0]] + rest[0]] + rest[1..]
  }

  /** `sep.join(parts)`. */
  function Join(parts: seq<string>, sep: string): string {
    if parts == [] then ""
    else if |parts| == 1 then parts[0]
    else parts[0] + sep + Join(parts[1..], sep)
  }

  /** Splitting and joining back with the same separator gives the input. */
  lemma {:induction false} JoinSplit(s: string, sep: char)
    ensures Join(Split(s, sep), [sep]) == s
  {
    if s != [] {
      var rest := Split(s[1..], sep);
      JoinSplit(s[1..], sep);
      if s[0] == sep {
        assert ([""] + rest)[1..] == rest;
      } else {
        var parts := [[s[0]] + rest[0]] + rest[1..];
        if |rest| > 1 {
          assert parts[1..] == rest[1..];
          assert Join(rest, [sep]) == rest[0] + [sep] + Join(rest[1..], [sep]);
        }
      }
    }
  }

  /** A join begins with its first part. */
  lemma JoinStartsWith(parts: seq<string>, sep: string)
    requires parts != []
    ensures StartsWith(Join(parts, sep), parts[0])
  {
  }

  /** Joining parts free of the separator and splitting again gives the parts
      back. */
  lemma {:induction false} SplitJoin(parts: seq<string>, sep: char)
    requires parts != [] && forall k :: 0 <= k < |parts| ==> sep !in parts[k]
    ensures Split(Join(parts, [sep]), sep) == parts
    decreases |parts|, |parts[0]|
  {
    if |parts| == 1 {
      SplitNoSeparator(parts[0], sep);
    } else {
      assert Join(parts, [sep]) == parts[0] + [sep] + Join(parts[1..], [sep]);
      SplitJoin(parts[1..], sep);
      SplitPrefix(parts[0], sep, Join(parts[1..], [sep]));
    }
  }

  /** A string without the separator splits into itself. */
  lemma {:induction false} SplitNoSeparator(s: string, sep: char)
    requires sep !in s
    ensures Split(s, sep) == [s]
    decreases |s|
  {
    if s != [] {
      SplitNoSeparator(s[1..], sep);
      assert [s[0]] + s[1..] == s;
    }
  }

  /** Splitting `a + sep + b` for `a` free of the separator puts `a` in front
      of the split of `b`. */
  lemma {:induction false} SplitPrefix(a: string, sep: char, b: string)
    requires sep !in a
    ensures Split(a + [sep] + b, sep) == [a] + Split(b, sep)
    decreases |a|
  {
    if a == [] {
      assert a + [sep] + b == [sep] + b;
      assert ([sep] + b)[1..] == b;
    } else {
      assert (a + [sep] + b)[1..] == a[1..] + [sep] + b;
      SplitPrefix(a[1..], sep, b);
      assert [a[0]] + a[1..] == a;
    }
  }

  /** `r` is `s[i..j]` with nothing but whitespace before `i` and from `j` on. */
  predicate SliceBetweenSpace(s: string, r: string, i: int, j: int) {
    0 <= i <= j <= |s| && r == s[i..j]
    && (forall k :: 0 <= k < i ==> IsSpace(s[k]))
    && (forall k :: j <= k < |s| ==> IsSpace(s[k]))
  }

  /** `s.strip()`. */
  function Strip(s: string): (r: string)
    ensures |r| <= |s|
    ensures r != [] ==> !IsSpace(r[0]) && !IsSpace(r[|r| - 1])
    ensures forall k :: 0 <= k < |s| && !IsSpace(s[k]) ==> r != []
    ensures exists i, j :: SliceBetweenSpace(s, r, i, j)
  {
    StripSlice(s);
    StripEnd(StripStart(s))
  }

  /** What `strip()` leaves is a slice with whitespace on either side of it. */
  lemma StripSlice(s: string)
    ensures exists i, j :: SliceBetweenSpace(s, StripEnd(StripStart(s)), i, j)
  {
    var front := StripStart(s);
    var r := StripEnd(front);
    var i := |s| - |front|;
    PrefixOfSuffix(s, front, r, i);
    SpaceAfterSlice(s, i, |r|);
    assert SliceBetweenSpace(s, r, i, i + |r|);
  }

  /** A prefix of the suffix `s[i..]` is a slice of `s` starting at `i`. */
  lemma PrefixOfSuffix(s: string, front: string, r: string, i: int)
    requires 0 <= i <= |s| && front == s[i..] && |r| <= |front| && r == front[..|r|]
    ensures r == s[i..i + |r|]
  {
    assert forall k :: 0 <= k < |r| ==> r[k] == s[i + k];
  }

  /** The whitespace `StripEnd` drops from `s[i..]` sits at the end of `s`. */
  lemma SpaceAfterSlice(s: string, i: nat, n: nat)
    requires i + n <= |s| && |StripEnd(s[i..])| == n
    ensures forall k :: i + n <= k < |s| ==> IsSpace(s[k])
  {
    var front := s[i..];
    assert forall k :: n <= k < |front| ==> IsSpace(front[k]);
    forall k | i + n <= k < |s|
      ensures IsSpace(s[k])
    {
      assert s[k] == front[k - i];
    }
  }

  function StripStart(s: string): (r: string)
    ensures |r| <= |s| && r == s[|s| - |r|..]
    ensures r != [] ==> !IsSpace(r[0])
    ensures forall k :: 0 <= k < |s| && !IsSpace(s[k]) ==> r != []
    ensures forall k :: 0 <= k < |s| - |r| ==> IsSpace(s[k])
  {
    if s != [] && IsSpace(s[0]) then StripStart(s[1..]) else s
  }

  function StripEnd(s: string): (r: string)
    ensures |r| <= |s| && r == s[..|r|]
    ensures r != [] ==> !IsSpace(r[|r| - 1])
    ensures (forall k :: 0 <= k < |s| && !IsSpace(s[k]) ==> r != [])
    ensures r != [] && !IsSpace(r[0]) ==> !IsSpace(s[0])
    ensures forall k :: |r| <= k < |s| ==> IsSpace(s[k])
  {
    if s != [] && IsSpace(s[|s| - 1]) then StripEnd(s[..|s| - 1]) else s
  }

  /** The part of `s` after its first `c`: `s.split(c, 1)[1]`. */
  function AfterFirst(s: string, c: char): (r: string)
    requires c in s
    ensures |r| < |s| && r == s[|s| - |r|..] && s[|s| - |r| - 1] == c
    ensures c !in s[..|s| - |r| - 1]
  {
    if s[0] == c then s[1..] else AfterFirst(s[1..], c)
  }

  predicate IsDigit(c: char) {
    '0' <= c <= '9'
  }

  /** `''.join(c for c in s if c.isdigit() or c == '.')`, ASCII digits only. */
  function KeepNumeric(s: string): (r: string)
    ensures forall k :: 0 <= k < |r| ==> IsDigit(r[k]) || r[k] == '.'
    ensures |r| <= |s|
  {
    if s == [] then ""
    else (if IsDigit(s[0]) || s[0] == '.' then [s[0]] else "") + KeepNumeric(s[1..])
  }

  /** The filter works character by character, in order: it distributes over
      concatenation. */
  lemma {:induction false} KeepNumericAppend(a: string, b: string)
    ensures KeepNumeric(a + b) == KeepNumeric(a) + KeepNumeric(b)
    decreases |a|
  {
    if a == [] {
      assert a + b == b;
    } else {
      var head := if IsDigit(a[0]) || a[0] == '.' then [a[0]] else "";
      assert (a + b)[0] == a[0] && (a + b)[1..] == a[1..] + b;
      assert KeepNumeric(a + b) == head + KeepNumeric(a[1..] + b);
      KeepNumericAppend(a[1..], b);
      assert KeepNumeric(a) == head + KeepNumeric(a[1..]);
    }
  }

  /** A single character is kept exactly when it is a digit or a dot. */
  lemma KeepNumericChar(c: char)
    ensures KeepNumeric([c]) == if IsDigit(c) || c == '.' then [c] else ""
  {
    assert [c][1..] == [];
  }

  /** A line of digits and dots passes the filter unchanged. */
  lemma {:induction false} KeepNumericKeepsNumeric(s: string)
    requires forall k :: 0 <= k < |s| ==> IsDigit(s[k]) || s[k] == '.'
    ensures KeepNumeric(s) == s
    decreases |s|
  {
    if s != [] {
      KeepNumericKeepsNumeric(s[1..]);
      assert [s[0]] + s[1..] == s;
    }
  }

  /** The value of a digit string read in base ten. */
  function DigitsValue(s: string): nat
    requires forall k :: 0 <= k < |s| ==> IsDigit(s[k])
  {
    if s == [] then 0
    else
      assert IsDigit(s[|s| - 1]);
      DigitsValue(s[..|s| - 1]) * 10 + (s[|s| - 1] as int - '0' as int)
  }

  function Pow10(n: nat): (r: nat)
    ensures r >= 1
  {
    if n == 0 then 1 else 10 * Pow10(n - 1)
  }

  predicate AllDigits(s: string) {
    forall k :: 0 <= k < |s| ==> IsDigit(s[k])
  }

  /** `float(t)` for a string of digits and dots: at most one dot and at least
      one digit; otherwise `float` raises and the result is `None`. */
  function ParseDecimal(t: string): (r: Option<real>)
    requires forall k :: 0 <= k < |t| ==> IsDigit(t[k]) || t[k] == '.'
    ensures r.Some? <==> CountChar(t, '.') <= 1 && exists k :: 0 <= k < |t| && IsDigit(t[k])
    ensures r.Some? ==> r.value >= 0.0
  {
    if '.' !in t then
      AllDigitsCountsNoDot(t);
      if t == [] then None else Some(DigitsValue(t) as real)
    else
      var whole := t[..IndexOf(t, '.')];
      var frac := t[IndexOf(t, '.') + 1..];
      CountSplitAt(t, IndexOf(t, '.'));
      if '.' in frac then
        CountPositive(frac, '.');
        None
      else if whole == [] && frac == [] then
        assert forall k :: 0 <= k < |t| ==> t[k] == '.';
        None
      else
        assert AllDigits(whole) && AllDigits(frac);
        AllDigitsCountsNoDot(frac);
        CountPositive(whole, '.');
        assert whole != [] ==> IsDigit(t[0]);
        assert frac != [] ==> IsDigit(t[IndexOf(t, '.') + 1]);
        Some(DecimalValue(whole, frac))
  }

  /** The number written `whole.frac`. */
  function DecimalValue(whole: string, frac: string): (r: real)
    requires AllDigits(whole) && AllDigits(frac)
    ensures r >= 0.0
  {
    DigitsValue(whole) as real + DigitsValue(frac) as real / Pow10(|frac|) as real
  }

  /** `float` of a digit string is its decimal value. */
  lemma ParseWhole(w: string)
    requires AllDigits(w) && w != []
    ensures ParseDecimal(w) == Some(DigitsValue(w) as real)
  {
    assert forall k :: 0 <= k < |w| ==> w[k] != '.';
  }

  /** `float` of `w.f` is the whole part plus the fraction `f` over ten to its
      length, whichever of the two parts is empty. */
  lemma ParseFraction(w: string, f: string)
    requires AllDigits(w) && AllDigits(f) && (w != [] || f != [])
    ensures var t := w + "." + f;
            (forall k :: 0 <= k < |t| ==> IsDigit(t[k]) || t[k] == '.')
            && ParseDecimal(t) == Some(DecimalValue(w, f))
  {
    var t := w + "." + f;
    assert forall k :: 0 <= k < |w| ==> w[k] != '.';
    assert forall k :: 0 <= k < |f| ==> f[k] != '.';
    assert t[|w|] == '.' && t[..|w|] == w;
    var i := IndexOf(t, '.');
    assert i == |w|;
    assert t[i + 1..] == f;
  }

  /** The filter drops the label and the slash of "score: 8/10". */
  lemma FilterEightOutOfTen()
    ensures KeepNumeric("score: 8/10") == "8" + "10"
  {
    FilterFraction();
    var lead := "score: ";
    assert "score: 8/10" == lead + "8/10";
    assert forall k :: 0 <= k < |lead| ==> lead[k] in {'s', 'c', 'o', 'r', 'e', ':', ' '};
    NoNumericPrefix(lead, "8/10");
  }

  lemma FilterFraction()
    ensures KeepNumeric("8/10") == "8" + "10"
  {
    assert "8/10"[1..] == "/10" && "/10"[1..] == "10";
    KeepNumericKeepsNumeric("10");
  }

  /** A prefix with no digit and no dot contributes nothing to the filter. */
  lemma {:induction false} NoNumericPrefix(p: string, rest: string)
    requires forall k :: 0 <= k < |p| ==> !IsDigit(p[k]) && p[k] != '.'
    ensures KeepNumeric(p + rest) == KeepNumeric(rest)
    decreases |p|
  {
    if p == [] {
      assert p + rest == rest;
    } else {
      assert (p + rest)[0] == p[0] && (p + rest)[1..] == p[1..] + rest;
      NoNumericPrefix(p[1..], rest);
    }
  }

  lemma DigitsOfEightHundredTen()
    ensures AllDigits("810") && DigitsValue("810") == 810
  {
    assert "810"[..2] == "81" && "81"[..1] == "8" && "8"[..0] == "";
  }

  lemma LowerScoreLine()
    ensures Lower("Score: 8/10") == "score: 8/10"
  {
    var s := "Score: 8/10";
    assert forall i :: 1 <= i < |s| ==> !('A' <= s[i] <= 'Z');
  }

  /** `float("810")` is 810. */
  lemma ParseEightHundredTen()
    ensures AllDigits("810") && ParseDecimal("810") == Some(810.0)
  {
    DigitsOfEightHundredTen();
    ParseWhole("810");
  }

  function IndexOf(s: string, c: char): (i: nat)
    requires c in s
    ensures i < |s| && s[i] == c && c !in s[..i]
  {
    if s[0] == c then 0 else 1 + IndexOf(s[1..], c)
  }

  lemma {:induction false} CountCharAppend(a: string, b: string, c: char)
    ensures CountChar(a + b, c) == CountChar(a, c) + CountChar(b, c)
    decreases |a|
  {
    if a == [] {
      assert a + b == b;
    } else {
      assert (a + b)[0] == a[0] && (a + b)[1..] == a[1..] + b;
      CountCharAppend(a[1..], b, c);
    }
  }

  lemma {:induction false} CountPositive(s: string, c: char)
    ensures c in s <==> CountChar(s, c) > 0
    decreases |s|
  {
    if s != [] {
      CountPositive(s[1..], c);
      assert s == [s[0]] + s[1..];
    }
  }

  lemma CountSplitAt(s: string, i: nat)
    requires i < |s|
    ensures CountChar(s, s[i]) == CountChar(s[..i], s[i]) + 1 + CountChar(s[i + 1..], s[i])
  {
    assert s == s[..i] + [s[i]] + s[i + 1..];
    CountCharAppend(s[..i] + [s[i]], s[i + 1..], s[i]);
    CountCharAppend(s[..i], [s[i]], s[i]);
  }

  lemma AllDigitsCountsNoDot(s: string)
    requires forall k :: 0 <= k < |s| ==> IsDigit(s[k]) || s[k] == '.'
    requires '.' !in s
    ensures AllDigits(s) && CountChar(s, '.') == 0
  {
    CountPositive(s, '.');
  }
}
