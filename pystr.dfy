/**
 * The Python string operations the modelled code relies on, restricted to
 * ASCII: `str.lower`, `str.split`, `sep.join`, `str.replace`, `str.strip`,
 * `str.isdigit`, `str.startswith`, `in` on strings and `int(...)`.
 */
module PyStr {
  import opened Wrappers

  // ---------------------------------------------------------------- lower

  function LowerChar(c: char): char
  {
    if 'A' <= c <= 'Z' then (c as int + 32) as char else c
  }

  /** `s.lower()` on ASCII letters. */
  function Lower(s: string): string
  {
    seq(|s|, i requires 0 <= i < |s| => LowerChar(s[i]))
  }

  /** `[x.lower() for x in xs]`. */
  function LowerAll(xs: seq<string>): (r: seq<string>)
    ensures |r| == |xs| && forall i :: 0 <= i < |xs| ==> r[i] == Lower(xs[i])
  {
    seq(|xs|, i requires 0 <= i < |xs| => Lower(xs[i]))
  }

  lemma LowerIdempotent(s: string)
    ensures Lower(Lower(s)) == Lower(s)
  {
  }

  // ---------------------------------------------------------------- prefixes and substrings

  predicate StartsWith(s: string, p: string)
  {
    |p| <= |s| && s[..|p|] == p
  }

  predicate EndsWith(s: string, q: string)
  {
    |q| <= |s| && s[|s| - |q|..] == q
  }

  /** Python's `sub in s` for strings. */
  predicate IsSubstring(sub: string, s: string)
    decreases |s|
  {
    StartsWith(s, sub) || (|s| > 0 && IsSubstring(sub, s[1..]))
  }

  /** The first position of `c` in `s`. */
  function FirstIndex(s: string, c: char): (i: nat)
    requires c in s
    ensures i < |s| && s[i] == c
    ensures forall j :: 0 <= j < i ==> s[j] != c
  {
    if s[0] == c then 0 else 1 + FirstIndex(s[1..], c)
  }

  // ---------------------------------------------------------------- split and join

  /** `s.split(d)` for a one-character separator: never empty. */
  function Split(s: string, d: char): (parts: seq<string>)
    ensures |parts| >= 1
  {
    if s == [] then [""]
    else
      var rest := Split(s[1..], d);
      if s[0] == d then [""] + rest else [[s[0]] + rest[0]] + rest[1..]
  }

  /** `sep.join(parts)`. */
  function Join(parts: seq<string>, sep: string): string
  {
    if |parts| == 0 then ""
    else if |parts| == 1 then parts[0]
    else parts[0] + sep + Join(parts[1..], sep)
  }

  /** `s.split(c, 1)` when `c` occurs in `s`: the text before and after the first `c`. */
  function SplitOnce(s: string, c: char): (r: (string, string))
    requires c in s
    ensures c !in r.0 && s == r.0 + [c] + r.1
  {
    var i := FirstIndex(s, c);
    assert s == s[..i] + [c] + s[i + 1..];
    (s[..i], s[i + 1..])
  }

  lemma {:induction false} SplitPartsAvoidSep(s: string, d: char)
    ensures forall p :: p in Split(s, d) ==> d !in p
  {
    if s != [] {
      SplitPartsAvoidSep(s[1..], d);
    }
  }

  lemma {:induction false} JoinSplit(s: string, d: char)
    ensures Join(Split(s, d), [d]) == s
  {
    if s != [] {
      JoinSplit(s[1..], d);
      var rest := Split(s[1..], d);
      if s[0] == d {
        assert Split(s, d) == [""] + rest;
        assert Join([""] + rest, [d]) == "" + [d] + Join(rest, [d]);
      } else {
        var parts := [[s[0]] + rest[0]] + rest[1..];
        assert Split(s, d) == parts;
        if |rest| == 1 {
          assert Join(parts, [d]) == [s[0]] + rest[0];
        } else {
          assert parts[1..] == rest[1..];
          assert Join(rest, [d]) == rest[0] + [d] + Join(rest[1..], [d]);
          assert Join(parts, [d]) == [s[0]] + rest[0] + [d] + Join(rest[1..], [d]);
        }
      }
    }
  }

  /** Splitting a separator-free prefix followed by `t` glues the prefix to the first part of `t`. */
  lemma {:induction false} SplitPrefix(a: string, d: char, t: string)
    requires d !in a
    ensures Split(a + t, d) == [a + Split(t, d)[0]] + Split(t, d)[1..]
  {
    if a != [] {
      SplitPrefix(a[1..], d, t);
      assert (a + t)[1..] == a[1..] + t;
      assert [a[0]] + (a[1..] + Split(t, d)[0]) == a + Split(t, d)[0];
    } else {
      var parts := Split(t, d);
      assert a + t == t && a + parts[0] == parts[0];
      assert parts == [parts[0]] + parts[1..];
    }
  }

  lemma {:induction false} SplitJoin(parts: seq<string>, d: char)
    requires |parts| >= 1
    requires forall p :: p in parts ==> d !in p
    ensures Split(Join(parts, [d]), d) == parts
  {
    if |parts| == 1 {
      SplitPrefix(parts[0], d, "");
      assert parts[0] + "" == parts[0];
    } else {
      var tail := Join(parts[1..], [d]);
      SplitJoin(parts[1..], d);
      assert Join(parts, [d]) == parts[0] + ([d] + tail);
      SplitPrefix(parts[0], d, [d] + tail);
      assert ([d] + tail)[1..] == tail;
      assert Split([d] + tail, d) == [""] + parts[1..];
      assert parts[0] + "" == parts[0];
    }
  }

  // ---------------------------------------------------------------- replace

  /** `s.replace(pat, rep)`: every non-overlapping occurrence, left to right. */
  function Replace(s: string, pat: string, rep: string): string
    requires |pat| > 0
    decreases |s|
  {
    if |s| < |pat| then s
    else if s[..|pat|] == pat then rep + Replace(s[|pat|..], pat, rep)
    else [s[0]] + Replace(s[1..], pat, rep)
  }

  lemma {:induction false} ReplaceCharRemoves(s: string, c: char, rep: string)
    requires c !in rep
    ensures c !in Replace(s, [c], rep)
  {
    if |s| >= 1 {
      ReplaceCharRemoves(s[|[c]|..], c, rep);
      ReplaceCharRemoves(s[1..], c, rep);
    }
  }

  lemma {:induction false} ReplaceCharKeeps(s: string, c: char, rep: string, e: char)
    requires e !in s && e !in rep
    ensures e !in Replace(s, [c], rep)
  {
    if |s| >= 1 {
      ReplaceCharKeeps(s[1..], c, rep, e);
    }
  }

  lemma {:induction false} ReplaceAbsent(s: string, pat: string, rep: string)
    requires |pat| > 0 && !IsSubstring(pat, s)
    ensures Replace(s, pat, rep) == s
  {
    if |s| >= |pat| {
      ReplaceAbsent(s[1..], pat, rep);
      assert [s[0]] + s[1..] == s;
    }
  }

  // ---------------------------------------------------------------- strip

  /** The ASCII characters `str.isspace` accepts: tab to carriage return, the four separators 0x1C-0x1F, and space. */
  predicate IsSpace(c: char)
  {
    '\t' <= c <= '\r' || '\U{1C}' <= c <= '\U{1F}' || c == ' '
  }

  function LStrip(s: string): string
  {
    if |s| > 0 && IsSpace(s[0]) then LStrip(s[1..]) else s
  }

  function RStrip(s: string): string
  {
    if |s| > 0 && IsSpace(s[|s| - 1]) then RStrip(s[..|s| - 1]) else s
  }

  /** `s.strip()` for ASCII whitespace. */
  function Strip(s: string): string
  {
    RStrip(LStrip(s))
  }

  // ---------------------------------------------------------------- digits and int()

  predicate IsDigitChar(c: char) { '0' <= c <= '9' }

  /** `s.isdigit()` for ASCII digits: non-empty and digits only. */
  predicate IsDigits(s: string)
  {
    |s| > 0 && forall i :: 0 <= i < |s| ==> IsDigitChar(s[i])
  }

  function DigitsValue(s: string): nat
    requires forall i :: 0 <= i < |s| ==> IsDigitChar(s[i])
  {
    if s == [] then 0
    else
      var last := s[|s| - 1];
      assert IsDigitChar(last);
      DigitsValue(s[..|s| - 1]) * 10 + (last as int - '0' as int)
  }

  function DigitChar(d: nat): (c: char)
    requires d < 10
    ensures IsDigitChar(c)
  {
    ('0' as int + d) as char
  }

  /** `str(n)` for a natural number. */
  function NatToString(n: nat): (s: string)
    ensures IsDigits(s)
  {
    if n < 10 then [DigitChar(n)] else NatToString(n / 10) + [DigitChar(n % 10)]
  }

  lemma {:induction false} NatToStringValue(n: nat)
    ensures DigitsValue(NatToString(n)) == n
  {
    if n >= 10 {
      NatToStringValue(n / 10);
      var s := NatToString(n);
      assert s[..|s| - 1] == NatToString(n / 10);
    }
  }

  /**
   * `int(s)` on a text without surrounding whitespace or underscores: an
   * optional sign followed by ASCII decimal digits; anything else raises
   * ValueError. (Python also accepts surrounding whitespace and single
   * underscores between digits; those texts raise here.)
   */
  function ParseInt(s: string): (r: Result<int>)
    ensures r.Ok? <==> IsDigits(s) || (|s| >= 2 && (s[0] == '+' || s[0] == '-') && IsDigits(s[1..]))
  {
    if IsDigits(s) then Ok(DigitsValue(s))
    else if |s| >= 2 && s[0] == '-' && IsDigits(s[1..]) then Ok(-(DigitsValue(s[1..]) as int))
    else if |s| >= 2 && s[0] == '+' && IsDigits(s[1..]) then Ok(DigitsValue(s[1..]))
    else Err(ValueError("invalid literal for int() with base 10"))
  }

  lemma ParseIntOfNat(n: nat)
    ensures ParseInt(NatToString(n)) == Ok(n)
  {
    NatToStringValue(n);
  }
}
