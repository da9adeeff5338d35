/**
 * The few `java.lang.String`, `Long` and `int` behaviours the control plane relies on:
 * `trim`, `startsWith`, `equalsIgnoreCase`, `split(",")`, `Long.valueOf`/`Long.toString`
 * and 32-bit `int` increment.  Strings are sequences of UTF-16 code units (`char`).
 */
module JavaStrings {
  import opened Common

  // ---------------------------------------------------------------------------------------
  // trim()

  /** `String.trim()` strips every code unit up to and including the space character. */
  predicate IsTrimmable(c: char) { c <= ' ' }

  /** A string that `trim()` turns into the empty string. */
  predicate IsBlank(s: string) { forall i :: 0 <= i < |s| ==> IsTrimmable(s[i]) }

  /** `s` with its leading trimmable code units removed. */
  function TrimStart(s: string): (r: string)
    ensures |r| <= |s| && r == s[|s| - |r|..]
    ensures r == [] || !IsTrimmable(r[0])
    ensures forall k :: 0 <= k < |s| - |r| ==> IsTrimmable(s[k])
  {
    if s != [] && IsTrimmable(s[0]) then TrimStart(s[1..]) else s
  }

  /** `s` with its trailing trimmable code units removed. */
  function TrimEnd(s: string): (r: string)
    ensures |r| <= |s| && r == s[..|r|]
    ensures r == [] || !IsTrimmable(r[|r| - 1])
    ensures forall k :: |r| <= k < |s| ==> IsTrimmable(s[k])
  {
    if s != [] && IsTrimmable(s[|s| - 1]) then TrimEnd(s[..|s| - 1]) else s
  }

  /** Number of code units `trim()` removes from the front of `s`. */
  function LeadingTrimmed(s: string): nat
  {
    |s| - |TrimStart(s)|
  }

  /**
   * `String.trim()`: the window of `s` left after removing trimmable code units from both
   * ends.  The window is bounded by non-trimmable code units, everything outside it is
   * trimmable, and it is empty exactly when `s` is blank.
   */
  function Trim(s: string): (r: string)
    ensures LeadingTrimmed(s) + |r| <= |s|
    ensures r == s[LeadingTrimmed(s)..LeadingTrimmed(s) + |r|]
    ensures forall k :: 0 <= k < LeadingTrimmed(s) ==> IsTrimmable(s[k])
    ensures forall k :: LeadingTrimmed(s) + |r| <= k < |s| ==> IsTrimmable(s[k])
    ensures r == [] || (!IsTrimmable(r[0]) && !IsTrimmable(r[|r| - 1]))
    ensures r == [] <==> IsBlank(s)
  {
    var t := TrimStart(s);
    var r := TrimEnd(t);
    assert t == s[LeadingTrimmed(s)..];
    // An empty window means `TrimEnd` found nothing to keep, so `TrimStart` consumed everything.
    assert r == [] ==> t == [];
    r
  }

  /** A string already bounded by non-trimmable code units is left alone by `trim()`. */
  lemma TrimUntouched(s: string)
    requires s == [] || (!IsTrimmable(s[0]) && !IsTrimmable(s[|s| - 1]))
    ensures Trim(s) == s
  {
  }

  /** `trim()` removes blanks and nothing else: `s` is its trimmed form between two blank runs. */
  lemma TrimRemovesBlanks(s: string) returns (before: string, after: string)
    ensures s == before + Trim(s) + after && IsBlank(before) && IsBlank(after)
  {
    var lead := LeadingTrimmed(s);
    var stop := lead + |Trim(s)|;
    BlankEnds(s, lead, stop);
    before, after := s[..lead], s[stop..];
  }

  /** Cutting `s` where only trimmable code units lie outside the cuts leaves two blank runs. */
  lemma BlankEnds(s: string, lead: nat, stop: nat)
    requires lead <= stop <= |s|
    requires forall k :: 0 <= k < lead ==> IsTrimmable(s[k])
    requires forall k :: stop <= k < |s| ==> IsTrimmable(s[k])
    ensures s == s[..lead] + s[lead..stop] + s[stop..]
    ensures IsBlank(s[..lead]) && IsBlank(s[stop..])
  {
    assert s[..stop] == s[..lead] + s[lead..stop];
    forall i | 0 <= i < |s[stop..]|
      ensures IsTrimmable(s[stop..][i])
    {
      assert s[stop..][i] == s[stop + i];
    }
  }

  /** `trim()` is idempotent. */
  lemma TrimIdempotent(s: string)
    ensures Trim(Trim(s)) == Trim(s)
  {
    TrimUntouched(Trim(s));
  }

  // ---------------------------------------------------------------------------------------
  // startsWith(), equalsIgnoreCase()

  /** `s.startsWith(prefix)`. */
  predicate StartsWith(s: string, prefix: string)
  {
    |prefix| <= |s| && s[..|prefix|] == prefix
  }

  /** `Character.toUpperCase` restricted to ASCII letters. */
  function ToUpper(c: char): char
  {
    if 'a' <= c <= 'z' then (c as int - 32) as char else c
  }

  /** `Character.toLowerCase` restricted to ASCII letters. */
  function ToLower(c: char): char
  {
    if 'A' <= c <= 'Z' then (c as int + 32) as char else c
  }

  /** The per-character test of `String.regionMatches(true, ...)`. */
  predicate CharsMatchIgnoringCase(c1: char, c2: char)
  {
    c1 == c2 || ToUpper(c1) == ToUpper(c2) || ToLower(ToUpper(c1)) == ToLower(ToUpper(c2))
  }

  /** `a.equalsIgnoreCase(b)` for a non-null `b`. */
  predicate EqualsIgnoreCase(a: string, b: string)
  {
    |a| == |b| && forall i :: 0 <= i < |a| ==> CharsMatchIgnoringCase(a[i], b[i])
  }

  /** `s.toLowerCase()` over ASCII letters. */
  function LowerCase(s: string): (r: string)
    ensures |r| == |s| && forall i :: 0 <= i < |s| ==> r[i] == ToLower(s[i])
  {
    seq(|s|, i requires 0 <= i < |s| => ToLower(s[i]))
  }

  /** Case-insensitive equality is equality of the lower-cased strings. */
  lemma EqualsIgnoreCaseIsLowerCaseEquality(a: string, b: string)
    ensures EqualsIgnoreCase(a, b) <==> LowerCase(a) == LowerCase(b)
  {
    if LowerCase(a) == LowerCase(b) {
      forall i | 0 <= i < |a| ensures CharsMatchIgnoringCase(a[i], b[i]) {
        assert LowerCase(a)[i] == LowerCase(b)[i];
      }
    }
  }

  // ---------------------------------------------------------------------------------------
  // split(",")

  /** The pieces of `s` between commas, empty pieces included (`split(",", -1)`). */
  function Pieces(s: string): (r: seq<string>)
    ensures |r| >= 1
    ensures forall i :: 0 <= i < |r| ==> ',' !in r[i]
  {
    if s == [] then [[]]
    else
      var rest := Pieces(s[1..]);
      if s[0] == ',' then [[]] + rest else [[s[0]] + rest[0]] + rest[1..]
  }

  /** `String.join(",", ps)`. */
  function Join(ps: seq<string>): string
    requires |ps| >= 1
  {
    if |ps| == 1 then ps[0] else ps[0] + [','] + Join(ps[1..])
  }

  /** Splitting at commas and joining with commas gives the string back. */
  lemma {:induction false} JoinPieces(s: string)
    ensures Join(Pieces(s)) == s
  {
    if s != [] {
      var rest := Pieces(s[1..]);
      JoinPieces(s[1..]);
      if s[0] == ',' {
        assert Pieces(s) == [[]] + rest;
        assert Pieces(s)[1..] == rest;
      } else if |rest| == 1 {
        assert Pieces(s) == [[s[0]] + rest[0]];
      } else {
        assert Pieces(s)[1..] == rest[1..];
        assert Join(rest) == rest[0] + [','] + Join(rest[1..]);
      }
    }
  }

  /** Comma-free text in front of a string joins the string's first piece. */
  lemma {:induction false} PiecesPrefix(x: string, s: string)
    requires ',' !in x
    ensures Pieces(x + s) == [x + Pieces(s)[0]] + Pieces(s)[1..]
  {
    if x == [] {
      assert x + s == s;
      assert x + Pieces(s)[0] == Pieces(s)[0];
      assert [Pieces(s)[0]] + Pieces(s)[1..] == Pieces(s);
    } else {
      var t := x + s;
      assert t[0] == x[0] && t[1..] == x[1..] + s;
      assert x[1..] + s == t[1..];
      PiecesPrefix(x[1..], s);
      assert [x[0]] + (x[1..] + Pieces(s)[0]) == x + Pieces(s)[0];
    }
  }

  /**
   * The other round trip: joining comma-free pieces with commas and splitting at the
   * commas gives the pieces back.
   */
  lemma {:induction false} PiecesOfJoin(ps: seq<string>)
    requires |ps| >= 1
    requires forall i :: 0 <= i < |ps| ==> ',' !in ps[i]
    ensures Pieces(Join(ps)) == ps
  {
    if |ps| == 1 {
      PiecesPrefix(ps[0], []);
      assert ps[0] + [] == ps[0];
    } else {
      var j := Join(ps[1..]);
      PiecesOfJoin(ps[1..]);
      var t := [','] + j;
      assert t[0] == ',' && t[1..] == j;
      assert Pieces(t) == [[]] + ps[1..];
      assert Join(ps) == ps[0] + t;
      PiecesPrefix(ps[0], t);
      assert ps[0] + [] == ps[0];
    }
  }

  /** A string has only empty pieces exactly when it consists of commas alone. */
  lemma {:induction false} PiecesAllEmpty(s: string)
    ensures (forall i :: 0 <= i < |Pieces(s)| ==> Pieces(s)[i] == []) <==>
            (forall i :: 0 <= i < |s| ==> s[i] == ',')
  {
    if s != [] {
      PiecesAllEmpty(s[1..]);
      var rest := Pieces(s[1..]);
      if s[0] == ',' {
        var ps := Pieces(s);
        assert ps == [[]] + rest;
        if forall i :: 0 <= i < |rest| ==> rest[i] == [] {
          forall i | 0 <= i < |ps| ensures ps[i] == [] {
            if i > 0 { assert ps[i] == rest[i - 1]; }
          }
        }
        if forall i :: 0 <= i < |ps| ==> ps[i] == [] {
          forall i | 0 <= i < |rest| ensures rest[i] == [] {
            assert ps[i + 1] == rest[i];
          }
        }
        assert (forall i :: 0 <= i < |s| ==> s[i] == ',') <==>
               (forall i :: 0 <= i < |s[1..]| ==> s[1..][i] == ',') by {
          assert forall i :: 1 <= i < |s| ==> s[i] == s[1..][i - 1];
        }
      } else {
        assert Pieces(s)[0] != [];
      }
    }
  }

  /** Removes the empty strings at the end of a piece list, as `split` with limit 0 does. */
  function DropTrailingEmpty(ps: seq<string>): (r: seq<string>)
    ensures |r| <= |ps| && r == ps[..|r|]
    ensures r == [] || r[|r| - 1] != []
    ensures forall k :: |r| <= k < |ps| ==> ps[k] == []
  {
    if ps != [] && ps[|ps| - 1] == [] then DropTrailingEmpty(ps[..|ps| - 1]) else ps
  }

  /**
   * `s.split(",")`: without a comma the string itself; otherwise the pieces between commas
   * with the trailing empty pieces dropped.
   */
  function SplitComma(s: string): (r: seq<string>)
    ensures forall i :: 0 <= i < |r| ==> ',' !in r[i]
  {
    if ',' !in s then [s] else DropTrailingEmpty(Pieces(s))
  }

  /** The split of `s` is a prefix of its pieces; what is dropped is empty. */
  lemma SplitIsPiecesPrefix(s: string)
    requires ',' in s
    ensures |SplitComma(s)| <= |Pieces(s)| && SplitComma(s) == Pieces(s)[..|SplitComma(s)|]
    ensures forall k :: |SplitComma(s)| <= k < |Pieces(s)| ==> Pieces(s)[k] == []
    ensures Join(Pieces(s)) == s
  {
    JoinPieces(s);
  }

  /**
   * `split(",")` returns an empty array exactly for a non-empty string made of commas
   * alone; every other string gives at least one element.
   */
  lemma SplitEmptyIffOnlyCommas(s: string)
    ensures SplitComma(s) == [] <==> (s != [] && forall i :: 0 <= i < |s| ==> s[i] == ',')
  {
    if ',' in s {
      PiecesAllEmpty(s);
      var ps := Pieces(s);
      if !(forall i :: 0 <= i < |s| ==> s[i] == ',') {
        var i :| 0 <= i < |ps| && ps[i] != [];
        assert |DropTrailingEmpty(ps)| > i;
      }
    } else if s != [] {
      assert s[0] != ',';
    }
  }

  // ---------------------------------------------------------------------------------------
  // Long.valueOf(), Long.toString(), int arithmetic

  const LongMin: int := -0x8000_0000_0000_0000
  const LongMax: int := 0x7fff_ffff_ffff_ffff
  const IntMin: int := -0x8000_0000
  const IntMax: int := 0x7fff_ffff

  predicate IsDigit(c: char) { '0' <= c <= '9' }

  predicate AllDigits(s: string) { forall i :: 0 <= i < |s| ==> IsDigit(s[i]) }

  /** The value of a string of decimal digits, most significant first. */
  function DigitsValue(s: string): nat
    requires AllDigits(s)
  {
    if s == [] then 0 else DigitsValue(s[..|s| - 1]) * 10 + (s[|s| - 1] as int - '0' as int)
  }

  function DigitChar(d: nat): char
    requires d < 10
  {
    (d + '0' as int) as char
  }

  /** The decimal digits of `n` without leading zeros. */
  function NatToString(n: nat): (s: string)
    ensures s != [] && AllDigits(s)
  {
    if n < 10 then [DigitChar(n)] else NatToString(n / 10) + [DigitChar(n % 10)]
  }

  /** `Long.toString(n)` (and `Integer.toString(n)`, and `"" + n`). */
  function LongToString(n: int): (s: string)
    ensures s != []
  {
    if n < 0 then "-" + NatToString(-n) else NatToString(n)
  }

  /**
   * `Long.valueOf(s)`: an optional `-` or `+` followed by at least one decimal digit, with a
   * value inside the range of `long`; anything else raises `NumberFormatException` (`None`).
   */
  function ParseLong(s: string): (r: Option<int>)
    ensures r.Some? ==> LongMin <= r.value <= LongMax
    ensures r.Some? ==> s != [] && AllDigits(if s[0] == '-' || s[0] == '+' then s[1..] else s)
  {
    if s == [] then None
    else
      var digits := if s[0] == '-' || s[0] == '+' then s[1..] else s;
      if digits == [] || !AllDigits(digits) then None
      else
        var v: int := if s[0] == '-' then -(DigitsValue(digits) as int) else DigitsValue(digits);
        if LongMin <= v <= LongMax then Some(v) else None
  }

  /** Reading back the decimal digits of `n` gives `n`. */
  lemma {:induction false} NatToStringRoundTrip(n: nat)
    ensures DigitsValue(NatToString(n)) == n
  {
    if n >= 10 {
      NatToStringRoundTrip(n / 10);
      var s := NatToString(n);
      assert s[..|s| - 1] == NatToString(n / 10);
    }
  }

  /** `Long.valueOf(Long.toString(n)) == n` for every `long` `n`. */
  lemma ParseLongRoundTrip(n: int)
    requires LongMin <= n <= LongMax
    ensures ParseLong(LongToString(n)) == Some(n)
  {
    if n < 0 {
      NatToStringRoundTrip(-n);
      assert LongToString(n)[1..] == NatToString(-n);
    } else {
      NatToStringRoundTrip(n);
      assert IsDigit(LongToString(n)[0]);
    }
  }

  /** `n + 1` on a Java `int`: wraps from `Integer.MAX_VALUE` to `Integer.MIN_VALUE`. */
  function IntIncrement(n: int): (r: int)
    requires IntMin <= n <= IntMax
    ensures IntMin <= r <= IntMax
    ensures n < IntMax ==> r == n + 1
    ensures n == IntMax ==> r == IntMin
  {
    if n == IntMax then IntMin else n + 1
  }
}
