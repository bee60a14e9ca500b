/**
 * Models of the Go library string routines the ledger relies on:
 * `strings.TrimSpace`, `strings.Split` with a one-character separator,
 * `strconv.Atoi`, and the decimal rendering `fmt` uses for an integer (`%v`).
 * Strings are sequences of Unicode scalar values; integers are unbounded.
 */
module GoStrings {
  import opened Wrappers

  // ---------------------------------------------------------------------
  // strings.TrimSpace
  // ---------------------------------------------------------------------

  /** Go's `unicode.IsSpace`: the Unicode White_Space property. */
  predicate IsSpace(c: char) {
    var n := c as int;
    (9 <= n <= 13) || n == 0x20 || n == 0x85 || n == 0xA0 || n == 0x1680 ||
    (0x2000 <= n <= 0x200A) || n == 0x2028 || n == 0x2029 || n == 0x202F ||
    n == 0x205F || n == 0x3000
  }

  predicate AllSpace(s: string) {
    forall i :: 0 <= i < |s| ==> IsSpace(s[i])
  }

  /** Neither end of `s` is whitespace. */
  predicate Trimmed(s: string) {
    s == [] || (!IsSpace(s[0]) && !IsSpace(s[|s| - 1]))
  }

  function TrimLeftSpace(s: string): string {
    if |s| > 0 && IsSpace(s[0]) then TrimLeftSpace(s[1..]) else s
  }

  function TrimRightSpace(s: string): string {
    if |s| > 0 && IsSpace(s[|s| - 1]) then TrimRightSpace(s[..|s| - 1]) else s
  }

  /** `strings.TrimSpace`: drop leading and trailing whitespace. */
  function TrimSpace(s: string): string {
    TrimRightSpace(TrimLeftSpace(s))
  }

  /** How many whitespace characters `TrimLeftSpace` drops from the front. */
  function LeftCut(s: string): (i: nat)
    ensures i <= |s|
  {
    if |s| > 0 && IsSpace(s[0]) then 1 + LeftCut(s[1..]) else 0
  }

  /** How many characters `TrimRightSpace` keeps. */
  function RightCut(s: string): (j: nat)
    ensures j <= |s|
  {
    if |s| > 0 && IsSpace(s[|s| - 1]) then RightCut(s[..|s| - 1]) else |s|
  }

  lemma {:induction false} TrimLeftShape(s: string)
    ensures TrimLeftSpace(s) == s[LeftCut(s)..] && AllSpace(s[..LeftCut(s)])
    ensures TrimLeftSpace(s) == [] || !IsSpace(TrimLeftSpace(s)[0])
  {
    if |s| > 0 && IsSpace(s[0]) {
      var t := s[1..];
      TrimLeftShape(t);
      var i := LeftCut(t);
      assert t[i..] == s[i + 1..];
      var pre, tail := s[..i + 1], t[..i];
      forall k | 1 <= k < |pre| ensures IsSpace(pre[k]) {
        assert pre[k] == tail[k - 1];
      }
    } else {
      assert s[0..] == s;
    }
  }

  lemma {:induction false} TrimRightShape(s: string)
    ensures TrimRightSpace(s) == s[..RightCut(s)] && AllSpace(s[RightCut(s)..])
    ensures TrimRightSpace(s) == [] || !IsSpace(TrimRightSpace(s)[|TrimRightSpace(s)| - 1])
  {
    if |s| > 0 && IsSpace(s[|s| - 1]) {
      var p := s[..|s| - 1];
      TrimRightShape(p);
      var j := RightCut(p);
      assert p[..j] == s[..j];
      var post, rest := s[j..], p[j..];
      forall k | 0 <= k < |rest| ensures IsSpace(post[k]) {
        assert post[k] == rest[k];
      }
    } else {
      assert s[..|s|] == s;
    }
  }

  /**
   * TrimSpace removes whitespace only, from the two ends only, and leaves
   * neither end whitespace: the result is the longest infix that satisfies this.
   */
  lemma TrimSpaceShape(s: string)
    ensures Trimmed(TrimSpace(s))
    ensures exists i, j :: 0 <= i <= j <= |s| && TrimSpace(s) == s[i..j] && AllSpace(s[..i]) && AllSpace(s[j..])
  {
    TrimLeftShape(s);
    var i := LeftCut(s);
    var t := s[i..];
    TrimRightShape(t);
    var j := RightCut(t);
    var r := TrimSpace(s);
    assert r == t[..j] == s[i..i + j];
    assert t[j..] == s[i + j..];
    if r != [] {
      assert r[0] == t[0];
    }
    assert 0 <= i <= i + j <= |s| && r == s[i..i + j] && AllSpace(s[..i]) && AllSpace(s[i + j..]);
  }

  /** A string already trimmed is left as it is. */
  lemma TrimSpaceOfTrimmed(s: string)
    requires Trimmed(s)
    ensures TrimSpace(s) == s
  {
  }

  /** Trimming twice is trimming once. */
  lemma TrimSpaceIdempotent(s: string)
    ensures TrimSpace(TrimSpace(s)) == TrimSpace(s)
  {
    TrimSpaceShape(s);
    TrimSpaceOfTrimmed(TrimSpace(s));
  }

  /** The trimmed form is empty exactly when the string is all whitespace. */
  lemma TrimSpaceEmpty(s: string)
    ensures TrimSpace(s) == [] <==> AllSpace(s)
  {
    TrimSpaceShape(s);
    var i, j :| 0 <= i <= j <= |s| && TrimSpace(s) == s[i..j] && AllSpace(s[..i]) && AllSpace(s[j..]);
    if TrimSpace(s) == [] {
      assert i == j;
      forall k | 0 <= k < |s| ensures IsSpace(s[k]) {
        if k < i { assert s[..i][k] == s[k]; } else { assert s[j..][k - j] == s[k]; }
      }
    } else if AllSpace(s) {
      assert false;
    }
  }

  // ---------------------------------------------------------------------
  // strings.Split with a one-character separator
  // ---------------------------------------------------------------------

  /** `strings.Split(s, [sep])`: the pieces between separators, at least one. */
  function Split(s: string, sep: char): (parts: seq<string>)
    ensures |parts| >= 1
    decreases |s|
  {
    if |s| == 0 then [""]
    else
      var rest := Split(s[1..], sep);
      if s[0] == sep then [""] + rest
      else [[s[0]] + rest[0]] + rest[1..]
  }

  /** `strings.Join(parts, [sep])`. */
  function Join(parts: seq<string>, sep: char): string
    requires |parts| >= 1
  {
    if |parts| == 1 then parts[0] else parts[0] + [sep] + Join(parts[1..], sep)
  }

  /** Joining the pieces with the separator gives back the string. */
  lemma {:induction false} JoinOfSplit(s: string, sep: char)
    ensures Join(Split(s, sep), sep) == s
  {
    if |s| > 0 {
      var rest := Split(s[1..], sep);
      JoinOfSplit(s[1..], sep);
      if s[0] == sep {
        assert ([""] + rest)[1..] == rest;
      } else {
        var parts := [[s[0]] + rest[0]] + rest[1..];
        if |rest| > 1 {
          assert parts[1..] == rest[1..];
          assert Join(rest, sep) == rest[0] + [sep] + Join(rest[1..], sep);
        }
      }
    }
  }

  /** No piece contains the separator. */
  lemma {:induction false} SplitPiecesHaveNoSeparator(s: string, sep: char)
    ensures forall k :: 0 <= k < |Split(s, sep)| ==> sep !in Split(s, sep)[k]
  {
    if |s| > 0 {
      SplitPiecesHaveNoSeparator(s[1..], sep);
      var rest := Split(s[1..], sep);
      if s[0] != sep {
        assert sep !in [s[0]] + rest[0];
      }
    }
  }

  /** There is one more piece than there are separators. */
  lemma {:induction false} SplitCount(s: string, sep: char)
    ensures |Split(s, sep)| == multiset(s)[sep] + 1
  {
    if |s| > 0 {
      SplitCount(s[1..], sep);
      assert s == [s[0]] + s[1..];
      assert multiset(s) == multiset([s[0]]) + multiset(s[1..]);
    }
  }

  lemma {:induction false} SplitWithoutSeparator(a: string, sep: char)
    requires sep !in a
    ensures Split(a, sep) == [a]
  {
    if |a| > 0 {
      assert sep !in a[1..];
      SplitWithoutSeparator(a[1..], sep);
      assert [a[0]] + a[1..] == a;
    }
  }

  lemma {:induction false} SplitAfterPiece(a: string, b: string, sep: char)
    requires sep !in a
    ensures Split(a + [sep] + b, sep) == [a] + Split(b, sep)
  {
    var s := a + [sep] + b;
    if |a| == 0 {
      assert s[1..] == b;
    } else {
      assert s[1..] == a[1..] + [sep] + b;
      assert sep !in a[1..];
      SplitAfterPiece(a[1..], b, sep);
      assert [a[0]] + a[1..] == a;
    }
  }

  /** Splitting a join of separator-free pieces gives back the pieces. */
  lemma {:induction false} SplitOfJoin(parts: seq<string>, sep: char)
    requires |parts| >= 1
    requires forall k :: 0 <= k < |parts| ==> sep !in parts[k]
    ensures Split(Join(parts, sep), sep) == parts
  {
    if |parts| == 1 {
      SplitWithoutSeparator(parts[0], sep);
    } else {
      SplitOfJoin(parts[1..], sep);
      SplitAfterPiece(parts[0], Join(parts[1..], sep), sep);
      assert [parts[0]] + parts[1..] == parts;
    }
  }

  // ---------------------------------------------------------------------
  // strconv.Atoi and the decimal rendering of integers
  // ---------------------------------------------------------------------

  predicate IsDigit(c: char) {
    '0' <= c <= '9'
  }

  predicate AllDigits(s: string) {
    forall i :: 0 <= i < |s| ==> IsDigit(s[i])
  }

  /** The value of a string of decimal digits, most significant first. */
  function DigitsValue(s: string): nat
    requires AllDigits(s)
  {
    if |s| == 0 then 0
    else DigitsValue(s[..|s| - 1]) * 10 + ((s[|s| - 1] as int) - ('0' as int))
  }

  /**
   * `strconv.Atoi`: an optional sign followed by one or more decimal digits;
   * anything else (the empty string, a bare sign, spaces, letters) is an error.
   */
  function Atoi(s: string): Option<int> {
    if |s| == 0 then None
    else if s[0] == '-' || s[0] == '+' then
      var digits := s[1..];
      if |digits| > 0 && AllDigits(digits) then
        var v: int := DigitsValue(digits);
        Some(if s[0] == '-' then -v else v)
      else None
    else if AllDigits(s) then Some(DigitsValue(s))
    else None
  }

  function DigitChar(d: nat): char
    requires d < 10
  {
    ('0' as int + d) as char
  }

  function NatToString(n: nat): string
  {
    if n < 10 then [DigitChar(n)] else NatToString(n / 10) + [DigitChar(n % 10)]
  }

  /** What `fmt` prints for an integer with `%v`. */
  function IntToString(n: int): string {
    if n < 0 then "-" + NatToString(-n) else NatToString(n)
  }

  lemma {:induction false} NatToStringDigits(n: nat)
    ensures |NatToString(n)| > 0 && AllDigits(NatToString(n))
    ensures DigitsValue(NatToString(n)) == n
  {
    if n >= 10 {
      NatToStringDigits(n / 10);
      var s := NatToString(n);
      assert s[..|s| - 1] == NatToString(n / 10);
    }
  }

  /** Reading back what `%v` prints gives the number. */
  lemma AtoiOfIntToString(n: int)
    ensures Atoi(IntToString(n)) == Some(n)
  {
    if n < 0 {
      var d := NatToString(-n);
      NatToStringDigits(-n);
      assert IntToString(n) == "-" + d;
      assert ("-" + d)[1..] == d;
      assert IsDigit(d[0]);
    } else {
      var d := NatToString(n);
      NatToStringDigits(n);
      assert IntToString(n) == d;
      assert IsDigit(d[0]);
    }
  }

  /** A rendered natural number holds digits only, so never a '-'. */
  lemma NatToStringHasNoDash(n: nat)
    ensures '-' !in IntToString(n)
  {
    NatToStringDigits(n);
  }
}
