/** The PHP string functions the services use. */
module Text {

  /** The characters trim() strips: space, tab, newline, carriage return, NUL and vertical tab. */
  predicate IsBlank(c: char) {
    c == ' ' || c == '\t' || c == '\n' || c == '\r' || c == '\0' || c == '\U{000B}'
  }

  function TrimLeft(s: string): string {
    if s != "" && IsBlank(s[0]) then TrimLeft(s[1..]) else s
  }

  function TrimRight(s: string): string {
    if s != "" && IsBlank(s[|s| - 1]) then TrimRight(s[..|s| - 1]) else s
  }

  function Trim(s: string): string {
    TrimRight(TrimLeft(s))
  }

  lemma {:induction false} TrimLeftStops(s: string)
    ensures TrimLeft(s) == "" || !IsBlank(TrimLeft(s)[0])
    ensures forall c :: c in TrimLeft(s) ==> c in s
  {
    if s != "" && IsBlank(s[0]) {
      TrimLeftStops(s[1..]);
    }
  }

  lemma {:induction false} TrimRightStops(s: string)
    ensures TrimRight(s) <= s
    ensures TrimRight(s) == "" || !IsBlank(TrimRight(s)[|TrimRight(s)| - 1])
  {
    if s != "" && IsBlank(s[|s| - 1]) {
      TrimRightStops(s[..|s| - 1]);
    }
  }

  /** Trimming is done exactly when neither end is blank. */
  lemma TrimmedIff(s: string)
    ensures Trim(s) == s <==> s == "" || (!IsBlank(s[0]) && !IsBlank(s[|s| - 1]))
  {
    TrimLeftStops(s);
    TrimRightStops(TrimLeft(s));
    if Trim(s) == s && s != "" {
      TrimLeftShortens(s);
    }
  }

  lemma {:induction false} TrimLeftShortens(s: string)
    ensures |TrimLeft(s)| <= |s| && (|TrimLeft(s)| == |s| ==> TrimLeft(s) == s)
  {
    if s != "" && IsBlank(s[0]) {
      TrimLeftShortens(s[1..]);
    }
  }

  lemma TrimStops(s: string)
    ensures Trim(Trim(s)) == Trim(s)
    ensures forall c :: c in Trim(s) ==> c in s
  {
    TrimLeftStops(s);
    TrimRightStops(TrimLeft(s));
    var t := Trim(s);
    if t != "" {
      assert t[0] == TrimLeft(s)[0];
    }
    TrimmedIff(t);
  }

  /** What is trimmed away is blank, and what is left neither starts nor ends with a blank. */
  lemma TrimCuts(s: string) returns (i: nat, j: nat)
    ensures i <= j <= |s| && Trim(s) == s[i..j]
    ensures forall k :: 0 <= k < |s| && !(i <= k < j) ==> IsBlank(s[k])
    ensures i < j ==> !IsBlank(s[i]) && !IsBlank(s[j - 1])
  {
    i := LeftCut(s);
    var kept := RightCut(s[i..]);
    j := i + kept;
    assert s[i..][..kept] == s[i..j];
    forall k | 0 <= k < |s| && !(i <= k < j) ensures IsBlank(s[k]) {
      if k >= j {
        assert s[k] == s[i..][k - i];
      }
    }
  }

  lemma {:induction false} LeftCut(s: string) returns (i: nat)
    ensures i <= |s| && TrimLeft(s) == s[i..] && (forall k :: 0 <= k < i ==> IsBlank(s[k]))
    ensures i < |s| ==> !IsBlank(s[i])
  {
    if s == "" || !IsBlank(s[0]) {
      return 0;
    }
    i := LeftCut(s[1..]);
    i := i + 1;
  }

  lemma {:induction false} RightCut(s: string) returns (j: nat)
    ensures j <= |s| && TrimRight(s) == s[..j] && (forall k :: j <= k < |s| ==> IsBlank(s[k]))
    ensures 0 < j ==> !IsBlank(s[j - 1])
  {
    if s == "" || !IsBlank(s[|s| - 1]) {
      assert s == s[..|s|];
      return |s|;
    }
    j := RightCut(s[..|s| - 1]);
    assert s[..|s| - 1][..j] == s[..j];
  }

  function Digit(d: nat): char
    requires d < 10
  {
    "0123456789"[d]
  }

  /** An integer written out, as string concatenation writes it. */
  function Decimal(n: nat): (s: string)
    ensures s != ""
  {
    if n < 10 then [Digit(n)] else Decimal(n / 10) + [Digit(n % 10)]
  }

  /** The number that a string of digits stands for. */
  function Value(s: string): int {
    if s == "" then 0 else 10 * Value(s[..|s| - 1]) + (s[|s| - 1] as int - '0' as int)
  }

  /** Only digits, no leading zero, and they stand for the number. */
  lemma {:induction false} DecimalReads(n: nat)
    ensures Value(Decimal(n)) == n && (forall c :: c in Decimal(n) ==> '0' <= c <= '9')
    ensures n > 0 ==> Decimal(n)[0] != '0'
  {
    if n < 10 {
      assert Decimal(n)[..0] == "" && Value("") == 0;
    } else {
      DecimalReads(n / 10);
      assert Decimal(n)[..|Decimal(n)| - 1] == Decimal(n / 10);
    }
  }

  lemma {:induction false} DecimalInjective(m: nat, n: nat)
    requires Decimal(m) == Decimal(n)
    ensures m == n
  {
    var s, t := Decimal(m), Decimal(n);
    assert s[|s| - 1] == Digit(m % 10) && t[|t| - 1] == Digit(n % 10);
    assert m % 10 == n % 10;
    if m >= 10 && n >= 10 {
      assert s[..|s| - 1] == Decimal(m / 10) && t[..|t| - 1] == Decimal(n / 10);
      DecimalInjective(m / 10, n / 10);
    }
  }
}
