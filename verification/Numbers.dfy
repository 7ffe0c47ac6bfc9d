/** strconv.Atoi and the conversion to a 32-bit port. */
module Numbers {
  import opened Wrappers

  predicate AllDigits(s: string) {
    forall i | 0 <= i < |s| :: '0' <= s[i] <= '9'
  }

  function Decimal(s: string): nat
    requires AllDigits(s)
  {
    if |s| == 0 then 0
    else 10 * Decimal(s[..|s| - 1]) + (s[|s| - 1] as int - '0' as int)
  }

  /** None stands for the syntax and range errors of a 64-bit int. */
  function Atoi(s: string): Option<int> {
    var neg := |s| > 0 && s[0] == '-';
    var digits := if |s| > 0 && (s[0] == '-' || s[0] == '+') then s[1..] else s;
    if |digits| == 0 || !AllDigits(digits) then None
    else
      var v: int := if neg then 0 - Decimal(digits) else Decimal(digits);
      if -0x8000_0000_0000_0000 <= v < 0x8000_0000_0000_0000 then Some(v) else None
  }

  /** int32(v) keeps the low 32 bits. */
  function Int32(v: int): (r: int)
    ensures -0x8000_0000 <= r < 0x8000_0000
    ensures (v - r) % 0x1_0000_0000 == 0
    ensures -0x8000_0000 <= v < 0x8000_0000 ==> r == v
  {
    (v + 0x8000_0000) % 0x1_0000_0000 - 0x8000_0000
  }

  lemma ParsedDefault()
    ensures Atoi("6443") == Some(6443)
  {
    assert "6443"[..3] == "644" && "644"[..2] == "64" && "64"[..1] == "6" && "6"[..0] == "";
    assert Decimal("6") == 6;
    assert Decimal("64") == 64;
    assert Decimal("644") == 644;
  }

  // ----- the decimal notation -----

  /** The usual notation of a number: most significant digit first, no leading zero. */
  function Digits(n: nat): string {
    if n < 10 then [('0' as int + n) as char] else Digits(n / 10) + [('0' as int + n % 10) as char]
  }

  function Zeros(k: nat): (r: string)
    ensures |r| == k && forall i | 0 <= i < k :: r[i] == '0'
  {
    seq(k, i requires 0 <= i < k => '0')
  }

  lemma {:induction false} DigitsAreDigits(n: nat)
    ensures |Digits(n)| > 0 && AllDigits(Digits(n)) && Decimal(Digits(n)) == n
  {
    if n < 10 {
      assert Digits(n)[..0] == "";
    } else {
      DigitsAreDigits(n / 10);
      assert Digits(n)[..|Digits(n)| - 1] == Digits(n / 10);
    }
  }

  lemma {:induction false} LeadingZeros(k: nat, s: string)
    requires AllDigits(s)
    ensures AllDigits(Zeros(k) + s) && Decimal(Zeros(k) + s) == Decimal(s)
  {
    var t := Zeros(k) + s;
    if |s| > 0 {
      LeadingZeros(k, s[..|s| - 1]);
      assert t[..|t| - 1] == Zeros(k) + s[..|s| - 1];
    } else if k > 0 {
      LeadingZeros(k - 1, s);
      assert t[..k - 1] == Zeros(k - 1) + s;
    }
  }

  /** Every digit string is the notation of its value, up to leading zeros. */
  lemma {:induction false} DecimalNotation(s: string) returns (k: nat)
    requires |s| > 0 && AllDigits(s)
    ensures s == Zeros(k) + Digits(Decimal(s))
  {
    var front, last := s[..|s| - 1], s[|s| - 1];
    assert s == front + [last];
    if |front| == 0 {
      k := 0;
      assert Digits(Decimal(s)) == s;
    } else {
      k := DecimalNotation(front);
      if Decimal(front) == 0 {
        k := k + 1;
        assert Zeros(k) == Zeros(k - 1) + "0";
      }
      assert Digits(Decimal(s)) == if Decimal(front) == 0 then [last] else Digits(Decimal(front)) + [last];
    }
  }

  /** s is a decimal notation of v, with k leading zeros and an optional sign. */
  predicate Notation(s: string, v: int, k: nat) {
    || (v >= 0 && (s == Zeros(k) + Digits(v) || s == "+" + (Zeros(k) + Digits(v))))
    || (v <= 0 && s == "-" + (Zeros(k) + Digits(-v)))
  }

  function InRange(v: int): Option<int> {
    if -0x8000_0000_0000_0000 <= v < 0x8000_0000_0000_0000 then Some(v) else None
  }

  lemma UnsignedRead(t: string)
    requires |t| > 0 && AllDigits(t)
    ensures Atoi(t) == InRange(Decimal(t))
  {
    assert '0' <= t[0] <= '9';
    hide Decimal, AllDigits;
  }

  lemma PlusRead(t: string)
    requires |t| > 0 && AllDigits(t)
    ensures Atoi("+" + t) == InRange(Decimal(t))
  {
    hide Decimal, AllDigits;
    var p := "+" + t;
    assert p[0] == '+' && p[1..] == t;
  }

  lemma MinusRead(t: string)
    requires |t| > 0 && AllDigits(t)
    ensures Atoi("-" + t) == InRange(0 - Decimal(t))
  {
    hide Decimal, AllDigits;
    var p := "-" + t;
    assert p[0] == '-' && p[1..] == t;
  }

  lemma SignedRead(t: string)
    requires |t| > 0 && AllDigits(t)
    ensures Atoi(t) == Atoi("+" + t) == InRange(Decimal(t)) && Atoi("-" + t) == InRange(0 - Decimal(t))
  {
    hide Atoi, Decimal, AllDigits;
    UnsignedRead(t);
    PlusRead(t);
    MinusRead(t);
  }

  lemma NotationIsRead(s: string, v: int, k: nat)
    requires Notation(s, v, k)
    ensures Atoi(s) == InRange(v)
  {
    hide Atoi, Decimal, Digits, Zeros, AllDigits;
    var n := if v < 0 then -v else v;
    DigitsAreDigits(n);
    LeadingZeros(k, Digits(n));
    SignedRead(Zeros(k) + Digits(n));
  }

  lemma ReadIsNotation(s: string) returns (k: nat)
    requires Atoi(s).Some?
    ensures Notation(s, Atoi(s).value, k)
  {
    hide Decimal, Digits, Zeros;
    var signed := s[0] == '-' || s[0] == '+';
    var digits := if signed then s[1..] else s;
    k := DecimalNotation(digits);
    SignedRead(digits);
    assert s == if signed then [s[0]] + digits else digits;
    assert s == digits || s == "+" + digits || s == "-" + digits;
    hide Atoi, AllDigits;
  }

  /** strconv.Atoi: it reads v exactly from the decimal notations of v within 64 bits, with any
      leading zeros and an optional sign. */
  lemma AtoiMeaning(s: string, v: int)
    ensures Atoi(s) == Some(v) <==>
              && -0x8000_0000_0000_0000 <= v < 0x8000_0000_0000_0000
              && exists k: nat :: Notation(s, v, k)
  {
    if Atoi(s) == Some(v) {
      var k := ReadIsNotation(s);
    }
    if k: nat :| Notation(s, v, k) {
      NotationIsRead(s, v, k);
    }
    hide Notation, Decimal, AllDigits;
  }
}
