/** The key format of the stores: a prefix, a colon, and the sequence number
    in decimal, zero-padded to fourteen digits.

    Strings are sequences of Unicode scalar values. UTF-8 keeps their order
    and their prefixes, so comparing scalars is comparing the stored bytes.
 */
module PaddedKeys {
  import opened Wrappers

  newtype u64 = k: int | 0 <= k < 0x1_0000_0000_0000_0000

  const U64_MAX: u64 := 0xFFFF_FFFF_FFFF_FFFF

  /** `n as u64`: keeps the low 64 bits. */
  function AsU64(n: nat): (k: u64)
    ensures n <= U64_MAX as nat ==> k as nat == n
  {
    (n % 0x1_0000_0000_0000_0000) as u64
  }

  /** Width to which a sequence number is zero-padded. */
  const WIDTH := 14

  /** The first number that no longer fits the padded width. */
  const PADDED_LIMIT: u64 := 100_000_000_000_000

  // ---------- decimal numerals ----------

  predicate IsDigit(c: char) { '0' <= c <= '9' }

  predicate AllDigits(s: string) { forall i | 0 <= i < |s| :: IsDigit(s[i]) }

  function Digit(d: nat): (c: char)
    requires d < 10
    ensures IsDigit(c) && DigitValue(c) == d
  {
    ('0' as int + d) as char
  }

  function DigitValue(c: char): nat
    requires IsDigit(c)
  {
    c as int - '0' as int
  }

  function Decimal(n: nat): (s: string)
    ensures AllDigits(s) && |s| > 0
  {
    if n < 10 then [Digit(n)] else Decimal(n / 10) + [Digit(n % 10)]
  }

  function Zeros(n: nat): (s: string)
    ensures |s| == n && AllDigits(s)
  {
    seq(n, _ => '0')
  }

  /** `{:014}`: pads on the left, never truncates. */
  function Padded(n: nat): (s: string)
    ensures AllDigits(s) && |s| >= WIDTH
  {
    var d := Decimal(n);
    if |d| < WIDTH then Zeros(WIDTH - |d|) + d else d
  }

  /** `format!("{}:{:014}", prefix, key)` */
  function FormatKey(prefix: string, key: u64): string {
    prefix + ":" + Padded(key as nat)
  }

  function Value(s: string): nat
    requires AllDigits(s)
  {
    if s == [] then 0 else Value(s[..|s| - 1]) * 10 + DigitValue(s[|s| - 1])
  }

  /** `str::parse::<u64>`: an optional plus sign, at least one digit, no overflow. */
  function ParseU64(s: string): Option<u64> {
    var digits := if s != [] && s[0] == '+' then s[1..] else s;
    if digits == [] || !AllDigits(digits) || Value(digits) > U64_MAX as nat then None
    else Some(Value(digits) as u64)
  }

  /** `split(':').next_back()`: what follows the last colon. */
  function LastSegment(s: string): string {
    if s == [] || s[|s| - 1] == ':' then []
    else LastSegment(s[..|s| - 1]) + [s[|s| - 1]]
  }

  function ParseKey(s: string): Option<u64> { ParseU64(LastSegment(s)) }

  // ---------- the order of stored keys ----------

  predicate LexLess(s: string, t: string) {
    t != [] && (s == [] || s[0] < t[0] || (s[0] == t[0] && LexLess(s[1..], t[1..])))
  }

  function Pow10(n: nat): (p: nat)
    ensures p >= 1
  {
    if n == 0 then 1 else 10 * Pow10(n - 1)
  }

  // ---------- numerals denote their number ----------

  lemma {:induction false} ValueAppend(s: string, c: char)
    requires AllDigits(s) && IsDigit(c)
    ensures AllDigits(s + [c]) && Value(s + [c]) == Value(s) * 10 + DigitValue(c)
  {
    assert (s + [c])[..|s|] == s;
  }

  lemma {:induction false} DecimalValue(n: nat)
    ensures Value(Decimal(n)) == n
  {
    if n < 10 {
      assert [Digit(n)][..0] == [];
    } else {
      DecimalValue(n / 10);
      ValueAppend(Decimal(n / 10), Digit(n % 10));
    }
  }

  lemma {:induction false} ValueConcat(s: string, t: string)
    requires AllDigits(s) && AllDigits(t)
    ensures AllDigits(s + t) && Value(s + t) == Value(s) * Pow10(|t|) + Value(t)
  {
    if t == [] {
      assert s + t == s;
    } else {
      var u, c := t[..|t| - 1], t[|t| - 1];
      ValueConcat(s, u);
      assert s + t == (s + u) + [c] && t == u + [c];
      ValueAppend(s + u, c);
      ValueAppend(u, c);
      ShiftTen(Value(s), Pow10(|u|), Value(u), DigitValue(c));
    }
  }

  lemma ShiftTen(v: nat, p: nat, w: nat, d: nat)
    ensures (v * p + w) * 10 + d == v * (10 * p) + (w * 10 + d)
  {
  }

  lemma {:induction false} ValueBound(s: string)
    requires AllDigits(s)
    ensures Value(s) < Pow10(|s|)
  {
    if s != [] {
      ValueBound(s[..|s| - 1]);
    }
  }

  lemma {:induction false} ZerosValue(n: nat)
    ensures Value(Zeros(n)) == 0
  {
    if n > 0 {
      ZerosValue(n - 1);
      assert Zeros(n)[..n - 1] == Zeros(n - 1);
    }
  }

  lemma PaddedValue(n: nat)
    ensures Value(Padded(n)) == n
  {
    hide Decimal, Value, Pow10;
    DecimalValue(n);
    var d := Decimal(n);
    if |d| < WIDTH {
      ZerosValue(WIDTH - |d|);
      ValueConcat(Zeros(WIDTH - |d|), d);
    }
  }

  // ---------- the codec ----------

  lemma {:induction false} LastSegmentAfter(head: string, last: string)
    requires ':' !in last
    ensures LastSegment(head + ":" + last) == last
  {
    var s := head + ":" + last;
    if last == [] {
      assert s[|s| - 1] == ':';
    } else {
      assert s[..|s| - 1] == head + ":" + last[..|last| - 1];
      LastSegmentAfter(head, last[..|last| - 1]);
      assert last[|last| - 1] in last;
      assert last == last[..|last| - 1] + [last[|last| - 1]];
    }
  }

  lemma LastSegmentOfDigits(prefix: string, digits: string)
    requires AllDigits(digits)
    ensures LastSegment(prefix + ":" + digits) == digits
  {
    LastSegmentAfter(prefix, digits);
  }

  /** Reading back the number of a stored key, for every key and any prefix,
      also one that itself contains colons. */
  lemma ParseFormat(prefix: string, key: u64)
    ensures ParseKey(FormatKey(prefix, key)) == Some(key)
  {
    LastSegmentOfDigits(prefix, Padded(key as nat));
    PaddedValue(key as nat);
    var d := Padded(key as nat);
    assert IsDigit(d[0]);
  }

  lemma FormatInjective(prefix: string, a: u64, b: u64)
    ensures FormatKey(prefix, a) == FormatKey(prefix, b) <==> a == b
  {
    ParseFormat(prefix, a);
    ParseFormat(prefix, b);
  }

  // ---------- widths ----------

  lemma {:induction false} DecimalBounds(n: nat)
    ensures n < Pow10(|Decimal(n)|)
    ensures |Decimal(n)| > 1 ==> Pow10(|Decimal(n)| - 1) <= n
  {
    DecimalValue(n);
    ValueBound(Decimal(n));
    if n >= 10 {
      DecimalBounds(n / 10);
    }
  }

  lemma {:induction false} Pow10Monotone(a: nat, b: nat)
    requires a <= b
    ensures Pow10(a) <= Pow10(b)
  {
    if a < b {
      Pow10Monotone(a, b - 1);
    }
  }

  lemma Pow10Width()
    ensures Pow10(WIDTH) == PADDED_LIMIT as nat
  {
    assert Pow10(5) == 100_000;
    assert Pow10(10) == 100_000 * Pow10(5);
  }

  lemma PaddedWidth(n: nat)
    ensures |Padded(n)| == WIDTH <==> n < PADDED_LIMIT as nat
    ensures |Padded(n)| > WIDTH ==> Pow10(|Padded(n)| - 1) <= n
    ensures n < Pow10(|Padded(n)|)
  {
    hide Pow10, Decimal;
    Pow10Width();
    DecimalBounds(n);
    var w := |Decimal(n)|;
    if w <= WIDTH {
      Pow10Monotone(w, WIDTH);
    } else {
      Pow10Monotone(WIDTH, w - 1);
    }
  }

  // ---------- order ----------

  lemma {:induction false} LexPrefix(p: string, s: string, t: string)
    ensures LexLess(p + s, p + t) <==> LexLess(s, t)
  {
    if p == [] {
      assert p + s == s && p + t == t;
    } else {
      assert (p + s)[1..] == p[1..] + s && (p + t)[1..] == p[1..] + t;
      LexPrefix(p[1..], s, t);
    }
  }

  /** Numerals of one width compare as their numbers. */
  lemma {:induction false} SameWidthOrder(s: string, t: string)
    requires AllDigits(s) && AllDigits(t) && |s| == |t|
    ensures LexLess(s, t) <==> Value(s) < Value(t)
    ensures s == t <==> Value(s) == Value(t)
  {
    hide Pow10;
    if s != [] {
      var a, b := s[1..], t[1..];
      SameWidthOrder(a, b);
      assert s == s[..1] + a && t == t[..1] + b;
      ValueConcat(s[..1], a);
      ValueConcat(t[..1], b);
      assert s[..1][..0] == [] && t[..1][..0] == [];
      ValueBound(a);
      ValueBound(b);
      LeadingDigit(Pow10(|a|), DigitValue(s[0]), Value(a), DigitValue(t[0]), Value(b));
      assert s == t <==> s[0] == t[0] && a == b;
    }
  }

  lemma LeadingDigit(p: nat, x: nat, v: nat, y: nat, w: nat)
    requires v < p && w < p
    ensures x * p + v < y * p + w <==> x < y || (x == y && v < w)
    ensures x * p + v == y * p + w <==> x == y && v == w
  {
    MulMonotone(x, y, p);
    MulMonotone(y, x, p);
    MulMonotone(x + 1, y, p);
    MulMonotone(y + 1, x, p);
  }

  lemma MulMonotone(a: nat, b: nat, d: nat)
    ensures a <= b ==> a * d <= b * d
    ensures (a + 1) * d == a * d + d
  {
  }

  lemma {:induction false} ShorterOrder(s: string, t: string)
    requires |s| < |t|
    ensures LexLess(s, t) <==> (s == t[..|s|] || LexLess(s, t[..|s|]))
  {
    if s != [] {
      ShorterOrder(s[1..], t[1..]);
      assert t[..|s|][1..] == t[1..][..|s| - 1];
    }
  }

  lemma {:induction false} LexAsymmetric(s: string, t: string)
    ensures !(LexLess(s, t) && LexLess(t, s))
    ensures s != t ==> LexLess(s, t) || LexLess(t, s)
  {
    if s != [] && t != [] {
      LexAsymmetric(s[1..], t[1..]);
      assert s == [s[0]] + s[1..] && t == [t[0]] + t[1..];
    }
  }

  lemma {:induction false} LexTransitive(s: string, t: string, u: string)
    requires LexLess(s, t) && LexLess(t, u)
    ensures LexLess(s, u)
  {
    if s != [] && s[0] == t[0] == u[0] {
      LexTransitive(s[1..], t[1..], u[1..]);
    }
  }

  /** A shorter numeral against a longer one is compared with its leading digits. */
  lemma LongerOrder(s: string, t: string)
    requires AllDigits(s) && AllDigits(t) && |s| <= |t|
    ensures LexLess(s, t) <==>
            if |s| == |t| then Value(s) < Value(t) else Value(s) <= Value(t) / Pow10(|t| - |s|)
  {
    var lead, rest := t[..|s|], t[|s|..];
    assert t == lead + rest;
    SameWidthOrder(s, lead);
    if |s| == |t| {
      assert lead == t;
    } else {
      ShorterOrder(s, t);
      ValueConcat(lead, rest);
      ValueBound(rest);
      DivOfSum(Value(lead), Pow10(|rest|), Value(rest));
    }
  }

  /** Numbers print no wider than larger ones. */
  lemma WidthMonotone(a: nat, b: nat)
    requires a < b
    ensures |Padded(a)| <= |Padded(b)|
  {
    PaddedWidth(a);
    PaddedWidth(b);
    if |Padded(b)| < |Padded(a)| {
      Pow10Monotone(|Padded(b)|, |Padded(a)| - 1);
      assert false;
    }
  }

  /** The exact condition, over all of u64, for two keys of one store to be
      stored in numeric order: the shorter numeral must not exceed the leading
      digits of the longer one. */
  lemma OrderExact(prefix: string, a: u64, b: u64)
    requires a < b
    ensures |Padded(a as nat)| <= |Padded(b as nat)|
    ensures LexLess(FormatKey(prefix, a), FormatKey(prefix, b))
       <==> a as nat <= b as nat / Pow10(|Padded(b as nat)| - |Padded(a as nat)|)
  {
    hide Padded, LexLess, Value;
    var m, n := a as nat, b as nat;
    WidthMonotone(m, n);
    LexPrefix(prefix + ":", Padded(m), Padded(n));
    PaddedValue(m);
    PaddedValue(n);
    LongerOrder(Padded(m), Padded(n));
    assert Pow10(0) == 1;
  }

  lemma DivOfSum(q: nat, d: nat, r: nat)
    requires r < d
    ensures (q * d + r) / d == q
  {
    var x := (q * d + r) / d;
    assert x * d <= q * d + r < x * d + d;
    MulMonotone(x + 1, q, d);
    MulMonotone(x, q, d);
    MulMonotone(q + 1, x, d);
    MulMonotone(q, x, d);
  }

  /** Below ten to the fourteenth, stored order is numeric order. */
  lemma OrderPreserved(prefix: string, a: u64, b: u64)
    requires a < 100_000_000_000_000 && b < 100_000_000_000_000
    ensures LexLess(FormatKey(prefix, a), FormatKey(prefix, b)) <==> a < b
  {
    PaddedWidth(a as nat);
    PaddedWidth(b as nat);
    LexAsymmetric(FormatKey(prefix, a), FormatKey(prefix, b));
    assert Pow10(0) == 1;
    if a < b {
      OrderExact(prefix, a, b);
    } else if b < a {
      OrderExact(prefix, b, a);
    }
  }

  /** That bound cannot be raised: numeric order holds among all keys below n
      exactly when n does not exceed it. */
  lemma OrderBoundExact(prefix: string, n: u64)
    ensures (forall a: u64, b: u64 | a < b < n :: LexLess(FormatKey(prefix, a), FormatKey(prefix, b)))
       <==> n <= 100_000_000_000_000
  {
    if n <= PADDED_LIMIT {
      forall a: u64, b: u64 | a < b < n
        ensures LexLess(FormatKey(prefix, a), FormatKey(prefix, b))
      {
        OrderPreserved(prefix, a, b);
      }
    } else {
      var a: u64, b: u64 := PADDED_LIMIT - 1, PADDED_LIMIT;
      var excess := |Padded(b as nat)| - |Padded(a as nat)|;
      OrderExact(prefix, a, b);
      PaddedWidth(a as nat);
      PaddedWidth(b as nat);
      Pow10Monotone(1, excess);
      assert Pow10(1) == 10;
      DivShrinks(b as nat, 10, Pow10(excess));
    }
  }

  lemma DivShrinks(n: nat, c: nat, d: nat)
    requires 0 < c <= d
    ensures n / d <= n / c
  {
    var x, y := n / d, n / c;
    assert x * d <= n < y * c + c;
    MulMonotone(y + 1, x, c);
    MulMonotone(y, x, c);
    MulMonotone(c, d, x);
  }

  // ---------- the last key in byte order ----------

  /** Whether the number is still last in byte order among all up to it. */
  predicate LastInOrder(m: u64) {
    m < PADDED_LIMIT || m as nat / 10 >= Pow10(|Padded(m as nat)| - 1) - 1
  }

  lemma {:induction false} Pow10Add(a: nat, b: nat)
    ensures Pow10(a + b) == Pow10(a) * Pow10(b)
  {
    if b > 0 {
      Pow10Add(a, b - 1);
      ShiftTen(Pow10(a), Pow10(b - 1), 0, 0);
    }
  }

  lemma DivAtLeast(n: nat, q: nat, d: nat)
    requires 0 < d && q * d <= n
    ensures q <= n / d
  {
    var x := n / d;
    assert n < x * d + d;
    MulMonotone(x + 1, q, d);
    MulMonotone(x, q, d);
  }

  lemma SurvivesShorter(j: u64, m: u64)
    requires j < m && LastInOrder(m)
    ensures |Padded(j as nat)| <= |Padded(m as nat)|
    ensures j as nat <= m as nat / Pow10(|Padded(m as nat)| - |Padded(j as nat)|)
  {
    hide Padded, Pow10;
    WidthMonotone(j as nat, m as nat);
    PaddedWidth(j as nat);
    PaddedWidth(m as nat);
    var d := |Padded(m as nat)| - |Padded(j as nat)|;
    if d > 0 {
      LeadingNines(m as nat, |Padded(m as nat)|, d);
    } else {
      DivOne(m as nat);
    }
  }

  lemma DivOne(n: nat)
    ensures n / Pow10(0) == n
  {
  }

  lemma LeadingNines(m: nat, w: nat, d: nat)
    requires 0 < d <= w && Pow10(w - 1) - 1 <= m / 10
    ensures Pow10(w - d) - 1 <= m / Pow10(d)
  {
    Pow10Monotone(1, d);
    assert Pow10(1) == 10;
    Pow10Add(w - d, d);
    assert Pow10(w) == 10 * Pow10(w - 1);
    assert Pow10(w) - 10 <= m;
    MulMonotone(Pow10(w - d) - 1, Pow10(w - d), Pow10(d));
    DivAtLeast(m, Pow10(w - d) - 1, Pow10(d));
  }

  /** The number of nines one digit shorter than m. */
  lemma NinesWidth(w: nat)
    requires w > WIDTH
    ensures |Padded(Pow10(w - 1) - 1)| == w - 1
  {
    hide Padded;
    var j := Pow10(w - 1) - 1;
    PaddedWidth(j);
    Pow10Width();
    Pow10Monotone(WIDTH, w - 1);
    var v := |Padded(j)|;
    assert Pow10(w - 1) == 10 * Pow10(w - 2);
    if v < w - 1 {
      Pow10Monotone(v, w - 2);
    } else if v > w - 1 {
      Pow10Monotone(w - 1, v - 1);
    }
  }

  /** A number's key is last in byte order among those of all smaller numbers
      exactly when it is padded, or all but its last digit are nines. */
  lemma LastInOrderExact(prefix: string, m: u64)
    ensures (forall j: u64 | j < m :: LexLess(FormatKey(prefix, j), FormatKey(prefix, m))) <==> LastInOrder(m)
  {
    if LastInOrder(m) {
      forall j: u64 | j < m ensures LexLess(FormatKey(prefix, j), FormatKey(prefix, m)) {
        OrderExact(prefix, j, m);
        SurvivesShorter(j, m);
      }
    } else {
      var w := |Padded(m as nat)|;
      PaddedWidth(m as nat);
      NinesWidth(w);
      var j := (Pow10(w - 1) - 1) as u64;
      OrderExact(prefix, j, m);
      assert Pow10(1) == 10;
    }
  }

  /** The other half of the codec: a fourteen-digit numeral is the padding of its value. */
  lemma PaddedOfValue(s: string)
    requires AllDigits(s) && |s| == 14
    ensures Value(s) < 100_000_000_000_000 && Padded(Value(s)) == s
  {
    Pow10Width();
    ValueBound(s);
    PaddedWidth(Value(s));
    PaddedValue(Value(s));
    SameWidthOrder(s, Padded(Value(s)));
  }

  // ---------- which strings are keys ----------

  lemma LeadingZero(s: string)
    requires AllDigits(s) && s != []
    ensures s[0] == '0' <==> Value(s) < Pow10(|s| - 1)
  {
    hide Pow10, Value;
    var rest := s[1..];
    assert s == [s[0]] + rest;
    ValueConcat([s[0]], rest);
    OneDigit(s[0]);
    ValueBound(rest);
    LeadingPart(DigitValue(s[0]), Pow10(|rest|), Value(rest));
  }

  lemma OneDigit(c: char)
    requires IsDigit(c)
    ensures Value([c]) == DigitValue(c)
  {
    assert [c][..0] == [];
  }

  lemma LeadingPart(d: nat, p: nat, v: nat)
    requires v < p
    ensures d == 0 <==> d * p + v < p
  {
    MulMonotone(1, d, p);
  }

  /** Padding is the only numeral of its number that has fourteen digits, or more
      and no leading zero. */
  lemma PaddedExact(s: string, n: nat)
    requires AllDigits(s)
    ensures s == Padded(n) <==> Value(s) == n && |s| >= 14 && (|s| == 14 || s[0] != '0')
  {
    hide Padded, Pow10;
    var p := Padded(n);
    PaddedValue(n);
    PaddedWidth(n);
    Pow10Width();
    LeadingZero(p);
    if Value(s) == n && |s| >= 14 && (|s| == 14 || s[0] != '0') {
      LeadingZero(s);
      ValueBound(s);
      if |s| < |p| {
        Pow10Monotone(|s|, |p| - 1);
      } else if |p| < |s| {
        Pow10Monotone(|p|, |s| - 1);
      }
      SameWidthOrder(s, p);
    }
  }

  /** Exactly which string is the key of a number: the prefix, a colon, and the
      number's decimal digits, at least fourteen, more only without leading zero. */
  lemma FormatExact(prefix: string, k: u64, s: string)
    ensures s == FormatKey(prefix, k) <==>
            && prefix + ":" <= s
            && var digits := s[|prefix| + 1..];
               && AllDigits(digits) && Value(digits) == k as nat
               && |digits| >= 14 && (|digits| == 14 || digits[0] != '0')
  {
    hide Padded, Value;
    var head := prefix + ":";
    if head <= s {
      assert s == head + s[|head|..];
      if AllDigits(s[|head|..]) {
        PaddedExact(s[|head|..], k as nat);
      }
    }
    assert FormatKey(prefix, k) == head + Padded(k as nat);
    PaddedExact(Padded(k as nat), k as nat);
  }

  /** Exactly which numbers are read from a key: what follows the last colon is
      decimal digits, at least one, with at most a plus sign before. */
  lemma ParseExact(head: string, last: string, k: u64)
    requires ':' !in last
    ensures ParseKey(head + ":" + last) == ParseKey(last)
    ensures ParseKey(last) == Some(k) <==>
            || (last != [] && AllDigits(last) && Value(last) == k as nat)
            || (|last| > 1 && last[0] == '+' && AllDigits(last[1..]) && Value(last[1..]) == k as nat)
  {
    hide Value;
    LastSegmentAfter(head, last);
    LastSegmentAlone(last);
    if last != [] && last[0] == '+' {
      assert !IsDigit(last[0]);
    }
  }

  lemma {:induction false} LastSegmentAlone(last: string)
    requires ':' !in last
    ensures LastSegment(last) == last
  {
    if last != [] {
      LastSegmentAlone(last[..|last| - 1]);
      assert last[|last| - 1] in last;
      assert last == last[..|last| - 1] + [last[|last| - 1]];
    }
  }
}
