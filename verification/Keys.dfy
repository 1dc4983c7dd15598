/** The keys of the store: the padded number of a log record, its parser, and the
    prefix of a session. The lemmas say when keys sort like the numbers in them, that a
    number is read back from its key, and that the keys of two sessions never meet;
    loading a session and keeping sessions apart rest on the last two. */
module Keys {

  const WIDTH: nat := 12

  function Digit(n: nat): char
    requires n < 10
  {
    ('0' as int + n) as char
  }

  predicate IsDigit(c: char) {
    '0' <= c <= '9'
  }

  predicate AllDigits(s: string) {
    forall i :: 0 <= i < |s| ==> IsDigit(s[i])
  }

  function Decimal(n: nat): string {
    if n < 10 then [Digit(n)] else Decimal(n / 10) + [Digit(n % 10)]
  }

  function PadStart(s: string, width: nat): string
    decreases width - |s|
  {
    if |s| >= width then s else PadStart("0" + s, width)
  }

  function LogKey(seqNo: nat): string {
    "log/" + PadStart(Decimal(seqNo), WIDTH)
  }

  /** The number a string of decimal digits denotes. */
  function Number(s: string): nat
    requires AllDigits(s)
  {
    if s == "" then 0 else 10 * Number(s[..|s| - 1]) + (s[|s| - 1] as int - '0' as int)
  }

  /** The part of a key after its last slash. */
  function LastSegment(key: string): string {
    if key == "" || key[|key| - 1] == '/' then ""
    else LastSegment(key[..|key| - 1]) + [key[|key| - 1]]
  }

  predicate IsLogKey(key: string) {
    "log/" <= key
  }

  // -------------------------------------------------------- round trip

  lemma {:induction false} NumberOfDecimal(n: nat)
    ensures AllDigits(Decimal(n)) && Number(Decimal(n)) == n
  {
    if n >= 10 {
      NumberOfDecimal(n / 10);
      assert Decimal(n)[..|Decimal(n)| - 1] == Decimal(n / 10);
    } else {
      assert Decimal(n)[..0] == "";
    }
  }

  lemma {:induction false} NumberOfZero(s: string)
    requires AllDigits(s)
    ensures AllDigits("0" + s) && Number("0" + s) == Number(s)
  {
    if s == "" {
      assert "0"[..0] == "";
    } else {
      NumberOfZero(s[..|s| - 1]);
      assert ("0" + s)[..|s|] == "0" + s[..|s| - 1];
    }
  }

  lemma {:induction false} NumberOfPadded(s: string, width: nat)
    requires AllDigits(s)
    ensures AllDigits(PadStart(s, width)) && Number(PadStart(s, width)) == Number(s)
    ensures |PadStart(s, width)| == if |s| >= width then |s| else width
    decreases width - |s|
  {
    if |s| < width {
      NumberOfZero(s);
      NumberOfPadded("0" + s, width);
    }
  }

  lemma {:induction false} LastSegmentAfterSlash(p: string, d: string)
    requires p != "" && p[|p| - 1] == '/' && '/' !in d
    ensures LastSegment(p + d) == d
  {
    if d == "" {
      assert p + d == p;
    } else {
      LastSegmentAfterSlash(p, d[..|d| - 1]);
      assert (p + d)[..|p + d| - 1] == p + d[..|d| - 1];
    }
  }

  /** The padded key of any sequence number parses back to it. */
  lemma LogKeyRoundTrip(n: nat)
    ensures IsLogKey(LogKey(n))
    ensures AllDigits(LastSegment(LogKey(n))) && Number(LastSegment(LogKey(n))) == n
  {
    var d := PadStart(Decimal(n), WIDTH);
    NumberOfDecimal(n);
    NumberOfPadded(Decimal(n), WIDTH);
    assert forall i :: 0 <= i < |d| ==> IsDigit(d[i]);
    LastSegmentAfterSlash("log/", d);
  }

  lemma LogKeyInjective(m: nat, n: nat)
    requires LogKey(m) == LogKey(n)
    ensures m == n
  {
    LogKeyRoundTrip(m);
    LogKeyRoundTrip(n);
  }

  // -------------------------------------------------------- key order

  /** The order of strings by code unit: a proper prefix first, else the first
      difference decides. */
  ghost predicate Less(a: string, b: string) {
    exists k :: LessAt(a, b, k)
  }

  ghost predicate LessAt(a: string, b: string, k: int) {
    0 <= k <= |a| && k < |b| && a[..k] == b[..k] && (k == |a| || a[k] < b[k])
  }

  function Pow10(k: nat): nat {
    if k == 0 then 1 else 10 * Pow10(k - 1)
  }

  lemma {:induction false} DecimalLength(n: nat, k: nat)
    requires k >= 1
    ensures |Decimal(n)| <= k <==> n < Pow10(k)
  {
    if n >= 10 {
      if k > 1 {
        DecimalLength(n / 10, k - 1);
      } else {
        assert Pow10(1) == 10 * Pow10(0) && |Decimal(n / 10)| >= 1;
      }
    } else {
      Pow10Grows(1, k);
      assert Pow10(1) == 10 * Pow10(0);
    }
  }

  lemma Pow10Grows(j: nat, k: nat)
    requires j <= k
    ensures 1 <= Pow10(j) <= Pow10(k)
    decreases k
  {
    if j < k {
      Pow10Grows(j, k - 1);
    } else if k > 0 {
      Pow10Grows(j - 1, k - 1);
    }
  }

  lemma {:induction false} SameWidthOrder(a: string, b: string)
    requires AllDigits(a) && AllDigits(b) && |a| == |b| && Number(a) < Number(b)
    ensures Less(a, b)
  {
    var n := |a| - 1;
    if Number(a[..n]) < Number(b[..n]) {
      SameWidthOrder(a[..n], b[..n]);
      var k :| LessAt(a[..n], b[..n], k);
      assert a[..n][..k] == a[..k] && b[..n][..k] == b[..k];
      assert LessAt(a, b, k);
    } else {
      SameNumber(a[..n], b[..n]);
      assert LessAt(a, b, n);
    }
  }

  lemma {:induction false} SameNumber(a: string, b: string)
    requires AllDigits(a) && AllDigits(b) && |a| == |b| && Number(a) == Number(b)
    ensures a == b
  {
    if a != "" {
      var n := |a| - 1;
      SameNumber(a[..n], b[..n]);
      assert a == a[..n] + [a[n]] && b == b[..n] + [b[n]];
    }
  }

  lemma LessUnderPrefix(p: string, a: string, b: string)
    requires Less(a, b)
    ensures Less(p + a, p + b)
  {
    var k :| LessAt(a, b, k);
    assert (p + a)[..|p| + k] == p + a[..k] && (p + b)[..|p| + k] == p + b[..k];
    assert LessAt(p + a, p + b, |p| + k);
  }

  lemma LogKeyOrder(m: nat, n: nat)
    requires m < n < Pow10(WIDTH)
    ensures Less(LogKey(m), LogKey(n))
  {
    DecimalLength(m, WIDTH);
    DecimalLength(n, WIDTH);
    NumberOfDecimal(m);
    NumberOfDecimal(n);
    NumberOfPadded(Decimal(m), WIDTH);
    NumberOfPadded(Decimal(n), WIDTH);
    SameWidthOrder(PadStart(Decimal(m), WIDTH), PadStart(Decimal(n), WIDTH));
    LessUnderPrefix("log/", PadStart(Decimal(m), WIDTH), PadStart(Decimal(n), WIDTH));
  }

  lemma TenTimes(d: nat, p: nat)
    ensures d * (10 * p) == 10 * (d * p)
  {
  }

  lemma {:induction false} FirstDigit(n: nat, d: nat, k: nat)
    requires 1 <= d < 10 && d * Pow10(k) <= n < (d + 1) * Pow10(k)
    ensures |Decimal(n)| == k + 1 && Decimal(n)[0] == Digit(d)
  {
    if k == 0 {
      assert Pow10(0) == 1;
    } else {
      var p := Pow10(k - 1);
      TenTimes(d, p);
      TenTimes(d + 1, p);
      Pow10Grows(0, k - 1);
      var low, high := d * p, (d + 1) * p;
      assert 10 * low <= n < 10 * high && low >= 1;
      FirstDigit(n / 10, d, k - 1);
    }
  }

  lemma NinesThenOne()
    ensures !Less(LogKey(Pow10(WIDTH) - 1), LogKey(Pow10(WIDTH)))
  {
    var n := Pow10(WIDTH);
    Pow10Grows(0, WIDTH - 1);
    assert n == 10 * Pow10(WIDTH - 1);
    FirstDigit(n - 1, 9, WIDTH - 1);
    FirstDigit(n, 1, WIDTH);
    var a, b := LogKey(n - 1), LogKey(n);
    assert a[4] == '9' && b[4] == '1' && a[..4] == b[..4] == "log/";
  }

  /** Key order is sequence order for every log of up to `n` mutations exactly when
      `n` still fits the padding. */
  lemma LogKeyOrderExactly(n: nat)
    ensures (forall i: nat, j: nat :: i < j <= n ==> Less(LogKey(i), LogKey(j))) <==> n < Pow10(WIDTH)
  {
    if n < Pow10(WIDTH) {
      forall i: nat, j: nat | i < j <= n ensures Less(LogKey(i), LogKey(j)) {
        LogKeyOrder(i, j);
      }
    } else {
      NinesThenOne();
      Pow10Grows(0, WIDTH);
      var i: nat, j: nat := Pow10(WIDTH) - 1, Pow10(WIDTH);
      assert i < j <= n && !Less(LogKey(i), LogKey(j));
    }
  }

  // ---------------------------------------------------- session prefixes

  predicate IsAlnum(c: char) {
    'A' <= c <= 'Z' || 'a' <= c <= 'z' || '0' <= c <= '9'
  }

  /** The ids `validateSessionId` accepts. */
  predicate ValidSessionId(id: string) {
    && id != ""
    && IsAlnum(id[0]) && IsAlnum(id[|id| - 1])
    && forall i :: 0 <= i < |id| ==> IsAlnum(id[i]) || id[i] == '.' || id[i] == '_' || id[i] == '-'
  }

  function SessionPrefix(id: string): string {
    "session/" + id + "/"
  }

  lemma SlashFreePrefixes(a: string, b: string, key: string)
    requires '/' !in a && '/' !in b && |a| <= |b|
    requires SessionPrefix(a) <= key && SessionPrefix(b) <= key
    ensures a == b
  {
    assert SessionPrefix(a)[8 + |a|] == key[8 + |a|] == SessionPrefix(b)[8 + |a|];
    assert a == key[8..8 + |a|] && b == key[8..8 + |b|];
  }

  /** No key of one session lies under the prefix of another. */
  lemma PrefixesDisjoint(a: string, b: string, key: string)
    requires ValidSessionId(a) && ValidSessionId(b) && a != b
    ensures !(SessionPrefix(a) <= key && SessionPrefix(b) <= key)
  {
    if SessionPrefix(a) <= key && SessionPrefix(b) <= key {
      if |a| <= |b| {
        SlashFreePrefixes(a, b, key);
      } else {
        SlashFreePrefixes(b, a, key);
      }
    }
  }
}
