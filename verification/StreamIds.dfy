/** Redis stream ids "ms-seq": their numeric order, the id XADD generates, and
    the textual comparison that the trim loop uses on them. */
module StreamIds {

  datatype Id = Id(ms: nat, num: nat)

  const ZERO := Id(0, 0)

  predicate Before(a: Id, b: Id) {
    a.ms < b.ms || (a.ms == b.ms && a.num < b.num)
  }

  /** The id XADD * assigns when the server clock reads `now`. */
  function NextId(top: Id, now: nat): (r: Id)
    ensures Before(top, r)
    ensures now <= r.ms
    ensures top.ms <= now ==> r.ms == now
  {
    if top.ms < now then Id(now, 0) else Id(top.ms, top.num + 1)
  }

  /** The id both trims build from a clock reading and a retention: "(now - retention)-0". */
  function CutoffId(now: nat, retentionMs: nat): (r: Id)
    ensures 0 < retentionMs && 0 < now ==> r.ms < now
    ensures r.num == 0
  {
    Id(if now < retentionMs then 0 else now - retentionMs, 0)
  }

  /** Before the cutoff is just what is older than the retention. */
  lemma CutoffIsAge(now: nat, retentionMs: nat, id: Id)
    ensures Before(id, CutoffId(now, retentionMs)) <==> now - id.ms > retentionMs
  {
  }

  // ----- Ids as text -----

  function Digit(d: nat): char
    requires d < 10
  {
    '0' + d as char
  }

  function Decimal(n: nat): (s: string)
    ensures s != []
  {
    if n < 10 then [Digit(n)] else Decimal(n / 10) + [Digit(n % 10)]
  }

  /** Go's `<` on strings of one-byte characters. */
  predicate TextLess(a: string, b: string) {
    if b == [] then false
    else if a == [] then true
    else a[0] < b[0] || (a[0] == b[0] && TextLess(a[1..], b[1..]))
  }

  datatype Text = Text(ms: string, num: string)

  function Render(id: Id): Text {
    Text(Decimal(id.ms), Decimal(id.num))
  }

  /** compareStreamIDs on two ids that both hold a dash. */
  function CompareStreamIds(a: Text, b: Text): int {
    if a.ms != b.ms then (if TextLess(a.ms, b.ms) then -1 else 1)
    else if a.num != b.num then (if TextLess(a.num, b.num) then -1 else 1)
    else 0
  }

  function Pow10(k: nat): (p: nat)
    ensures p > 0
  {
    if k == 0 then 1 else 10 * Pow10(k - 1)
  }

  /** Comparing two texts of the same length with one more character each. */
  lemma {:induction false} TextLessSnoc(a: string, b: string, x: char, y: char)
    requires |a| == |b|
    ensures TextLess(a + [x], b + [y]) <==> TextLess(a, b) || (a == b && x < y)
  {
    if a == [] {
      assert a + [x] == [x] && b + [y] == [y];
    } else {
      TextLessSnoc(a[1..], b[1..], x, y);
      assert (a + [x])[1..] == a[1..] + [x] && (b + [y])[1..] == b[1..] + [y];
      assert a == [a[0]] + a[1..] && b == [b[0]] + b[1..];
    }
  }

  /** A longer text compares like its prefix, a tie going to the shorter one. */
  lemma {:induction false} TextLessPrefix(a: string, b: string, rest: string)
    requires |a| == |b| && rest != []
    ensures TextLess(a, b + rest) <==> !TextLess(b, a)
    ensures TextLess(b + rest, a) <==> TextLess(b, a)
  {
    if a == [] {
      assert b + rest == rest;
    } else {
      TextLessPrefix(a[1..], b[1..], rest);
      assert (b + rest)[1..] == b[1..] + rest;
    }
  }

  /** On numbers with equally many digits, text order is numeric order. */
  lemma {:induction false} SameWidthOrder(m: nat, n: nat)
    requires |Decimal(m)| == |Decimal(n)|
    ensures TextLess(Decimal(m), Decimal(n)) <==> m < n
    ensures Decimal(m) == Decimal(n) <==> m == n
  {
    if m < 10 {
      assert n < 10;
      TextLessSnoc([], [], Digit(m), Digit(n));
      assert [] + [Digit(m)] == [Digit(m)] && [] + [Digit(n)] == [Digit(n)];
      assert Decimal(m)[0] == Digit(m) && Decimal(n)[0] == Digit(n);
    } else {
      assert n >= 10;
      var (a, b) := (Decimal(m / 10), Decimal(n / 10));
      SameWidthOrder(m / 10, n / 10);
      TextLessSnoc(a, b, Digit(m % 10), Digit(n % 10));
      assert (a + [Digit(m % 10)])[..|a|] == a && (b + [Digit(n % 10)])[..|b|] == b;
      assert (a + [Digit(m % 10)])[|a|] == Digit(m % 10) && (b + [Digit(n % 10)])[|b|] == Digit(n % 10);
    }
  }

  lemma {:induction false} DecimalWidth(n: nat)
    ensures n < Pow10(|Decimal(n)|)
    ensures n >= 10 ==> Pow10(|Decimal(n)| - 1) <= n
  {
    if n >= 10 {
      DecimalWidth(n / 10);
      if n / 10 < 10 {
        assert Pow10(1) == 10;
      }
    }
  }

  /** n without its k low digits. */
  function Lead(n: nat, k: nat): nat {
    if k == 0 then n else Lead(n / 10, k - 1)
  }

  lemma {:induction false} LeadIsQuotient(n: nat, k: nat)
    ensures Lead(n, k) == n / Pow10(k)
  {
    if k == 0 {
      DivOne(n);
    } else {
      LeadIsQuotient(n / 10, k - 1);
      DivDiv(n, Pow10(k - 1));
    }
  }

  /** Dropping k low digits of a longer number drops the tail of its text. */
  lemma {:induction false} DecimalPrefix(n: nat, k: nat)
    requires k < |Decimal(n)|
    ensures Decimal(n)[..|Decimal(n)| - k] == Decimal(Lead(n, k))
  {
    if k > 0 {
      var shorter := Decimal(n / 10);
      DecimalPrefix(n / 10, k - 1);
      TakeOfSnoc(shorter, Digit(n % 10), |shorter| - (k - 1));
    }
  }

  lemma DivOne(n: nat)
    ensures n / Pow10(0) == n
  {
    assert Pow10(0) == 1;
  }

  lemma TakeOfSnoc(s: string, c: char, i: nat)
    requires i <= |s|
    ensures (s + [c])[..i] == s[..i]
  {
  }

  lemma DivDiv(n: nat, p: nat)
    requires p > 0
    ensures n / 10 / p == n / (10 * p)
  {
    var q, r := n / 10 / p, n / 10 % p;
    assert n / 10 == q * p + r;
    assert n == 10 * (q * p + r) + n % 10;
    assert 10 * (q * p) == q * (10 * p);
    QuotientUnique(n, 10 * p, q, 10 * r + n % 10);
  }

  lemma QuotientUnique(a: nat, p: nat, q: nat, r: nat)
    requires p > 0 && a == q * p + r && r < p
    ensures a / p == q
  {
    var t := a / p;
    assert a == t * p + a % p;
    MulMonotone(q + 1, t, p);
    MulMonotone(t + 1, q, p);
    assert (q + 1) * p == q * p + p && (t + 1) * p == t * p + p;
  }

  lemma MulMonotone(a: int, b: int, p: nat)
    ensures a <= b ==> a * p <= b * p
  {
  }

  lemma LongerIsMore(m: nat, n: nat)
    requires |Decimal(m)| < |Decimal(n)|
    ensures m < n
  {
    hide Pow10;
    DecimalWidth(m);
    DecimalWidth(n);
    PowMonotone(|Decimal(m)|, |Decimal(n)| - 1);
  }

  /** Exactly when the textual comparison of two clock parts of different
      width agrees with the numeric one: the shorter must not exceed the
      leading digits of the longer. */
  lemma MixedWidthOrder(m: nat, n: nat)
    requires |Decimal(m)| < |Decimal(n)|
    ensures m < n
    ensures TextLess(Decimal(m), Decimal(n)) <==> m <= n / Pow10(|Decimal(n)| - |Decimal(m)|)
  {
    hide Decimal, TextLess, Pow10;
    var (a, b) := (Decimal(m), Decimal(n));
    var k := |b| - |a|;
    LongerIsMore(m, n);
    DecimalPrefix(n, k);
    LeadIsQuotient(n, k);
    SameWidthOrder(Lead(n, k), m);
    TextLessPrefix(a, b[..|a|], b[|a|..]);
    assert b[..|a|] + b[|a|..] == b;
  }

  lemma {:induction false} PowMonotone(i: nat, j: nat)
    requires i <= j
    ensures Pow10(i) <= Pow10(j)
  {
    if i < j {
      PowMonotone(i, j - 1);
    }
  }

  lemma ZeroIsLeastText(n: nat)
    requires n > 0
    ensures Decimal(n) != Decimal(0) && TextLess(Decimal(0), Decimal(n))
  {
    if n < 10 {
      SameWidthOrder(0, n);
    } else {
      MixedWidthOrder(0, n);
    }
  }

  /** The numeric sign of the comparison. */
  function Order(a: Id, b: Id): int {
    if Before(a, b) then -1 else if a == b then 0 else 1
  }

  /** When two clock parts compare as text the way they compare as numbers. */
  predicate ClocksAgree(m: nat, n: nat) {
    var (a, b) := (|Decimal(m)|, |Decimal(n)|);
    if a == b then true
    else if a < b then m <= n / Pow10(b - a)
    else n <= m / Pow10(a - b)
  }

  /** Against a cutoff "ms-0" the textual comparison is the numeric one exactly
      when the clock parts agree; equally many digits are enough for that. */
  lemma CutoffComparison(a: Id, cut: Id)
    requires cut.num == 0
    ensures CompareStreamIds(Render(a), Render(cut)) == Order(a, cut) <==> ClocksAgree(a.ms, cut.ms)
    ensures |Decimal(a.ms)| == |Decimal(cut.ms)| ==> ClocksAgree(a.ms, cut.ms)
  {
    var (x, y) := (Decimal(a.ms), Decimal(cut.ms));
    if |x| == |y| {
      SameWidthOrder(a.ms, cut.ms);
      if a.ms == cut.ms && a.num > 0 {
        ZeroIsLeastText(a.num);
        TextLessAsymmetric(Decimal(0), Decimal(a.num));
      }
    } else if |x| < |y| {
      MixedWidthOrder(a.ms, cut.ms);
    } else {
      MixedWidthOrder(cut.ms, a.ms);
      TextLessTotal(x, y);
      TextLessAsymmetric(y, x);
    }
  }

  lemma {:induction false} TextLessAsymmetric(a: string, b: string)
    ensures !(TextLess(a, b) && TextLess(b, a))
  {
    if a != [] && b != [] {
      TextLessAsymmetric(a[1..], b[1..]);
    }
  }

  lemma {:induction false} TextLessTotal(a: string, b: string)
    ensures a == b || TextLess(a, b) || TextLess(b, a)
  {
    if a != [] && b != [] {
      TextLessTotal(a[1..], b[1..]);
      assert a == [a[0]] + a[1..] && b == [b[0]] + b[1..];
    }
  }

  /** A ninth and a tenth millisecond: the text order is the wrong one. */
  lemma ComparisonCanFail()
    ensures CompareStreamIds(Render(Id(9, 0)), Render(Id(10, 0))) == 1
    ensures Order(Id(9, 0), Id(10, 0)) == -1
  {
    assert Decimal(10) == Decimal(1) + [Digit(0)] == ['1', '0'];
    assert Decimal(9) == ['9'];
  }
}
