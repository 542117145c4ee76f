/** The few string functions the message and cart handlers rely on. */
module GoStrings {
  import opened Cluster

  predicate IsSpace(c: char) {
    var u := c as int;
    || 9 <= u <= 13 || u == 32 || u == 0x85 || u == 0xA0 || u == 0x1680 || 0x2000 <= u <= 0x200a
    || u == 0x2028 || u == 0x2029 || u == 0x202f || u == 0x205f || u == 0x3000
  }

  function TrimSpace(s: string): (r: string)
    ensures r != "" ==> !IsSpace(r[0]) && !IsSpace(r[|r| - 1])
    ensures r == "" <==> forall i :: 0 <= i < |s| ==> IsSpace(s[i])
  {
    if s == [] then s
    else if IsSpace(s[0]) then
      assert forall i :: 0 <= i < |s[1..]| ==> s[1..][i] == s[i + 1];
      assert forall i :: 1 <= i < |s| ==> s[i] == s[1..][i - 1];
      TrimSpace(s[1..])
    else if IsSpace(s[|s| - 1]) then TrimSpace(s[..|s| - 1])
    else s
  }

  /** The position of the first c at or after i, or -1. */
  function IndexFrom(s: string, c: char, i: nat): (r: int)
    requires i <= |s|
    ensures r == -1 || i <= r < |s|
    ensures r == -1 ==> forall k :: i <= k < |s| ==> s[k] != c
    ensures r != -1 ==> s[r] == c && forall k :: i <= k < r ==> s[k] != c
    decreases |s| - i
  {
    if i == |s| then -1 else if s[i] == c then i else IndexFrom(s, c, i + 1)
  }

  function Index(s: string, c: char): (r: int)
    ensures r == -1 || 0 <= r < |s|
    ensures r == -1 <==> c !in s
    ensures r != -1 ==> s[r] == c && c !in s[..r]
  {
    IndexFrom(s, c, 0)
  }

  // ----- strconv.ParseInt(s, 10, 64) -----

  const MIN_INT64 := -0x8000_0000_0000_0000
  const MAX_INT64 := 0x7fff_ffff_ffff_ffff

  predicate Digits(s: string) {
    s != [] && forall i :: 0 <= i < |s| ==> '0' <= s[i] <= '9'
  }

  function DecimalValue(s: string): nat
    requires forall i :: 0 <= i < |s| ==> '0' <= s[i] <= '9'
  {
    if s == [] then 0 else 10 * DecimalValue(s[..|s| - 1]) + (s[|s| - 1] as int - '0' as int)
  }

  function ParseInt64(s: string): (r: Option<int>)
    ensures r.Some? ==> MIN_INT64 <= r.value <= MAX_INT64
  {
    if s == "" then None
    else
      var digits := if s[0] == '+' || s[0] == '-' then s[1..] else s;
      if !Digits(digits) then None
      else
        var v := if s[0] == '-' then -(DecimalValue(digits) as int) else DecimalValue(digits);
        if MIN_INT64 <= v <= MAX_INT64 then Some(v) else None
  }

  /** Space around a text that neither begins nor ends with space is trimmed. */
  lemma {:induction false} TrimAround(before: string, core: string, after: string)
    requires core != "" && !IsSpace(core[0]) && !IsSpace(core[|core| - 1])
    requires forall i :: 0 <= i < |before| ==> IsSpace(before[i])
    requires forall i :: 0 <= i < |after| ==> IsSpace(after[i])
    ensures TrimSpace(before + core + after) == core
    decreases |before| + |after|
  {
    hide IsSpace;
    var s := before + core + after;
    if before != "" {
      assert s[1..] == before[1..] + core + after;
      TrimAround(before[1..], core, after);
    } else if after != "" {
      assert s[0] == core[0] && s[|s| - 1] == after[|after| - 1];
      assert s[..|s| - 1] == before + core + after[..|after| - 1];
      TrimAround(before, core, after[..|after| - 1]);
    } else {
      assert s == core;
    }
  }

  /** What a sum of Go ints comes to. */
  function Wrap64(n: int): (r: int)
    ensures MIN_INT64 <= r <= MAX_INT64
    ensures MIN_INT64 <= n <= MAX_INT64 ==> r == n
    ensures n > MAX_INT64 ==> r < n
  {
    (n - MIN_INT64) % 0x1_0000_0000_0000_0000 + MIN_INT64
  }

  lemma WrapAgain(a: int, b: int)
    ensures Wrap64(Wrap64(a) + b) == Wrap64(a + b)
  {
    var m := 0x1_0000_0000_0000_0000;
    var k := (a - MIN_INT64) / m;
    assert Wrap64(a) == a - k * m;
    SameResidue(a + b - MIN_INT64, k, m);
  }

  lemma SameResidue(x: int, k: int, m: int)
    requires m > 0
    ensures (x - k * m) % m == x % m
    decreases if k < 0 then -k else k
  {
    if k > 0 {
      SameResidue(x, k - 1, m);
      assert x - k * m == x - (k - 1) * m - m;
      DropOne(x - (k - 1) * m, m);
    } else if k < 0 {
      SameResidue(x, k + 1, m);
      assert x - k * m - m == x - (k + 1) * m;
      DropOne(x - k * m, m);
    }
  }

  lemma DropOne(y: int, m: int)
    requires m > 0
    ensures (y - m) % m == y % m
  {
    var q, r := y / m, y % m;
    assert y - m == (q - 1) * m + r;
    Unique(y - m, m, q - 1, r);
  }

  lemma Unique(y: int, m: int, q: int, r: int)
    requires m > 0 && 0 <= r < m && y == q * m + r
    ensures y % m == r
  {
    var d := y / m - q;
    assert d * m == r - y % m;
    Multiples(d, m);
  }

  lemma Multiples(d: int, m: int)
    requires m > 0
    ensures d >= 1 ==> d * m >= m
    ensures d <= -1 ==> d * m <= -m
  {
  }
}
