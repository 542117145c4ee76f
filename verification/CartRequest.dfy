/** Reading an add_to_cart request: items with the same id are merged. */
module CartRequest {
  import opened Cluster
  import opened GoStrings
  import Ids = StreamIds

  /** The quantity field of an item as it was decoded. */
  datatype Quantity =
    | Missing | Null | Float(f: real) | Integer(n: int) | Number(literal: string) | Text(text: string) | Other

  /** An item object; a missing or non-text id or seller reads as "". `rest`
      stands for its other fields. */
  datatype RawItem = RawItem(id: string, seller: string, quantity: Quantity, rest: string)

  /** data["items"], of which None is not an object, or else data["item"] */
  datatype CartData = Items(elements: seq<Option<RawItem>>) | Single(item: RawItem) | Neither

  datatype CartItem = CartItem(id: string, seller: string, quantity: int)

  datatype Parsed = Parsed(items: seq<CartItem>, callback: seq<RawItem>, itemsFormat: bool) | Rejected(error: string)

  datatype Amount = Amount(n: int) | Bad(error: string)

  const NOT_AN_INTEGER := "add to cart: item.quantity must be a positive integer"
  const NOT_POSITIVE := "add to cart: item.quantity must be greater than zero"

  function Positive(n: int): Amount {
    if n <= 0 then Bad(NOT_POSITIVE) else Amount(n)
  }

  function ParseCartItemQuantity(q: Quantity): (a: Amount)
    requires q.Integer? ==> q.n <= MAX_INT64
    ensures a.Amount? ==> 1 <= a.n <= MAX_INT64
  {
    match q
    case Float(v) =>
      if v != v.Floor as real || !(MIN_INT64 <= v.Floor <= MAX_INT64) then Bad(NOT_AN_INTEGER) else Positive(v.Floor)
    case Integer(n) => Positive(n)
    case Number(s) =>
      var n := ParseInt64(s);
      if n.None? then Bad(NOT_AN_INTEGER) else Positive(n.value)
    case Text(s) =>
      var n := ParseInt64(TrimSpace(s));
      if n.None? || n.value <= 0 then Bad(NOT_AN_INTEGER) else Amount(n.value)
    case _ => Bad(NOT_AN_INTEGER)
  }

  /** An integer in decimal. */
  function Signed(n: int): string {
    if n < 0 then "-" + Ids.Decimal(-n) else Ids.Decimal(n)
  }

  lemma {:induction false} DecimalHasDigits(n: nat)
    ensures Digits(Ids.Decimal(n)) && DecimalValue(Ids.Decimal(n)) == n
  {
    if n >= 10 {
      DecimalHasDigits(n / 10);
      var s := Ids.Decimal(n / 10);
      assert Ids.Decimal(n)[..|Ids.Decimal(n)| - 1] == s;
    }
  }

  lemma SignedParses(n: int)
    ensures var s := Signed(n);
      && s != "" && !IsSpace(s[0]) && !IsSpace(s[|s| - 1])
      && ParseInt64(s) == if MIN_INT64 <= n <= MAX_INT64 then Some(n) else None
  {
    var digits := Ids.Decimal(if n < 0 then -n else n);
    DecimalHasDigits(if n < 0 then -n else n);
    NoSpace(digits[0]);
    NoSpace(digits[|digits| - 1]);
    NoSpace('-');
    hide IsSpace, DecimalValue, Ids.Decimal;
    var s := Signed(n);
    if n < 0 {
      assert s[0] == '-' && s[1..] == digits && s[|s| - 1] == digits[|digits| - 1];
    }
  }

  lemma NoSpace(c: char)
    requires '0' <= c <= '9' || c == '-'
    ensures !IsSpace(c)
  {
  }

  /** One integer written out, with its digits kept as text or as a string with any
      space around it: it is accepted exactly when it is positive and fits. */
  lemma QuantityNotations(n: int, before: string, after: string)
    requires forall i :: 0 <= i < |before| ==> IsSpace(before[i])
    requires forall i :: 0 <= i < |after| ==> IsSpace(after[i])
    ensures ParseCartItemQuantity(Number(Signed(n))) ==
      if 1 <= n <= MAX_INT64 then Amount(n) else Bad(if MIN_INT64 <= n <= 0 then NOT_POSITIVE else NOT_AN_INTEGER)
    ensures ParseCartItemQuantity(Text(before + Signed(n) + after)) ==
      if 1 <= n <= MAX_INT64 then Amount(n) else Bad(NOT_AN_INTEGER)
  {
    hide IsSpace, TrimSpace, ParseInt64, Signed;
    SignedParses(n);
    TrimAround(before, Signed(n), after);
  }

  /** The text writes the integer, with or without a sign and leading zeros. */
  predicate Spells(s: string, n: int) {
    || (Digits(s) && n == DecimalValue(s))
    || (s != "" && Digits(s[1..]) && ((s[0] == '+' && n == DecimalValue(s[1..]))
                                      || (s[0] == '-' && n == -(DecimalValue(s[1..]) as int))))
  }

  /** The integer that a quantity stands for, if it does. */
  predicate Names(q: Quantity, n: int) {
    match q
    case Float(v) => v == n as real
    case Integer(m) => m == n
    case Number(s) => Spells(s, n)
    case Text(s) => Spells(TrimSpace(s), n)
    case _ => false
  }

  lemma SpellsOnce(s: string, n: int)
    ensures ParseInt64(s) == Some(n) <==> Spells(s, n) && MIN_INT64 <= n <= MAX_INT64
  {
    hide DecimalValue;
  }

  /** A quantity is accepted, as n, exactly when it stands for n and n is positive and fits
      64 bits. */
  lemma QuantityExactly(q: Quantity)
    requires Sized(q)
    ensures forall n :: ParseCartItemQuantity(q) == Amount(n) <==> Names(q, n) && 1 <= n <= MAX_INT64
  {
    hide ParseInt64, TrimSpace, Spells;
    forall n
      ensures ParseCartItemQuantity(q) == Amount(n) <==> Names(q, n) && 1 <= n <= MAX_INT64
    {
      match q
      case Number(s) => SpellsOnce(s, n);
      case Text(s) => SpellsOnce(TrimSpace(s), n);
      case _ =>
    }
  }

  /** One that stands for an integer that fits but is not positive is refused as not
      positive, unless it is text; any other is refused as not a positive integer. */
  lemma RefusalExactly(q: Quantity)
    requires Sized(q)
    ensures var a := ParseCartItemQuantity(q);
      && (a == Bad(NOT_POSITIVE) <==> !q.Text? && exists n :: Names(q, n) && MIN_INT64 <= n <= 0)
      && (a.Bad? && a.error != NOT_POSITIVE ==> a.error == NOT_AN_INTEGER)
  {
    hide ParseInt64, TrimSpace, Spells;
    assert |NOT_POSITIVE| != |NOT_AN_INTEGER|;
    match q
    case Float(v) =>
      if v == v.Floor as real {
        assert Names(q, v.Floor);
      }
    case Integer(n) => assert Names(q, n);
    case Number(s) =>
      forall n {
        SpellsOnce(s, n);
      }
      if ParseInt64(s).Some? {
        assert Names(q, ParseInt64(s).value);
      }
    case _ =>
  }

  // ----- JSON numbers -----

  /** What float64 counts in at the size of n: it holds 53 binary digits. */
  function Grain(n: nat): (g: nat)
    ensures g >= 1 && (n < 0x20_0000_0000_0000 ==> g == 1)
  {
    if n < 0x20_0000_0000_0000 then 1 else 2 * Grain(n / 2)
  }

  /** The float64 that a JSON integer is decoded to: the nearest, ties to even. */
  function Nearest(n: nat): nat {
    var g := Grain(n);
    var (q, r) := (n / g, n % g);
    if 2 * r > g || (2 * r == g && q % 2 == 1) then (q + 1) * g else q * g
  }

  function Decoded(n: int): Quantity {
    Float((if n < 0 then 0 - Nearest(-n) else Nearest(n)) as real)
  }

  lemma NearestIsExact(n: nat)
    ensures Nearest(n) == n <==> n % Grain(n) == 0
  {
    var g := Grain(n);
    var (q, r) := (n / g, n % g);
    assert n == q * g + r;
    assert (q + 1) * g == q * g + g;
  }

  /** An integer in JSON enters the cart as the nearest float64, so as itself exactly
      when it is one, which every integer of up to 53 binary digits is; and it is
      refused when that float64 is not positive or does not fit. */
  lemma JsonIntegers(n: int)
    ensures n < 0 ==> ParseCartItemQuantity(Decoded(n)).Bad?
    ensures n >= 0 ==>
      && ParseCartItemQuantity(Decoded(n)) ==
           (if Nearest(n) == 0 then Bad(NOT_POSITIVE)
            else if Nearest(n) <= MAX_INT64 then Amount(Nearest(n))
            else Bad(NOT_AN_INTEGER))
      && (ParseCartItemQuantity(Decoded(n)) == Amount(n) <==> 1 <= n <= MAX_INT64 && n % Grain(n) == 0)
      && (n < 0x20_0000_0000_0000 ==> Nearest(n) == n)
  {
    hide Nearest, Grain;
    if n >= 0 {
      NearestIsExact(n);
      SmallIsExact(n);
      assert (Nearest(n) as real).Floor == Nearest(n);
    } else {
      assert ((0 - Nearest(-n)) as real).Floor == 0 - Nearest(-n);
    }
  }

  lemma SmallIsExact(n: nat)
    ensures n < 0x20_0000_0000_0000 ==> n % Grain(n) == 0
  {
  }

  /** The first integer that does not: it arrives as its even neighbour. */
  lemma JsonRounds()
    ensures ParseCartItemQuantity(Decoded(9007199254740993)) == Amount(9007199254740992)
  {
    assert Grain(9007199254740993) == 2 * Grain(4503599627370496);
    assert Nearest(9007199254740993) == 9007199254740992;
  }

  /** Integers that a Go int can hold. */
  predicate Sized(q: Quantity) {
    q.Integer? ==> MIN_INT64 <= q.n <= MAX_INT64
  }

  predicate SizedData(d: CartData) {
    match d
    case Items(es) => forall i :: 0 <= i < |es| && es[i].Some? ==> Sized(es[i].value.quantity)
    case Single(r) => Sized(r.quantity)
    case Neither => true
  }

  predicate Absent(q: Quantity) {
    q.Missing? || q.Null?
  }

  /** The quantity asked for: one if none is given. */
  function AmountOf(r: RawItem): int {
    if Absent(r.quantity) then 1
    else if !Sized(r.quantity) then 0
    else match ParseCartItemQuantity(r.quantity) case Amount(n) => n case Bad(_) => 0
  }

  function Problem(r: RawItem): Option<string> {
    if r.id == "" || r.seller == "" then Some("add to cart: item.id and item.seller are required")
    else if Absent(r.quantity) || !Sized(r.quantity) then None
    else match ParseCartItemQuantity(r.quantity) case Amount(_) => None case Bad(e) => Some(e)
  }

  function FirstProblem(raws: seq<RawItem>, n: nat): Option<string>
    requires n <= |raws|
  {
    if n == 0 then None
    else if FirstProblem(raws, n - 1).Some? then FirstProblem(raws, n - 1)
    else Problem(raws[n - 1])
  }

  // ----- What merging comes to -----

  /** The ids among the first n items, each at its first occurrence. */
  function Order(raws: seq<RawItem>, n: nat): seq<string>
    requires n <= |raws|
  {
    if n == 0 then []
    else
      var order := Order(raws, n - 1);
      if raws[n - 1].id in order then order else order + [raws[n - 1].id]
  }

  function SumFor(raws: seq<RawItem>, n: nat, id: string): int
    requires n <= |raws|
  {
    if n == 0 then 0 else SumFor(raws, n - 1, id) + if raws[n - 1].id == id then AmountOf(raws[n - 1]) else 0
  }

  function CountFor(raws: seq<RawItem>, n: nat, id: string): nat
    requires n <= |raws|
  {
    if n == 0 then 0 else CountFor(raws, n - 1, id) + if raws[n - 1].id == id then 1 else 0
  }

  /** The first item with the id. */
  function First(raws: seq<RawItem>, n: nat, id: string): (i: nat)
    requires n <= |raws| && id in Order(raws, n)
    ensures i < n && raws[i].id == id
    ensures forall j :: 0 <= j < i ==> raws[j].id != id
  {
    if id in Order(raws, n - 1) then First(raws, n - 1, id)
    else
      OrderHasAll(raws, n - 1);
      n - 1
  }

  lemma OrderHasAll(raws: seq<RawItem>, n: nat)
    requires n <= |raws|
    ensures forall i :: 0 <= i < n ==> raws[i].id in Order(raws, n)
  {
  }

  function ItemFor(raws: seq<RawItem>, n: nat, id: string): CartItem
    requires n <= |raws| && id in Order(raws, n)
  {
    CartItem(id, raws[First(raws, n, id)].seller, Wrap64(SumFor(raws, n, id)))
  }

  /** The item as the callback reports it: a copy of the first one, with the
      merged quantity if there are more, and with 1 if it names none. */
  function CallbackFor(raws: seq<RawItem>, n: nat, id: string): RawItem
    requires n <= |raws| && id in Order(raws, n)
  {
    var r := raws[First(raws, n, id)];
    if CountFor(raws, n, id) > 1 then r.(quantity := Integer(Wrap64(SumFor(raws, n, id))))
    else if r.quantity.Missing? then r.(quantity := Integer(1))
    else r
  }

  datatype Shape = Shape(raws: seq<RawItem>, itemsFormat: bool) | Misshapen(error: string)

  function ShapeOf(d: CartData): Shape {
    match d
    case Items(es) =>
      if es == [] then Misshapen("add to cart: items must not be empty")
      else if None in es then Misshapen("add to cart: each item must be an object")
      else
        Shape(seq(|es|, i requires 0 <= i < |es| => if es[i].Some? then es[i].value else RawItem("", "", Other, "")),
              true)
    case Single(r) => Shape([r], false)
    case Neither => Misshapen("add to cart: item or items is required")
  }

  // ----- The loops -----

  method Collect(d: CartData) returns (shape: Shape)
    ensures shape == ShapeOf(d)
  {
    match d
    case Items(es) =>
      if |es| == 0 {
        return Misshapen("add to cart: items must not be empty");
      }
      var raws := [];
      for i := 0 to |es|
        invariant |raws| == i
        invariant forall j :: 0 <= j < i ==> es[j].Some? && raws[j] == es[j].value
      {
        if es[i].None? {
          return Misshapen("add to cart: each item must be an object");
        }
        raws := raws + [es[i].value];
      }
      shape := Shape(raws, true);
    case Single(r) => shape := Shape([r], false);
    case Neither => shape := Misshapen("add to cart: item or items is required");
  }

  /** What the merging loop has built after n items. */
  ghost predicate MergedSoFar(raws: seq<RawItem>, n: nat, order: seq<string>, merged: map<string, CartItem>,
                              copies: map<string, RawItem>)
    requires n <= |raws|
  {
    && order == Order(raws, n)
    && (forall id :: id in merged <==> id in order)
    && (forall id :: id in copies <==> id in order)
    && (forall id :: id in order ==> merged[id] == ItemFor(raws, n, id) && copies[id] == CallbackFor(raws, n, id))
  }

  lemma MergeOne(raws: seq<RawItem>, n: nat, id: string)
    requires n < |raws| && id in Order(raws, n + 1)
    ensures var r := raws[n];
      && (id in Order(raws, n) <==> id != r.id || CountFor(raws, n, id) > 0)
      && (id in Order(raws, n) ==> First(raws, n + 1, id) == First(raws, n, id))
      && (id !in Order(raws, n) ==>
            First(raws, n + 1, id) == n && SumFor(raws, n, id) == 0 && CountFor(raws, n, id) == 0)
      && (id in Order(raws, n) ==> CountFor(raws, n, id) > 0)
  {
    CountedInOrder(raws, n, id);
  }

  lemma {:induction false} CountedInOrder(raws: seq<RawItem>, n: nat, id: string)
    requires n <= |raws|
    ensures id in Order(raws, n) <==> CountFor(raws, n, id) > 0
    ensures id !in Order(raws, n) ==> SumFor(raws, n, id) == 0
  {
    if n > 0 {
      CountedInOrder(raws, n - 1, id);
    }
  }

  lemma OthersStay(raws: seq<RawItem>, n: nat, id: string)
    requires n < |raws| && id in Order(raws, n) && id != raws[n].id
    ensures id in Order(raws, n + 1)
    ensures ItemFor(raws, n + 1, id) == ItemFor(raws, n, id)
    ensures CallbackFor(raws, n + 1, id) == CallbackFor(raws, n, id)
  {
  }

  lemma SeenAgain(raws: seq<RawItem>, n: nat)
    requires n < |raws| && raws[n].id in Order(raws, n)
    ensures var id := raws[n].id;
      var total := Wrap64(ItemFor(raws, n, id).quantity + AmountOf(raws[n]));
      && id in Order(raws, n + 1)
      && ItemFor(raws, n + 1, id) == ItemFor(raws, n, id).(quantity := total)
      && CallbackFor(raws, n + 1, id) == CallbackFor(raws, n, id).(quantity := Integer(total))
  {
    MergeOne(raws, n, raws[n].id);
    WrapAgain(SumFor(raws, n, raws[n].id), AmountOf(raws[n]));
  }

  lemma SeenFirst(raws: seq<RawItem>, n: nat)
    requires n < |raws| && raws[n].id !in Order(raws, n)
    requires MIN_INT64 <= AmountOf(raws[n]) <= MAX_INT64
    ensures var r := raws[n];
      && r.id in Order(raws, n + 1)
      && ItemFor(raws, n + 1, r.id) == CartItem(r.id, r.seller, AmountOf(r))
      && CallbackFor(raws, n + 1, r.id) == if r.quantity.Missing? then r.(quantity := Integer(1)) else r
  {
    MergeOne(raws, n, raws[n].id);
  }

  /** One item's quantity, or the reason to reject the request. */
  method ReadItem(item: RawItem) returns (quantity: int, problem: Option<string>)
    requires Sized(item.quantity)
    ensures problem == Problem(item)
    ensures problem.None? ==> quantity == AmountOf(item) && 1 <= quantity <= MAX_INT64
    ensures problem.None? && item.quantity.Missing? ==> quantity == 1
  {
    quantity, problem := 1, None;
    if item.id == "" || item.seller == "" {
      problem := Some("add to cart: item.id and item.seller are required");
    } else if !item.quantity.Missing? && !item.quantity.Null? {
      var parsed := ParseCartItemQuantity(item.quantity);
      match parsed
      case Bad(e) => problem := Some(e);
      case Amount(n) => quantity := n;
    }
  }

  method ParseCartItems(d: CartData) returns (r: Parsed)
    requires SizedData(d)
    ensures var shape := ShapeOf(d);
      && (shape.Misshapen? ==> r == Rejected(shape.error))
      && (shape.Shape? ==>
            var problem, order := FirstProblem(shape.raws, |shape.raws|), Order(shape.raws, |shape.raws|);
            && (problem.Some? ==> r == Rejected(problem.value))
            && (problem.None? ==>
                  && r.Parsed? && r.itemsFormat == shape.itemsFormat
                  && |r.items| == |order| && |r.callback| == |order|
                  && (forall k :: 0 <= k < |order| ==>
                        && r.items[k] == ItemFor(shape.raws, |shape.raws|, order[k])
                        && r.callback[k] == CallbackFor(shape.raws, |shape.raws|, order[k]))))
  {
    hide MergedSoFar, ItemFor, CallbackFor, ShapeOf, Problem, AmountOf, Order, FirstProblem, Sized;
    var shape := Collect(d);
    if shape.Misshapen? {
      return Rejected(shape.error);
    }
    SizedShape(d);
    var problem, merged, copies, order := MergeAll(shape.raws);
    if problem.Some? {
      return Rejected(problem.value);
    }
    MergedOrder(shape.raws, order, merged, copies);
    r := Assemble(shape.raws, order, merged, copies, shape.itemsFormat);
  }

  lemma SizedShape(d: CartData)
    requires SizedData(d) && ShapeOf(d).Shape?
    ensures forall i :: 0 <= i < |ShapeOf(d).raws| ==> Sized(ShapeOf(d).raws[i].quantity)
  {
  }

  lemma MergedOrder(raws: seq<RawItem>, order: seq<string>, merged: map<string, CartItem>, copies: map<string, RawItem>)
    requires MergedSoFar(raws, |raws|, order, merged, copies)
    ensures order == Order(raws, |raws|)
  {
  }

  /** The loop over the items: the first problem, or all items merged. */
  method MergeAll(raws: seq<RawItem>)
    returns (problem: Option<string>, merged: map<string, CartItem>, copies: map<string, RawItem>, order: seq<string>)
    requires forall i :: 0 <= i < |raws| ==> Sized(raws[i].quantity)
    ensures problem == FirstProblem(raws, |raws|)
    ensures problem.None? ==> MergedSoFar(raws, |raws|, order, merged, copies)
  {
    assert MergedSoFar(raws, 0, [], map[], map[]);
    assert FirstProblem(raws, 0).None?;
    hide MergedSoFar, ItemFor, CallbackFor, Problem, AmountOf, Order, FirstProblem;
    merged, copies, order := map[], map[], [];
    for i := 0 to |raws|
      invariant FirstProblem(raws, i).None?
      invariant MergedSoFar(raws, i, order, merged, copies)
    {
      var quantity;
      quantity, problem := ReadItem(raws[i]);
      if problem.Some? {
        ProblemStays(raws, i);
        return;
      }
      NextProblem(raws, i);
      merged, copies, order := MergeItem(raws, i, raws[i], quantity, merged, copies, order);
    }
    problem := None;
  }

  lemma NextProblem(raws: seq<RawItem>, n: nat)
    requires n < |raws| && FirstProblem(raws, n).None?
    ensures FirstProblem(raws, n + 1) == Problem(raws[n])
  {
  }

  lemma {:induction false} ProblemStays(raws: seq<RawItem>, n: nat)
    requires n < |raws| && FirstProblem(raws, n).None? && Problem(raws[n]).Some?
    ensures FirstProblem(raws, |raws|) == Problem(raws[n])
  {
    var m := n + 1;
    while m < |raws|
      invariant n < m <= |raws| && FirstProblem(raws, m) == Problem(raws[n])
    {
      m := m + 1;
    }
  }

  method MergeItem(ghost raws: seq<RawItem>, ghost i: nat, item: RawItem, quantity: int, merged: map<string, CartItem>,
                   copies: map<string, RawItem>, order: seq<string>)
    returns (merged': map<string, CartItem>, copies': map<string, RawItem>, order': seq<string>)
    requires i < |raws| && item == raws[i] && quantity == AmountOf(item)
    requires MergedSoFar(raws, i, order, merged, copies)
    requires 1 <= quantity <= MAX_INT64 && (item.quantity.Missing? ==> quantity == 1)
    ensures MergedSoFar(raws, i + 1, order', merged', copies')
  {
    hide ItemFor, CallbackFor, AmountOf, Wrap64;
    merged', copies', order' := merged, copies, order;
    if item.id in merged {
      var total := Wrap64(merged[item.id].quantity + quantity);
      merged' := merged[item.id := merged[item.id].(quantity := total)];
      copies' := copies[item.id := copies[item.id].(quantity := Integer(total))];
      SeenAgain(raws, i);
    } else {
      merged' := merged[item.id := CartItem(item.id, item.seller, quantity)];
      order' := order + [item.id];
      copies' := copies[item.id := if item.quantity.Missing? then item.(quantity := Integer(quantity)) else item];
      SeenFirst(raws, i);
    }
    forall id | id in order'
      ensures merged'[id] == ItemFor(raws, i + 1, id) && copies'[id] == CallbackFor(raws, i + 1, id)
    {
      if id != item.id {
        OthersStay(raws, i, id);
      }
    }
  }

  method Assemble(ghost raws: seq<RawItem>, order: seq<string>, merged: map<string, CartItem>,
                  copies: map<string, RawItem>, itemsFormat: bool)
    returns (r: Parsed)
    requires MergedSoFar(raws, |raws|, order, merged, copies)
    ensures r.Parsed? && r.itemsFormat == itemsFormat
    ensures |r.items| == |order| && |r.callback| == |order|
    ensures forall k :: 0 <= k < |order| ==>
      r.items[k] == ItemFor(raws, |raws|, order[k]) && r.callback[k] == CallbackFor(raws, |raws|, order[k])
  {
    hide ItemFor, CallbackFor;
    var items, callback := [], [];
    for k := 0 to |order|
      invariant |items| == k && |callback| == k
      invariant forall j :: 0 <= j < k ==>
        items[j] == ItemFor(raws, |raws|, order[j]) && callback[j] == CallbackFor(raws, |raws|, order[j])
    {
      items := items + [merged[order[k]]];
      callback := callback + [copies[order[k]]];
    }
    r := Parsed(items, callback, itemsFormat);
  }

  // ----- Which requests are refused -----

  const BLANK_FIELD := "add to cart: item.id and item.seller are required"

  /** An item that can be put into the cart, n of it. */
  ghost predicate Wants(r: RawItem, n: int) {
    && r.id != "" && r.seller != ""
    && (if Absent(r.quantity) then n == 1 else Names(r.quantity, n) && 1 <= n <= MAX_INT64)
  }

  lemma ItemExactly(r: RawItem)
    requires Sized(r.quantity)
    ensures forall n :: Problem(r).None? && AmountOf(r) == n <==> Wants(r, n)
    ensures Problem(r) == Some(BLANK_FIELD) <==> r.id == "" || r.seller == ""
    ensures r.id != "" && r.seller != "" && Problem(r).Some? ==>
      Problem(r).value == ParseCartItemQuantity(r.quantity).error
  {
    hide ParseCartItemQuantity, Names;
    QuantityExactly(r.quantity);
    RefusalExactly(r.quantity);
    assert |BLANK_FIELD| != |NOT_POSITIVE| && |BLANK_FIELD| != |NOT_AN_INTEGER|;
  }

  ghost predicate Orderable(r: RawItem) {
    exists n :: Wants(r, n)
  }

  lemma ItemIsOrderable(r: RawItem)
    requires Sized(r.quantity)
    ensures Problem(r).None? <==> Orderable(r)
  {
    hide Problem, AmountOf, Wants;
    ItemExactly(r);
    if Problem(r).None? {
      assert Wants(r, AmountOf(r));
    }
  }

  /** A request of well-formed items is accepted exactly when every item can be put into
      the cart; else it is refused for the first that cannot. */
  lemma RefusedExactly(raws: seq<RawItem>, i: nat)
    requires i <= |raws| && forall j :: 0 <= j < |raws| ==> Sized(raws[j].quantity)
    requires forall j :: 0 <= j < i ==> Orderable(raws[j])
    ensures i == |raws| ==> FirstProblem(raws, |raws|).None?
    ensures i < |raws| && !Orderable(raws[i]) ==>
      FirstProblem(raws, |raws|).Some? && FirstProblem(raws, |raws|) == Problem(raws[i])
  {
    hide Problem, Orderable, Sized, FirstProblem;
    forall j | 0 <= j < |raws|
      ensures Problem(raws[j]).None? <==> Orderable(raws[j])
    {
      ItemIsOrderable(raws[j]);
    }
    NoProblems(raws, i);
    if i < |raws| && !Orderable(raws[i]) {
      ProblemStays(raws, i);
    }
  }

  lemma {:induction false} NoProblems(raws: seq<RawItem>, n: nat)
    requires n <= |raws| && forall i :: 0 <= i < n ==> Problem(raws[i]).None?
    ensures FirstProblem(raws, n).None?
  {
    hide Problem;
    if n > 0 {
      NoProblems(raws, n - 1);
    }
  }

  /** A request has no items to read exactly when it names none, lists none, or lists
      something that is not an object, and each has its own error. */
  lemma ShapeExactly(d: CartData)
    ensures var shape := ShapeOf(d);
      && (shape == Misshapen("add to cart: items must not be empty") <==> d == Items([]))
      && (shape == Misshapen("add to cart: each item must be an object") <==> d.Items? && None in d.elements)
      && (shape == Misshapen("add to cart: item or items is required") <==> d.Neither?)
      && (d.Single? <==> shape.Shape? && !shape.itemsFormat)
      && (d.Single? ==> shape.raws == [d.item])
      && (shape.Shape? && d.Items? ==>
            |shape.raws| == |d.elements| && forall i :: 0 <= i < |d.elements| ==> d.elements[i] == Some(shape.raws[i]))
      && (shape.Misshapen? <==> d.Neither? || (d.Items? && (d.elements == [] || None in d.elements)))
  {
    var (a, b, c) := ("add to cart: items must not be empty", "add to cart: each item must be an object",
                      "add to cart: item or items is required");
    assert |a| != |b| && |b| != |c| && |a| != |c|;
  }

  // ----- What it means -----

  /** Some item after the i-th has its id. */
  predicate NamedAgain(raws: seq<RawItem>, n: nat, i: nat)
    requires i < |raws| && n <= |raws|
  {
    exists j :: i < j < n && raws[j].id == raws[i].id
  }

  /** Each id has the seller of the first item that names it; the callback has that item as
      it came, but for the quantity if it named none or if others name the id too. */
  lemma MergedExactly(raws: seq<RawItem>, i: nat)
    requires i < |raws| && forall j :: 0 <= j < i ==> raws[j].id != raws[i].id
    ensures var id := raws[i].id;
      && id in Order(raws, |raws|)
      && var (item, reported) := (ItemFor(raws, |raws|, id), CallbackFor(raws, |raws|, id));
         && item.id == id && item.seller == raws[i].seller
         && reported.id == id && reported.seller == raws[i].seller && reported.rest == raws[i].rest
         && reported.quantity ==
              if NamedAgain(raws, |raws|, i) then Integer(item.quantity)
              else if raws[i].quantity.Missing? then Integer(1)
              else raws[i].quantity
  {
    hide Order, SumFor, CountFor, NamedAgain, Wrap64;
    OrderHasAll(raws, |raws|);
    CountsTheId(raws, |raws|, i);
    assert First(raws, |raws|, raws[i].id) == i;
  }

  lemma {:induction false} CountsTheId(raws: seq<RawItem>, n: nat, i: nat)
    requires n <= |raws| && i < |raws| && forall j :: 0 <= j < i ==> raws[j].id != raws[i].id
    ensures CountFor(raws, n, raws[i].id) == 0 <==> n <= i
    ensures CountFor(raws, n, raws[i].id) > 1 <==> NamedAgain(raws, n, i)
  {
    if n > 0 {
      CountsTheId(raws, n - 1, i);
    }
  }

  function TotalWanted(raws: seq<RawItem>, n: nat): int
    requires n <= |raws|
  {
    if n == 0 then 0 else TotalWanted(raws, n - 1) + AmountOf(raws[n - 1])
  }

  function TotalQuantity(items: seq<CartItem>): int {
    if items == [] then 0 else TotalQuantity(items[..|items| - 1]) + items[|items| - 1].quantity
  }

  /** Each id once, in the order in which the request first names it. */
  lemma {:induction false} FirstOccurrenceOrder(raws: seq<RawItem>, n: nat)
    requires n <= |raws|
    ensures forall k, l :: 0 <= k < l < |Order(raws, n)| ==>
      Order(raws, n)[k] != Order(raws, n)[l] && First(raws, n, Order(raws, n)[k]) < First(raws, n, Order(raws, n)[l])
    ensures forall i :: 0 <= i < n ==> raws[i].id in Order(raws, n)
  {
    if n > 0 {
      FirstOccurrenceOrder(raws, n - 1);
      var order := Order(raws, n - 1);
      forall k | 0 <= k < |order| ensures First(raws, n, order[k]) == First(raws, n - 1, order[k]) < n - 1 {
      }
    }
  }

  predicate Distinct(ids: seq<string>) {
    forall k, l :: 0 <= k < l < |ids| ==> ids[k] != ids[l]
  }

  /** The unwrapped sums of the given ids over the first n items. */
  function SumOver(ids: seq<string>, raws: seq<RawItem>, n: nat): int
    requires n <= |raws|
  {
    if ids == [] then 0 else SumOver(ids[..|ids| - 1], raws, n) + SumFor(raws, n, ids[|ids| - 1])
  }

  lemma {:induction false} SumOverGrows(ids: seq<string>, raws: seq<RawItem>, n: nat)
    requires n < |raws| && Distinct(ids)
    ensures SumOver(ids, raws, n + 1) == SumOver(ids, raws, n) + if raws[n].id in ids then AmountOf(raws[n]) else 0
  {
    if ids != [] {
      SumOverGrows(ids[..|ids| - 1], raws, n);
    }
  }

  lemma {:induction false} SumsCoverTheRequest(raws: seq<RawItem>, n: nat)
    requires n <= |raws|
    ensures Distinct(Order(raws, n)) && SumOver(Order(raws, n), raws, n) == TotalWanted(raws, n)
  {
    if n > 0 {
      SumsCoverTheRequest(raws, n - 1);
      var order := Order(raws, n - 1);
      SumOverGrows(order, raws, n - 1);
      if raws[n - 1].id !in order {
        CountedInOrder(raws, n - 1, raws[n - 1].id);
        assert (order + [raws[n - 1].id])[..|order|] == order;
      }
    }
  }

  predicate NoOverflow(raws: seq<RawItem>) {
    forall i :: 0 <= i < |raws| ==> SumFor(raws, |raws|, raws[i].id) <= MAX_INT64
  }

  lemma {:induction false} SumForIsPositive(raws: seq<RawItem>, n: nat, id: string)
    requires n <= |raws| && FirstProblem(raws, n).None?
    requires forall i :: 0 <= i < n ==> Sized(raws[i].quantity)
    ensures SumFor(raws, n, id) >= CountFor(raws, n, id)
  {
    if n > 0 {
      SumForIsPositive(raws, n - 1, id);
    }
  }

  lemma {:induction false} WrappedTotal(raws: seq<RawItem>, items: seq<CartItem>, ids: seq<string>)
    requires |items| == |ids|
    requires forall k :: 0 <= k < |ids| ==>
      items[k].quantity == Wrap64(SumFor(raws, |raws|, ids[k])) && SumFor(raws, |raws|, ids[k]) >= 0
    ensures TotalQuantity(items) <= SumOver(ids, raws, |raws|)
    ensures TotalQuantity(items) == SumOver(ids, raws, |raws|) <==>
      forall k :: 0 <= k < |ids| ==> SumFor(raws, |raws|, ids[k]) <= MAX_INT64
  {
    if ids != [] {
      var n := |ids| - 1;
      WrappedTotal(raws, items[..n], ids[..n]);
      assert forall k :: 0 <= k < n ==> ids[..n][k] == ids[k];
    }
  }

  /** A request that is accepted asks for as much after merging as before,
      exactly when no merged quantity overflows. */
  lemma MergingConserves(raws: seq<RawItem>, items: seq<CartItem>)
    requires FirstProblem(raws, |raws|).None? && forall i :: 0 <= i < |raws| ==> Sized(raws[i].quantity)
    requires |items| == |Order(raws, |raws|)|
    requires forall k :: 0 <= k < |items| ==> items[k] == ItemFor(raws, |raws|, Order(raws, |raws|)[k])
    ensures TotalQuantity(items) == TotalWanted(raws, |raws|) <==> NoOverflow(raws)
    ensures NoOverflow(raws) ==> forall k :: 0 <= k < |items| ==> 1 <= items[k].quantity
  {
    hide SumFor, SumOver, TotalWanted, TotalQuantity, FirstProblem, Order, CountFor, NoOverflow;
    var order := Order(raws, |raws|);
    SumsCoverTheRequest(raws, |raws|);
    forall k | 0 <= k < |order| ensures SumFor(raws, |raws|, order[k]) >= 1 {
      SumForIsPositive(raws, |raws|, order[k]);
      CountedInOrder(raws, |raws|, order[k]);
    }
    WrappedTotal(raws, items, order);
    OverflowById(raws);
  }

  lemma OverflowById(raws: seq<RawItem>)
    ensures NoOverflow(raws) <==>
      forall k :: 0 <= k < |Order(raws, |raws|)| ==> SumFor(raws, |raws|, Order(raws, |raws|)[k]) <= MAX_INT64
  {
    hide SumFor, Order;
    var order := Order(raws, |raws|);
    OrderHasAll(raws, |raws|);
    if forall k :: 0 <= k < |order| ==> SumFor(raws, |raws|, order[k]) <= MAX_INT64 {
      forall i | 0 <= i < |raws| ensures SumFor(raws, |raws|, raws[i].id) <= MAX_INT64 {
        assert raws[i].id in order;
      }
    } else {
      var k :| 0 <= k < |order| && SumFor(raws, |raws|, order[k]) > MAX_INT64;
      assert raws[First(raws, |raws|, order[k])].id == order[k];
    }
  }

  /** The callback reports the same ids and sellers in the same order, and each
      quantity reads as the one put into the cart, unless its sum overflowed. */
  lemma CallbackAgrees(raws: seq<RawItem>, id: string)
    requires FirstProblem(raws, |raws|).None? && forall i :: 0 <= i < |raws| ==> Sized(raws[i].quantity)
    requires id in Order(raws, |raws|)
    ensures var item, reported := ItemFor(raws, |raws|, id), CallbackFor(raws, |raws|, id);
      && reported.id == item.id && reported.seller == item.seller
      && (SumFor(raws, |raws|, id) <= MAX_INT64 ==> AmountOf(reported) == item.quantity)
  {
    SumForIsPositive(raws, |raws|, id);
    CountedInOrder(raws, |raws|, id);
    if CountFor(raws, |raws|, id) <= 1 {
      OnlyOne(raws, |raws|, id);
    }
  }

  lemma {:induction false} OnlyOne(raws: seq<RawItem>, n: nat, id: string)
    requires n <= |raws| && id in Order(raws, n) && CountFor(raws, n, id) == 1
    ensures SumFor(raws, n, id) == AmountOf(raws[First(raws, n, id)])
  {
    CountedInOrder(raws, n - 1, id);
    if raws[n - 1].id != id {
      OnlyOne(raws, n - 1, id);
    }
  }
}
