/** From the request to the cart: when every unit asked for arrives. */
module CartLaws {
  import opened Cluster
  import opened GoStrings
  import opened CartRequest
  import opened CartUpdate
  import opened Positions

  function TotalLines(lines: seq<Line>): int {
    if lines == [] then 0 else TotalLines(lines[..|lines| - 1]) + lines[|lines| - 1].quantity
  }

  /** What the first n inputs ask for on line l, and how many of them do. */
  function ShareFor(lines: seq<Line>, inputs: seq<CartItem>, n: nat, l: nat): int
    requires n <= |inputs|
  {
    if n == 0 then 0
    else
      ShareFor(lines, inputs, n - 1, l)
      + if Match(lines, inputs[n - 1].id) == Some(l) then inputs[n - 1].quantity else 0
  }

  function AskersFor(lines: seq<Line>, inputs: seq<CartItem>, n: nat, l: nat): nat
    requires n <= |inputs|
  {
    if n == 0 then 0
    else AskersFor(lines, inputs, n - 1, l) + if Match(lines, inputs[n - 1].id) == Some(l) then 1 else 0
  }

  /** The shares of the first m lines together. */
  function Shares(lines: seq<Line>, inputs: seq<CartItem>, n: nat, m: nat): int
    requires n <= |inputs|
  {
    if m == 0 then 0 else Shares(lines, inputs, n, m - 1) + ShareFor(lines, inputs, n, m - 1)
  }

  lemma {:induction false} SharesGrow(lines: seq<Line>, inputs: seq<CartItem>, n: nat, m: nat)
    requires n < |inputs|
    ensures var at := Match(lines, inputs[n].id);
      Shares(lines, inputs, n + 1, m) ==
        Shares(lines, inputs, n, m) + if at.Some? && at.value < m then inputs[n].quantity else 0
  {
    if m > 0 {
      SharesGrow(lines, inputs, n, m - 1);
    }
  }

  lemma {:induction false} NothingShared(lines: seq<Line>, inputs: seq<CartItem>, m: nat)
    ensures Shares(lines, inputs, 0, m) == 0
  {
    if m > 0 {
      NothingShared(lines, inputs, m - 1);
    }
  }

  lemma TotalSnoc(items: seq<CartItem>, item: CartItem)
    ensures TotalQuantity(items + [item]) == TotalQuantity(items) + item.quantity
  {
    assert (items + [item])[..|items|] == items;
  }

  /** Each input is somebody's share, or new. */
  lemma {:induction false} SharesCoverInputs(lines: seq<Line>, inputs: seq<CartItem>, n: nat)
    requires n <= |inputs|
    ensures Shares(lines, inputs, n, |lines|) + TotalQuantity(NewItems(lines, inputs, n)) == TotalQuantity(inputs[..n])
  {
    if n == 0 {
      NothingShared(lines, inputs, |lines|);
    } else {
      SharesCoverInputs(lines, inputs, n - 1);
      SharesGrow(lines, inputs, n - 1, |lines|);
      assert inputs[..n] == inputs[..n - 1] + [inputs[n - 1]];
      TotalSnoc(inputs[..n - 1], inputs[n - 1]);
      TotalSnoc(NewItems(lines, inputs, n - 1), inputs[n - 1]);
    }
  }

  predicate Sound(lines: seq<Line>, inputs: seq<CartItem>) {
    && (forall l :: 0 <= l < |lines| ==> MIN_INT64 <= lines[l].quantity <= MAX_INT64)
    && (forall k :: 0 <= k < |inputs| ==> 1 <= inputs[k].quantity)
  }

  /** At most one input asks for the line, and its sum fits. */
  predicate Clean(lines: seq<Line>, inputs: seq<CartItem>, l: nat)
    requires l < |lines|
  {
    var n := |inputs|;
    AskersFor(lines, inputs, n, l) <= 1 && lines[l].quantity + ShareFor(lines, inputs, n, l) <= MAX_INT64
  }

  lemma {:induction false} LastIsPartOfTheShare(lines: seq<Line>, inputs: seq<CartItem>, n: nat, l: nat)
    requires n <= |inputs| && forall k :: 0 <= k < n ==> 1 <= inputs[k].quantity
    ensures var last := LastFor(lines, inputs, n, l);
      && (last.None? ==> AskersFor(lines, inputs, n, l) == 0 && ShareFor(lines, inputs, n, l) == 0)
      && (last.Some? ==>
            && AskersFor(lines, inputs, n, l) >= 1 && 1 <= last.value <= ShareFor(lines, inputs, n, l)
            && (last.value == ShareFor(lines, inputs, n, l) <==> AskersFor(lines, inputs, n, l) == 1))
  {
    hide Match;
    if n > 0 {
      LastIsPartOfTheShare(lines, inputs, n - 1, l);
    }
  }

  lemma LineRaise(lines: seq<Line>, inputs: seq<CartItem>, l: nat)
    requires Sound(lines, inputs) && l < |lines|
    ensures var n := |inputs|;
      var raise := QuantityAfter(lines, inputs, n, l) - lines[l].quantity;
      && raise <= ShareFor(lines, inputs, n, l)
      && (raise == ShareFor(lines, inputs, n, l) <==> Clean(lines, inputs, l))
  {
    LastIsPartOfTheShare(lines, inputs, |inputs|, l);
  }

  lemma {:induction false} LinesRaise(lines: seq<Line>, inputs: seq<CartItem>, now: seq<Line>, m: nat)
    requires Sound(lines, inputs) && LinesAfter(lines, inputs, |inputs|, now) && m <= |lines|
    ensures TotalLines(now[..m]) - TotalLines(lines[..m]) <= Shares(lines, inputs, |inputs|, m)
    ensures TotalLines(now[..m]) - TotalLines(lines[..m]) == Shares(lines, inputs, |inputs|, m) <==>
      forall l :: 0 <= l < m ==> Clean(lines, inputs, l)
  {
    hide Clean, Sound, QuantityAfter, ShareFor;
    if m > 0 {
      LinesRaise(lines, inputs, now, m - 1);
      LineRaise(lines, inputs, m - 1);
      assert now[..m][..m - 1] == now[..m - 1] && lines[..m][..m - 1] == lines[..m - 1];
    }
  }

  // ----- In terms of the request -----

  /** No two inputs are matched to one line. */
  predicate NoSharedLine(lines: seq<Line>, inputs: seq<CartItem>) {
    forall i, j :: 0 <= i < j < |inputs| && Match(lines, inputs[i].id).Some? ==>
      Match(lines, inputs[i].id) != Match(lines, inputs[j].id)
  }

  predicate NoLineOverflow(lines: seq<Line>, inputs: seq<CartItem>) {
    forall i :: 0 <= i < |inputs| && Match(lines, inputs[i].id).Some? ==>
      lines[Match(lines, inputs[i].id).value].quantity + inputs[i].quantity <= MAX_INT64
  }

  predicate Asks(lines: seq<Line>, inputs: seq<CartItem>, i: nat, l: nat) {
    i < |inputs| && Match(lines, inputs[i].id) == Some(l)
  }

  lemma {:induction false} AskerCounts(lines: seq<Line>, inputs: seq<CartItem>, n: nat, l: nat, i: nat)
    requires i < n <= |inputs| && Asks(lines, inputs, i, l)
    requires forall k :: 0 <= k < n ==> 1 <= inputs[k].quantity
    ensures AskersFor(lines, inputs, n, l) >= 1 && ShareFor(lines, inputs, n, l) >= inputs[i].quantity
    ensures AskersFor(lines, inputs, n, l) == 1 ==> ShareFor(lines, inputs, n, l) == inputs[i].quantity
  {
    hide Match;
    LastIsPartOfTheShare(lines, inputs, n - 1, l);
    if i < n - 1 {
      AskerCounts(lines, inputs, n - 1, l, i);
    }
  }

  lemma {:induction false} TwoAskersCount(lines: seq<Line>, inputs: seq<CartItem>, n: nat, l: nat, i: nat, j: nat)
    requires i < j < n <= |inputs| && Asks(lines, inputs, i, l) && Asks(lines, inputs, j, l)
    requires forall k :: 0 <= k < n ==> 1 <= inputs[k].quantity
    ensures AskersFor(lines, inputs, n, l) >= 2
  {
    hide Match;
    if j < n - 1 {
      TwoAskersCount(lines, inputs, n - 1, l, i, j);
    } else {
      AskerCounts(lines, inputs, n - 1, l, i);
    }
  }

  lemma {:induction false} SomeAsker(lines: seq<Line>, inputs: seq<CartItem>, n: nat, l: nat) returns (i: nat)
    requires n <= |inputs| && AskersFor(lines, inputs, n, l) >= 1
    ensures i < n && Asks(lines, inputs, i, l)
  {
    hide Match;
    i := n - 1;
    if !Asks(lines, inputs, i, l) {
      i := SomeAsker(lines, inputs, n - 1, l);
    }
  }

  lemma {:induction false} TwoAskers(lines: seq<Line>, inputs: seq<CartItem>, n: nat, l: nat) returns (i: nat, j: nat)
    requires n <= |inputs| && AskersFor(lines, inputs, n, l) >= 2
    ensures i < j < n && Asks(lines, inputs, i, l) && Asks(lines, inputs, j, l)
  {
    hide Match;
    j := n - 1;
    if Asks(lines, inputs, j, l) {
      i := SomeAsker(lines, inputs, n - 1, l);
    } else {
      i, j := TwoAskers(lines, inputs, n - 1, l);
    }
  }

  lemma CleanLine(lines: seq<Line>, inputs: seq<CartItem>, l: nat)
    requires Sound(lines, inputs) && l < |lines| && NoSharedLine(lines, inputs) && NoLineOverflow(lines, inputs)
    ensures Clean(lines, inputs, l)
  {
    hide Match, AskersFor, ShareFor;
    var n := |inputs|;
    LastIsPartOfTheShare(lines, inputs, n, l);
    if AskersFor(lines, inputs, n, l) >= 2 {
      var i, j := TwoAskers(lines, inputs, n, l);
      assert false;
    } else if AskersFor(lines, inputs, n, l) == 1 {
      var i := SomeAsker(lines, inputs, n, l);
      AskerCounts(lines, inputs, n, l, i);
    }
  }

  lemma CleanWhen(lines: seq<Line>, inputs: seq<CartItem>)
    requires Sound(lines, inputs)
    ensures (forall l :: 0 <= l < |lines| ==> Clean(lines, inputs, l)) <==>
      NoSharedLine(lines, inputs) && NoLineOverflow(lines, inputs)
  {
    hide AskersFor, ShareFor;
    if NoSharedLine(lines, inputs) && NoLineOverflow(lines, inputs) {
      forall l | 0 <= l < |lines| ensures Clean(lines, inputs, l) {
        CleanLine(lines, inputs, l);
      }
    }
    if forall l :: 0 <= l < |lines| ==> Clean(lines, inputs, l) {
      forall i: nat | i < |inputs| && Match(lines, inputs[i].id).Some?
        ensures lines[Match(lines, inputs[i].id).value].quantity + inputs[i].quantity <= MAX_INT64
        ensures forall j :: i < j < |inputs| ==> Match(lines, inputs[i].id) != Match(lines, inputs[j].id)
      {
        var l := Match(lines, inputs[i].id).value;
        AskerCounts(lines, inputs, |inputs|, l, i);
        assert Clean(lines, inputs, l);
        forall j | i < j < |inputs| ensures Match(lines, inputs[i].id) != Match(lines, inputs[j].id) {
          if Match(lines, inputs[j].id) == Some(l) {
            TwoAskersCount(lines, inputs, |inputs|, l, i, j);
          }
        }
      }
    }
  }

  lemma {:induction false} TotalLinesConcat(a: seq<Line>, b: seq<Line>)
    ensures TotalLines(a + b) == TotalLines(a) + TotalLines(b)
  {
    if b == [] {
      assert a + b == a;
    } else {
      TotalLinesConcat(a, b[..|b| - 1]);
      assert (a + b)[..|a + b| - 1] == a + b[..|b| - 1];
    }
  }

  lemma {:induction false} AddedTotal(adds: seq<CartItem>)
    ensures TotalLines(Added(adds)) == TotalQuantity(adds)
  {
    if adds != [] {
      AddedTotal(adds[..|adds| - 1]);
      assert Added(adds)[..|adds| - 1] == Added(adds[..|adds| - 1]);
    }
  }

  /** The cart grows by exactly what is asked for, if and only if no two inputs
      are matched to one line and no line overflows; and never by more. */
  lemma CartConservation(lines: seq<Line>, inputs: seq<CartItem>, now: seq<Line>)
    requires Sound(lines, inputs) && LinesAfter(lines, inputs, |inputs|, now)
    ensures var cart := now + Added(NewItems(lines, inputs, |inputs|));
      && TotalLines(cart) - TotalLines(lines) <= TotalQuantity(inputs)
      && (TotalLines(cart) - TotalLines(lines) == TotalQuantity(inputs) <==>
            NoSharedLine(lines, inputs) && NoLineOverflow(lines, inputs))
  {
    hide LinesAfter, Sound, Clean, NoSharedLine, NoLineOverflow, TotalLines, TotalQuantity, NewItems, Shares;
    assert |now| == |lines| by { SameLength(lines, inputs, now); }
    var additions := NewItems(lines, inputs, |inputs|);
    SharesCoverInputs(lines, inputs, |inputs|);
    assert inputs[..|inputs|] == inputs && now[..|lines|] == now && lines[..|lines|] == lines;
    LinesRaise(lines, inputs, now, |lines|);
    CleanWhen(lines, inputs);
    TotalLinesConcat(now, Added(additions));
    AddedTotal(additions);
  }

  lemma SameLength(lines: seq<Line>, inputs: seq<CartItem>, now: seq<Line>)
    requires LinesAfter(lines, inputs, |inputs|, now)
    ensures |now| == |lines|
  {
  }

  // ----- When a merged sum has wrapped -----

  /** The same ids, with quantities that may have come out too low. */
  predicate Narrowed(items: seq<CartItem>, wide: seq<CartItem>) {
    && |items| == |wide|
    && (forall k :: 0 <= k < |items| ==>
          && items[k].id == wide[k].id && 1 <= wide[k].quantity
          && MIN_INT64 <= items[k].quantity <= wide[k].quantity)
  }

  predicate SameFor(lines: seq<Line>, items: seq<CartItem>, wide: seq<CartItem>, n: nat, l: nat)
    requires n <= |items| == |wide|
  {
    forall k :: 0 <= k < n && Asks(lines, wide, k, l) ==> items[k].quantity == wide[k].quantity
  }

  lemma {:induction false} LastNarrowed(lines: seq<Line>, items: seq<CartItem>, wide: seq<CartItem>, n: nat, l: nat)
    requires Narrowed(items, wide) && n <= |items|
    ensures var (a, b) := (LastFor(lines, items, n, l), LastFor(lines, wide, n, l));
      && (a.Some? <==> b.Some?)
      && (a.Some? ==>
            && MIN_INT64 <= a.value <= ShareFor(lines, wide, n, l)
            && (a.value == ShareFor(lines, wide, n, l) ==> SameFor(lines, items, wide, n, l)))
      && (a.None? ==> ShareFor(lines, wide, n, l) == 0 && SameFor(lines, items, wide, n, l))
  {
    hide Match;
    if n > 0 {
      LastNarrowed(lines, items, wide, n - 1, l);
      LastIsPartOfTheShare(lines, wide, n - 1, l);
    }
  }

  lemma LineNarrowed(lines: seq<Line>, items: seq<CartItem>, wide: seq<CartItem>, l: nat)
    requires Narrowed(items, wide) && l < |lines| && 0 <= lines[l].quantity <= MAX_INT64
    ensures var raise := QuantityAfter(lines, items, |items|, l) - lines[l].quantity;
      && raise <= ShareFor(lines, wide, |wide|, l)
      && (raise == ShareFor(lines, wide, |wide|, l) ==> SameFor(lines, items, wide, |wide|, l))
  {
    hide SameFor;
    LastNarrowed(lines, items, wide, |items|, l);
  }

  lemma {:induction false} LinesNarrowed(lines: seq<Line>, items: seq<CartItem>, wide: seq<CartItem>, now: seq<Line>,
                                         m: nat)
    requires Narrowed(items, wide) && LinesAfter(lines, items, |items|, now) && m <= |lines|
    requires forall l :: 0 <= l < |lines| ==> 0 <= lines[l].quantity <= MAX_INT64
    ensures var raise := TotalLines(now[..m]) - TotalLines(lines[..m]);
      && raise <= Shares(lines, wide, |wide|, m)
      && (raise == Shares(lines, wide, |wide|, m) ==>
            forall l :: 0 <= l < m ==> SameFor(lines, items, wide, |wide|, l))
  {
    hide SameFor, QuantityAfter, ShareFor, Narrowed;
    if m > 0 {
      LinesNarrowed(lines, items, wide, now, m - 1);
      SameSize(items, wide);
      LineNarrowed(lines, items, wide, m - 1);
      assert now[..m][..m - 1] == now[..m - 1] && lines[..m][..m - 1] == lines[..m - 1];
    }
  }

  lemma SameSize(items: seq<CartItem>, wide: seq<CartItem>)
    requires Narrowed(items, wide)
    ensures |items| == |wide|
  {
  }

  lemma {:induction false} NewNarrowed(lines: seq<Line>, items: seq<CartItem>, wide: seq<CartItem>, n: nat)
    requires Narrowed(items, wide) && n <= |items|
    ensures var (a, b) := (TotalQuantity(NewItems(lines, items, n)), TotalQuantity(NewItems(lines, wide, n)));
      && a <= b
      && (a == b ==>
            forall k :: 0 <= k < n && Match(lines, wide[k].id).None? ==> items[k].quantity == wide[k].quantity)
  {
    hide Match;
    if n > 0 {
      NewNarrowed(lines, items, wide, n - 1);
      TotalSnoc(NewItems(lines, items, n - 1), items[n - 1]);
      TotalSnoc(NewItems(lines, wide, n - 1), wide[n - 1]);
    }
  }

  /** On a cart without negative quantities, items that came out too low never make
      up for it. */
  lemma NarrowedFallsShort(lines: seq<Line>, items: seq<CartItem>, wide: seq<CartItem>, now: seq<Line>)
    requires Narrowed(items, wide) && LinesAfter(lines, items, |items|, now)
    requires forall l :: 0 <= l < |lines| ==> 0 <= lines[l].quantity <= MAX_INT64
    ensures var growth := TotalLines(now + Added(NewItems(lines, items, |items|))) - TotalLines(lines);
      growth == TotalQuantity(wide) ==> forall k :: 0 <= k < |items| ==> items[k].quantity == wide[k].quantity
  {
    hide SameFor, QuantityAfter, ShareFor, Shares, NewItems, TotalLines, TotalQuantity, Match;
    assert |now| == |lines| by { SameLength(lines, items, now); }
    var additions := NewItems(lines, items, |items|);
    SharesCoverInputs(lines, wide, |wide|);
    assert wide[..|wide|] == wide && now[..|lines|] == now && lines[..|lines|] == lines;
    LinesNarrowed(lines, items, wide, now, |lines|);
    NewNarrowed(lines, items, wide, |items|);
    TotalLinesConcat(now, Added(additions));
    AddedTotal(additions);
    if TotalLines(now + Added(additions)) - TotalLines(lines) == TotalQuantity(wide) {
      forall k | 0 <= k < |items|
        ensures items[k].quantity == wide[k].quantity
      {
        SameSomewhere(lines, items, wide, k);
      }
    }
  }

  lemma SameSomewhere(lines: seq<Line>, items: seq<CartItem>, wide: seq<CartItem>, k: nat)
    requires k < |items| == |wide|
    requires forall l :: 0 <= l < |lines| ==> SameFor(lines, items, wide, |wide|, l)
    requires Match(lines, wide[k].id).None? ==> items[k].quantity == wide[k].quantity
    ensures items[k].quantity == wide[k].quantity
  {
    if Match(lines, wide[k].id).Some? {
      var l := Match(lines, wide[k].id).value;
      assert SameFor(lines, items, wide, |wide|, l) && Asks(lines, wide, k, l);
    }
  }

  /** The merged items with their sums unwrapped. */
  function Widened(raws: seq<RawItem>, ids: seq<string>): (wide: seq<CartItem>)
    ensures |wide| == |ids|
    ensures forall k :: 0 <= k < |ids| ==> wide[k] == CartItem(ids[k], "", SumFor(raws, |raws|, ids[k]))
  {
    seq(|ids|, k requires 0 <= k < |ids| => CartItem(ids[k], "", SumFor(raws, |raws|, ids[k])))
  }

  lemma {:induction false} WidenedTotal(raws: seq<RawItem>, ids: seq<string>)
    ensures TotalQuantity(Widened(raws, ids)) == SumOver(ids, raws, |raws|)
  {
    if ids != [] {
      WidenedTotal(raws, ids[..|ids| - 1]);
      assert Widened(raws, ids)[..|ids| - 1] == Widened(raws, ids[..|ids| - 1]);
    }
  }

  /** An accepted request whose items have been merged. */
  ghost predicate Merged(raws: seq<RawItem>, items: seq<CartItem>) {
    && FirstProblem(raws, |raws|).None? && (forall i :: 0 <= i < |raws| ==> Sized(raws[i].quantity))
    && |items| == |Order(raws, |raws|)|
    && (forall k :: 0 <= k < |items| ==> items[k] == ItemFor(raws, |raws|, Order(raws, |raws|)[k]))
  }

  lemma MergedNarrowed(raws: seq<RawItem>, items: seq<CartItem>)
    requires Merged(raws, items)
    ensures Narrowed(items, Widened(raws, Order(raws, |raws|)))
    ensures TotalQuantity(Widened(raws, Order(raws, |raws|))) == TotalWanted(raws, |raws|)
  {
    hide SumFor, SumOver, TotalWanted, TotalQuantity, FirstProblem, Order, CountFor, Wrap64;
    var order := Order(raws, |raws|);
    forall k | 0 <= k < |order|
      ensures SumFor(raws, |raws|, order[k]) >= 1
    {
      SumForIsPositive(raws, |raws|, order[k]);
      CountedInOrder(raws, |raws|, order[k]);
    }
    SumsCoverTheRequest(raws, |raws|);
    WidenedTotal(raws, order);
  }

  lemma SameIsNoOverflow(raws: seq<RawItem>, items: seq<CartItem>)
    requires Merged(raws, items)
    requires forall k :: 0 <= k < |items| ==> items[k].quantity == Widened(raws, Order(raws, |raws|))[k].quantity
    ensures NoOverflow(raws)
  {
    hide SumFor, Order, NoOverflow, Wrap64;
    OverflowById(raws);
  }

  /** From the request on: what a request asks for, summed over its items before
      any merging, is what the cart grows by, exactly when no merged sum overflows, no
      two items are matched to one line and no line overflows. Where a merged sum
      overflows that takes a cart without negative quantities. */
  lemma RequestReachesTheCart(raws: seq<RawItem>, items: seq<CartItem>, lines: seq<Line>, now: seq<Line>)
    requires Merged(raws, items) && LinesAfter(lines, items, |items|, now)
    requires forall l :: 0 <= l < |lines| ==> MIN_INT64 <= lines[l].quantity <= MAX_INT64
    requires NoOverflow(raws) || forall l :: 0 <= l < |lines| ==> 0 <= lines[l].quantity
    ensures var growth := TotalLines(now + Added(NewItems(lines, items, |items|))) - TotalLines(lines);
      growth == TotalWanted(raws, |raws|) <==>
      NoOverflow(raws) && NoSharedLine(lines, items) && NoLineOverflow(lines, items)
  {
    hide LinesAfter, NoSharedLine, NoLineOverflow, TotalLines, TotalQuantity, NewItems, ItemFor, NoOverflow;
    hide TotalWanted, FirstProblem, Order, Narrowed;
    if NoOverflow(raws) {
      MergingConserves(raws, items);
      CartConservation(lines, items, now);
    } else {
      MergedNarrowed(raws, items);
      NarrowedFallsShort(lines, items, Widened(raws, Order(raws, |raws|)), now);
      if TotalLines(now + Added(NewItems(lines, items, |items|))) - TotalLines(lines) == TotalWanted(raws, |raws|) {
        SameIsNoOverflow(raws, items);
        assert false;
      }
    }
  }

  /** A line that no input is matched to is left as it is. */
  lemma UnmatchedLineStays(lines: seq<Line>, inputs: seq<CartItem>, now: seq<Line>, l: nat)
    requires LinesAfter(lines, inputs, |inputs|, now) && l < |lines|
    requires forall i :: 0 <= i < |inputs| ==> !Asks(lines, inputs, i, l)
    ensures now[l] == lines[l]
  {
    hide Match, LastFor, Asks;
    NoneAsks(lines, inputs, |inputs|, l);
  }

  /** The quantity reported for an input that is matched to a line is the one
      the line ends up with, unless a later input is matched to it too. */
  lemma ResultsAreTheLastWord(lines: seq<Line>, inputs: seq<CartItem>, now: seq<Line>, l: nat, k: nat)
    requires LinesAfter(lines, inputs, |inputs|, now) && l < |lines|
    requires Asks(lines, inputs, k, l) && forall j :: k < j < |inputs| ==> !Asks(lines, inputs, j, l)
    ensures ResultFor(lines, inputs[k]) == ItemResult(inputs[k].id, now[l].quantity)
  {
    hide Match, LastFor;
    LastAsks(lines, inputs, |inputs|, l, k);
  }

  /** Every line ends as it began but for the quantity, which is the old one raised by the
      last input matched to it. */
  lemma LinesAreRaised(lines: seq<Line>, inputs: seq<CartItem>, now: seq<Line>, l: nat, k: nat)
    requires LinesAfter(lines, inputs, |inputs|, now) && l < |lines|
    requires Asks(lines, inputs, k, l) && forall j :: k < j < |inputs| ==> !Asks(lines, inputs, j, l)
    ensures now[l] == lines[l].(quantity := Wrap64(lines[l].quantity + inputs[k].quantity))
  {
    LastAsks(lines, inputs, |inputs|, l, k);
  }

  function Unmatched(lines: seq<Line>, inputs: seq<CartItem>): set<nat> {
    set i: nat | i < |inputs| && forall l :: 0 <= l < |lines| ==> !Matches(lines[l], inputs[i].id)
  }

  /** One line is added for each input that no line matches, in order, with the input's id
      and quantity, which is also what is reported for it. */
  lemma {:induction false} AdditionsInOrder(lines: seq<Line>, inputs: seq<CartItem>) returns (at: seq<nat>)
    ensures Lists(at, |inputs|, Unmatched(lines, inputs))
    ensures var added := Added(NewItems(lines, inputs, |inputs|));
      && |added| == |at|
      && forall k :: 0 <= k < |at| ==>
           && added[k].id == inputs[at[k]].id && added[k].quantity == inputs[at[k]].quantity
           && ResultFor(lines, inputs[at[k]]) == ItemResult(inputs[at[k]].id, inputs[at[k]].quantity)
  {
    hide Matches, Wrap64;
    if inputs == [] {
      return [];
    }
    var n := |inputs| - 1;
    at := AdditionsInOrder(lines, inputs[..n]);
    NewOfPrefix(lines, inputs, n, n);
    ListsNext(at, n, Unmatched(lines, inputs[..n]));
    var alone := Match(lines, inputs[n].id).None?;
    assert alone <==> forall l :: 0 <= l < |lines| ==> !Matches(lines[l], inputs[n].id);
    assert Unmatched(lines, inputs) == Unmatched(lines, inputs[..n]) + if alone then {n} else {};
    if alone {
      at := at + [n];
    }
  }

  lemma {:induction false} NewOfPrefix(lines: seq<Line>, inputs: seq<CartItem>, m: nat, n: nat)
    requires n <= m <= |inputs|
    ensures NewItems(lines, inputs[..m], n) == NewItems(lines, inputs, n)
  {
    if n > 0 {
      NewOfPrefix(lines, inputs, m, n - 1);
    }
  }

  lemma {:induction false} NoneAsks(lines: seq<Line>, inputs: seq<CartItem>, n: nat, l: nat)
    requires n <= |inputs|
    ensures (forall i :: 0 <= i < n ==> !Asks(lines, inputs, i, l)) ==> LastFor(lines, inputs, n, l).None?
  {
    hide Match;
    if n > 0 && forall i :: 0 <= i < n ==> !Asks(lines, inputs, i, l) {
      NoneAsks(lines, inputs, n - 1, l);
      assert !Asks(lines, inputs, n - 1, l);
    }
  }

  lemma {:induction false} LastAsks(lines: seq<Line>, inputs: seq<CartItem>, n: nat, l: nat, k: nat)
    requires k < n <= |inputs| && Asks(lines, inputs, k, l)
    requires forall j :: k < j < n ==> !Asks(lines, inputs, j, l)
    ensures LastFor(lines, inputs, n, l) == Some(inputs[k].quantity)
  {
    hide Match;
    if k < n - 1 {
      assert !Asks(lines, inputs, n - 1, l);
      LastAsks(lines, inputs, n - 1, l, k);
    }
  }

  /** Inputs whose ids differ only after a '#' always share a line, so merging
      by id does not keep them apart. */
  lemma VariantsShareALine(lines: seq<Line>, id: string, variant: string)
    requires id != "" && '#' !in id
    ensures Match(lines, id + "#" + variant) == Match(lines, id)
  {
    var other := id + "#" + variant;
    assert other[..|id|] == id && other[|id|] == '#';
    assert forall i :: 0 <= i < |id| ==> other[i] == id[i];
    assert Index(other, '#') == |id|;
    assert NormalizeCartItemID(other) == id && NormalizeCartItemID(id) == id;
    forall l: nat | l < |lines| ensures Matches(lines[l], other) <==> Matches(lines[l], id) {
      SameMatches(lines[l], other, id);
    }
    SameFirst(lines, other, id, 0);
  }

  lemma SameMatches(line: Line, a: string, b: string)
    requires NormalizeCartItemID(a) == NormalizeCartItemID(b)
    ensures Matches(line, a) <==> Matches(line, b)
  {
    forall i | 0 <= i < |Candidates(line)| ensures Agrees(Candidates(line)[i], a) <==> Agrees(Candidates(line)[i], b) {
    }
  }

  lemma {:induction false} SameFirst(lines: seq<Line>, a: string, b: string, i: nat)
    requires i <= |lines| && forall l :: 0 <= l < |lines| ==> (Matches(lines[l], a) <==> Matches(lines[l], b))
    ensures MatchFrom(lines, a, i) == MatchFrom(lines, b, i)
    decreases |lines| - i
  {
    hide Matches;
    if i < |lines| {
      SameFirst(lines, a, b, i + 1);
    }
  }
}
