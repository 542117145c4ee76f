/** Putting items into a VTEX order form: items already in the cart are
    increased, the others added. */
module CartUpdate {
  import opened Cluster
  import opened GoStrings
  import opened CartRequest

  /** A line of the order form; an added line has no product or reference id
      that we know of. */
  datatype Line = Line(id: string, productId: string, refId: Option<string>, quantity: int)

  datatype Update = Update(index: nat, quantity: int)

  datatype ItemResult = ItemResult(id: string, quantity: int)

  // ----- Matching -----

  function NormalizeCartItemID(id: string): string {
    var i := Index(id, '#');
    if i > 0 then id[..i] else id
  }

  function Candidates(line: Line): seq<string> {
    [line.id, line.productId] + if line.refId.Some? then [line.refId.value] else []
  }

  predicate Agrees(candidate: string, id: string) {
    candidate != "" && (candidate == id || NormalizeCartItemID(candidate) == NormalizeCartItemID(id))
  }

  predicate Matches(line: Line, id: string) {
    exists i :: 0 <= i < |Candidates(line)| && Agrees(Candidates(line)[i], id)
  }

  method OrderFormItemMatchesInput(line: Line, id: string) returns (yes: bool)
    ensures yes == Matches(line, id)
  {
    var candidates := [line.id, line.productId];
    if line.refId.Some? {
      candidates := candidates + [line.refId.value];
    }
    for i := 0 to |candidates|
      invariant candidates == Candidates(line)
      invariant forall j :: 0 <= j < i ==> !Agrees(candidates[j], id)
    {
      if candidates[i] == "" {
        continue;
      }
      if candidates[i] == id || NormalizeCartItemID(candidates[i]) == NormalizeCartItemID(id) {
        assert Agrees(Candidates(line)[i], id);
        return true;
      }
    }
    yes := false;
  }

  /** An id that goes on after a '#' is cut off there, unless nothing comes before it. */
  lemma VariantsAreCut(base: string, variant: string)
    requires '#' !in base
    ensures NormalizeCartItemID(base) == base
    ensures NormalizeCartItemID(base + "#" + variant) == if base == "" then "#" + variant else base
  {
    var id := base + "#" + variant;
    assert id[|base|] == '#';
    var i := Index(id, '#');
    assert forall k :: 0 <= k < |base| ==> id[k] == base[k];
    assert forall k :: 0 <= k < i ==> id[..i][k] == id[k];
  }

  /** A line matches by its own id, its product id or its reference id, whichever is not
      empty and names the same item. */
  lemma MatchesExactly(line: Line, id: string)
    ensures Matches(line, id) <==>
      || Agrees(line.id, id) || Agrees(line.productId, id) || (line.refId.Some? && Agrees(line.refId.value, id))
  {
    var cs := Candidates(line);
    assert cs[0] == line.id && cs[1] == line.productId;
    if line.refId.Some? {
      assert cs[2] == line.refId.value;
    }
  }

  /** The first line from i on that matches. */
  function MatchFrom(lines: seq<Line>, id: string, i: nat): (r: Option<nat>)
    requires i <= |lines|
    ensures r.Some? ==> i <= r.value < |lines| && Matches(lines[r.value], id)
    ensures forall j :: i <= j < (if r.Some? then r.value else |lines|) ==> !Matches(lines[j], id)
    decreases |lines| - i
  {
    if i == |lines| then None else if Matches(lines[i], id) then Some(i) else MatchFrom(lines, id, i + 1)
  }

  function Match(lines: seq<Line>, id: string): Option<nat> {
    MatchFrom(lines, id, 0)
  }

  lemma MatchIsFirst(lines: seq<Line>, id: string, i: nat)
    requires i < |lines| && Matches(lines[i], id) && forall j :: 0 <= j < i ==> !Matches(lines[j], id)
    ensures Match(lines, id) == Some(i)
  {
  }

  method FindOrderFormItem(lines: seq<Line>, id: string) returns (index: nat, found: bool)
    ensures found <==> exists l :: 0 <= l < |lines| && Matches(lines[l], id)
    ensures found ==> index < |lines| && Match(lines, id) == Some(index)
    ensures !found ==> Match(lines, id) == None
  {
    for i := 0 to |lines|
      invariant forall j :: 0 <= j < i ==> !Matches(lines[j], id)
    {
      var yes := OrderFormItemMatchesInput(lines[i], id);
      if yes {
        MatchIsFirst(lines, id, i);
        return i, true;
      }
    }
    index, found := 0, false;
  }

  // ----- What the cart comes to -----

  /** Set the quantities of the listed lines, one after the other. */
  function Updated(lines: seq<Line>, us: seq<Update>): (r: seq<Line>)
    requires forall i :: 0 <= i < |us| ==> us[i].index < |lines|
    ensures |r| == |lines|
  {
    if us == [] then lines
    else
      var r := Updated(lines, us[..|us| - 1]);
      var u := us[|us| - 1];
      r[u.index := r[u.index].(quantity := u.quantity)]
  }

  function Added(adds: seq<CartItem>): (r: seq<Line>)
    ensures |r| == |adds|
  {
    seq(|adds|, i requires 0 <= i < |adds| => Line(adds[i].id, "", None, adds[i].quantity))
  }

  /** The last of the first n inputs that matches line l. */
  function LastFor(lines: seq<Line>, inputs: seq<CartItem>, n: nat, l: nat): Option<int>
    requires n <= |inputs|
  {
    if n == 0 then None
    else if Match(lines, inputs[n - 1].id) == Some(l) then Some(inputs[n - 1].quantity)
    else LastFor(lines, inputs, n - 1, l)
  }

  /** Line l's quantity after the first n inputs. */
  function QuantityAfter(lines: seq<Line>, inputs: seq<CartItem>, n: nat, l: nat): int
    requires n <= |inputs| && l < |lines|
  {
    var last := LastFor(lines, inputs, n, l);
    if last.Some? then Wrap64(lines[l].quantity + last.value) else lines[l].quantity
  }

  /** The inputs among the first n that match no line. */
  function NewItems(lines: seq<Line>, inputs: seq<CartItem>, n: nat): seq<CartItem>
    requires n <= |inputs|
  {
    if n == 0 then []
    else
      var rest := NewItems(lines, inputs, n - 1);
      if Match(lines, inputs[n - 1].id).None? then rest + [inputs[n - 1]] else rest
  }

  function ResultFor(lines: seq<Line>, input: CartItem): ItemResult {
    var at := Match(lines, input.id);
    ItemResult(input.id, if at.Some? then Wrap64(lines[at.value].quantity + input.quantity) else input.quantity)
  }

  ghost predicate LinesAfter(lines: seq<Line>, inputs: seq<CartItem>, n: nat, now: seq<Line>)
    requires n <= |inputs|
  {
    && |now| == |lines|
    && forall l :: 0 <= l < |lines| ==> now[l] == lines[l].(quantity := QuantityAfter(lines, inputs, n, l))
  }

  // ----- The client -----

  /** The order form kept by VTEX. */
  class OrderForm {
    var lines: seq<Line>

    constructor (lines: seq<Line>)
      ensures this.lines == lines
    {
      this.lines := lines;
    }

    method UpdateItems(us: seq<Update>, up: bool) returns (ok: bool)
      requires forall i :: 0 <= i < |us| ==> us[i].index < |lines|
      modifies this
      ensures ok == (us == [] || up)
      ensures lines == if up then Updated(old(lines), us) else old(lines)
    {
      ok := |us| == 0 || up;
      if up {
        ghost var before := lines;
        for i := 0 to |us|
          invariant |lines| == |before|
          invariant lines == Updated(before, us[..i])
        {
          assert us[..i + 1][..i] == us[..i];
          lines := lines[us[i].index := lines[us[i].index].(quantity := us[i].quantity)];
        }
        assert us[..|us|] == us;
      }
    }

    method AddItems(adds: seq<CartItem>, up: bool) returns (ok: bool)
      modifies this
      ensures ok == (adds == [] || up)
      ensures lines == if up then old(lines) + Added(adds) else old(lines)
    {
      ok := |adds| == 0 || up;
      if up {
        lines := lines + Added(adds);
      }
    }
  }

  lemma LinesStep(lines: seq<Line>, inputs: seq<CartItem>, n: nat, now: seq<Line>)
    requires n < |inputs| && LinesAfter(lines, inputs, n, now)
    ensures var at := Match(lines, inputs[n].id);
      LinesAfter(lines, inputs, n + 1,
        if at.Some?
        then now[at.value := now[at.value].(quantity := Wrap64(lines[at.value].quantity + inputs[n].quantity))]
        else now)
  {
  }

  lemma NothingUpdated(lines: seq<Line>, inputs: seq<CartItem>)
    ensures LinesAfter(lines, inputs, 0, Updated(lines, []))
  {
  }

  lemma UpdatedSnoc(lines: seq<Line>, us: seq<Update>, u: Update)
    requires u.index < |lines| && forall i :: 0 <= i < |us| ==> us[i].index < |lines|
    ensures var r := Updated(lines, us);
      Updated(lines, us + [u]) == r[u.index := r[u.index].(quantity := u.quantity)]
  {
    assert (us + [u])[..|us|] == us;
  }

  method PlanItems(lines: seq<Line>, inputs: seq<CartItem>)
    returns (toUpdate: seq<Update>, toAdd: seq<CartItem>, results: seq<ItemResult>)
    ensures forall i :: 0 <= i < |toUpdate| ==> toUpdate[i].index < |lines|
    ensures LinesAfter(lines, inputs, |inputs|, Updated(lines, toUpdate))
    ensures toAdd == NewItems(lines, inputs, |inputs|)
    ensures |toUpdate| + |toAdd| == |inputs|
    ensures |results| == |inputs| && forall k :: 0 <= k < |inputs| ==> results[k] == ResultFor(lines, inputs[k])
  {
    hide Match, Updated, LinesAfter, Wrap64;
    toUpdate, toAdd, results := [], [], [];
    NothingUpdated(lines, inputs);
    for n := 0 to |inputs|
      invariant forall i :: 0 <= i < |toUpdate| ==> toUpdate[i].index < |lines|
      invariant LinesAfter(lines, inputs, n, Updated(lines, toUpdate))
      invariant toAdd == NewItems(lines, inputs, n) && |toUpdate| + |toAdd| == n
      invariant |results| == n && forall k :: 0 <= k < n ==> results[k] == ResultFor(lines, inputs[k])
    {
      var input := inputs[n];
      LinesStep(lines, inputs, n, Updated(lines, toUpdate));
      var index, found := FindOrderFormItem(lines, input.id);
      if found {
        var newQuantity := Wrap64(lines[index].quantity + input.quantity);
        UpdatedSnoc(lines, toUpdate, Update(index, newQuantity));
        toUpdate := toUpdate + [Update(index, newQuantity)];
        results := results + [ItemResult(input.id, newQuantity)];
        continue;
      }
      toAdd := toAdd + [input];
      results := results + [ItemResult(input.id, input.quantity)];
    }
  }

  /** AddOrUpdateCartItems, for an account and an order form id that pass the
      slug check or not; `get`, `update` and `add` say which of the three HTTP
      calls succeed. When only the last one fails the updates stay made. */
  method AddOrUpdateCartItems(form: OrderForm, inputs: seq<CartItem>, slugs: bool, get: bool, update: bool, add: bool)
    returns (results: Option<seq<ItemResult>>)
    modifies form
    ensures inputs == [] ==> results == Some([]) && form.lines == old(form.lines)
    ensures inputs != [] && !(slugs && get) ==> results == None && form.lines == old(form.lines)
    ensures inputs != [] && slugs && get ==>
      var before, additions := old(form.lines), NewItems(old(form.lines), inputs, |inputs|);
      if update || |additions| == |inputs| then
        && |form.lines| >= |before|
        && LinesAfter(before, inputs, |inputs|, form.lines[..|before|])
        && form.lines[|before|..] == (if add then Added(additions) else [])
        && results.Some? == (add || additions == [])
      else
        form.lines == before && results == None
    ensures results.Some? && inputs != [] ==>
      && |results.value| == |inputs|
      && forall k :: 0 <= k < |inputs| ==> results.value[k] == ResultFor(old(form.lines), inputs[k])
  {
    if |inputs| == 0 {
      return Some([]);
    }
    if !slugs || !get {
      return None;
    }
    var toUpdate, toAdd, planned := PlanItems(form.lines, inputs);
    var ok := form.UpdateItems(toUpdate, update);
    if !ok {
      return None;
    }
    ok := form.AddItems(toAdd, add);
    if !ok {
      return None;
    }
    results := Some(planned);
  }
}
