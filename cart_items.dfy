/**
 * The list of cart lines shared by the Zustand cart store
 * (lib/store/cart-store.ts) and the React-context cart
 * (components/cart/cart-context.tsx).  Both files declare the same
 * `CartItem` record and compute each new list with the same `find`, `map`
 * and `filter` expressions, so those expressions are defined here once;
 * the two stores differ only in the flags they keep beside the list.
 */
module CartItems {
  import W = Wrappers
  import M = CartModel

  /** One cart line; `total` is the unit price in cents, `image` is optional. */
  datatype CartItem = CartItem(id: string, customer: string, status: string, total: int, image: W.Option<string>, quantity: int)

  /** What a caller hands to addItem: a line without its quantity. */
  datatype NewItem = NewItem(id: string, customer: string, status: string, total: int, image: W.Option<string>)

  /** The line appended for a first addition: the candidate with quantity 1. */
  function Fresh(n: NewItem): (r: CartItem)
    ensures r.id == n.id && r.total == n.total && r.quantity == 1
  {
    CartItem(n.id, n.customer, n.status, n.total, n.image, 1)
  }

  /** A line with its quantity raised by one, the merge addItem writes. */
  function Bumped(c: CartItem): (r: CartItem)
    ensures r.id == c.id && r.total == c.total && r.quantity == c.quantity + 1
  {
    c.(quantity := c.quantity + 1)
  }

  /** The ids of the lines, in display order. */
  function Ids(items: seq<CartItem>): (r: seq<string>)
    ensures |r| == |items|
    ensures forall i :: 0 <= i < |items| ==> r[i] == items[i].id
  {
    if items == [] then [] else [items[0].id] + Ids(items[1..])
  }

  predicate HasId(items: seq<CartItem>, id: string) {
    id in Ids(items)
  }

  predicate UniqueIds(items: seq<CartItem>) {
    forall i, j :: 0 <= i < j < |items| ==> items[i].id != items[j].id
  }

  predicate AllPositive(items: seq<CartItem>) {
    forall i :: 0 <= i < |items| ==> items[i].quantity >= 1
  }

  /** The invariant both stores keep: no two lines share an id, every quantity is at least 1. */
  predicate Valid(items: seq<CartItem>) {
    UniqueIds(items) && AllPositive(items)
  }

  // ---------------------------------------------------------------------
  // The list expressions

  /** `items.find(item => item.id === id)`, as the index of the first match. */
  method FindIndex(items: seq<CartItem>, id: string) returns (found: W.Option<nat>)
    ensures found.None? <==> !HasId(items, id)
    ensures found.Some? ==> found.value < |items| && items[found.value].id == id
    ensures found.Some? ==> forall j :: 0 <= j < found.value ==> items[j].id != id
  {
    var i := 0;
    while i < |items|
      invariant 0 <= i <= |items|
      invariant forall j :: 0 <= j < i ==> items[j].id != id
    {
      if items[i].id == id {
        return W.Some(i);
      }
      i := i + 1;
    }
    return W.None;
  }

  /** The merge branch of addItem: every line with `id` gains one unit. */
  function Incremented(items: seq<CartItem>, id: string): (r: seq<CartItem>)
    ensures |r| == |items|
    ensures Ids(r) == Ids(items)
  {
    if items == [] then []
    else
      var head := if items[0].id == id then items[0].(quantity := items[0].quantity + 1) else items[0];
      [head] + Incremented(items[1..], id)
  }

  /** removeItem: `items.filter(item => item.id !== id)`. */
  function Without(items: seq<CartItem>, id: string): (r: seq<CartItem>)
    ensures |r| <= |items|
    ensures forall i :: 0 <= i < |r| ==> r[i].id != id
  {
    if items == [] then []
    else if items[0].id == id then Without(items[1..], id)
    else [items[0]] + Without(items[1..], id)
  }

  /** The q >= 1 branch of updateQuantity: every line with `id` gets quantity q. */
  function WithQuantity(items: seq<CartItem>, id: string, q: int): (r: seq<CartItem>)
    ensures |r| == |items|
    ensures Ids(r) == Ids(items)
  {
    if items == [] then []
    else
      var head := if items[0].id == id then items[0].(quantity := q) else items[0];
      [head] + WithQuantity(items[1..], id, q)
  }

  /** The list addItem leaves: merged into an existing line, or the new line appended. */
  function Added(items: seq<CartItem>, n: NewItem): (r: seq<CartItem>)
    ensures Ids(r) == if HasId(items, n.id) then Ids(items) else Ids(items) + [n.id]
  {
    if HasId(items, n.id) then Incremented(items, n.id) else items + [Fresh(n)]
  }

  /** The list updateQuantity leaves: a quantity below 1 removes the line. */
  function Updated(items: seq<CartItem>, id: string, q: int): (r: seq<CartItem>)
    ensures q >= 1 ==> Ids(r) == Ids(items)
    ensures q < 1 ==> !HasId(r, id) && |r| <= |items|
  {
    if q < 1 then Without(items, id) else WithQuantity(items, id, q)
  }

  /** `items.reduce((sum, item) => sum + item.quantity, 0)`. */
  function TotalItems(items: seq<CartItem>): int {
    if items == [] then 0 else items[0].quantity + TotalItems(items[1..])
  }

  /** `items.reduce((sum, item) => sum + item.total * item.quantity, 0)`. */
  function Subtotal(items: seq<CartItem>): int {
    if items == [] then 0 else items[0].total * items[0].quantity + Subtotal(items[1..])
  }

  /** Every line contributes at least one unit to the item count. */
  lemma {:induction false} TotalItemsBound(items: seq<CartItem>)
    requires AllPositive(items)
    ensures TotalItems(items) >= |items|
  {
    if items != [] {
      TotalItemsBound(items[1..]);
    }
  }

  /** With no negative price and no negative quantity, the subtotal is not negative. */
  lemma {:induction false} SubtotalNonNegative(items: seq<CartItem>)
    requires forall i :: 0 <= i < |items| ==> items[i].total >= 0 && items[i].quantity >= 0
    ensures Subtotal(items) >= 0
  {
    if items != [] {
      assert items[0].total * items[0].quantity >= 0;
      SubtotalNonNegative(items[1..]);
    }
  }

  // ---------------------------------------------------------------------
  // Operations as data, for reasoning about sequences of calls

  datatype Op = AddOp(item: NewItem) | RemoveOp(id: string) | UpdateOp(id: string, quantity: int) | ClearOp | SetOpenOp(open: bool)

  /** The list after one call; setIsOpen leaves it alone. */
  function Apply(items: seq<CartItem>, op: Op): seq<CartItem> {
    match op
    case AddOp(n) => Added(items, n)
    case RemoveOp(id) => Without(items, id)
    case UpdateOp(id, q) => Updated(items, id, q)
    case ClearOp => []
    case SetOpenOp(_) => items
  }

  function Run(items: seq<CartItem>, ops: seq<Op>): seq<CartItem>
    decreases |ops|
  {
    if ops == [] then items else Run(Apply(items, ops[0]), ops[1..])
  }

  /** One call as the reference model sees it; setIsOpen does not touch the lines. */
  function AbstractStep(op: Op): seq<M.Op> {
    match op
    case AddOp(n) => [M.AddOp(n.id, n.total)]
    case RemoveOp(id) => [M.RemoveOp(id)]
    case UpdateOp(id, q) => [M.UpdateOp(id, q)]
    case ClearOp => [M.ClearOp]
    case SetOpenOp(_) => []
  }

  function Abstract(ops: seq<Op>): seq<M.Op>
    decreases |ops|
  {
    if ops == [] then [] else AbstractStep(ops[0]) + Abstract(ops[1..])
  }

  // ---------------------------------------------------------------------
  // The abstract view of a list

  function Entry(x: CartItem): M.Line { M.Line(x.total, x.quantity) }

  /** Each id's line; with duplicate ids the first line would win. */
  function Lines(items: seq<CartItem>): map<string, M.Line> {
    if items == [] then map[] else Lines(items[1..])[items[0].id := Entry(items[0])]
  }

  /** The view has a line for exactly the ids in the list. */
  lemma {:induction false} LinesKeys(items: seq<CartItem>)
    ensures forall id :: id in Lines(items) <==> id in Ids(items)
  {
    if items != [] {
      assert Ids(items) == [items[0].id] + Ids(items[1..]);
      LinesKeys(items[1..]);
    }
  }

  function View(items: seq<CartItem>): M.Snapshot {
    M.Snapshot(Ids(items), Lines(items))
  }

  // ---------------------------------------------------------------------
  // Unfolding helpers

  lemma {:induction false} IdsCons(x: CartItem, t: seq<CartItem>)
    ensures Ids([x] + t) == [x.id] + Ids(t)
  {
    assert ([x] + t)[1..] == t;
  }

  lemma {:induction false} LinesCons(x: CartItem, t: seq<CartItem>)
    ensures Lines([x] + t) == Lines(t)[x.id := Entry(x)]
  {
    assert ([x] + t)[1..] == t;
  }

  lemma {:induction false} UniqueTail(items: seq<CartItem>)
    requires |items| > 0 && UniqueIds(items)
    ensures UniqueIds(items[1..]) && !HasId(items[1..], items[0].id)
  {
    forall i | 0 <= i < |items[1..]| ensures Ids(items[1..])[i] != items[0].id {
      assert items[1..][i] == items[i + 1];
    }
  }

  lemma {:induction false} TotalsConcat(a: seq<CartItem>, b: seq<CartItem>)
    ensures TotalItems(a + b) == TotalItems(a) + TotalItems(b)
    ensures Subtotal(a + b) == Subtotal(a) + Subtotal(b)
  {
    if a == [] {
      assert a + b == b;
    } else {
      assert (a + b)[0] == a[0] && (a + b)[1..] == a[1..] + b;
      TotalsConcat(a[1..], b);
    }
  }

  /** Replacing the line at index k changes the totals by the difference of the two lines. */
  lemma {:induction false} TotalsAt(items: seq<CartItem>, k: int, y: CartItem)
    requires 0 <= k < |items|
    ensures TotalItems(items[k := y]) == TotalItems(items) - items[k].quantity + y.quantity
    ensures Subtotal(items[k := y]) == Subtotal(items) - items[k].total * items[k].quantity + y.total * y.quantity
  {
    assert items == items[..k] + [items[k]] + items[k + 1..];
    assert items[k := y] == items[..k] + [y] + items[k + 1..];
    TotalsConcat(items[..k] + [items[k]], items[k + 1..]);
    TotalsConcat(items[..k], [items[k]]);
    TotalsConcat(items[..k] + [y], items[k + 1..]);
    TotalsConcat(items[..k], [y]);
  }

  // ---------------------------------------------------------------------
  // What each list expression does

  /** filter keeps exactly the lines whose id differs. */
  lemma {:induction false} WithoutMembers(items: seq<CartItem>, id: string)
    ensures forall x :: x in Without(items, id) <==> x in items && x.id != id
  {
    if items != [] {
      WithoutMembers(items[1..], id);
      assert forall x :: x in items <==> x == items[0] || x in items[1..];
    }
  }

  /** filter distributes over concatenation, so the kept lines stay in their order. */
  lemma {:induction false} WithoutConcat(a: seq<CartItem>, b: seq<CartItem>, id: string)
    ensures Without(a + b, id) == Without(a, id) + Without(b, id)
  {
    if a == [] {
      assert a + b == b;
    } else {
      assert (a + b)[0] == a[0] && (a + b)[1..] == a[1..] + b;
      WithoutConcat(a[1..], b, id);
    }
  }

  /** removeItem on an id that is absent leaves the list as it was. */
  lemma {:induction false} WithoutAbsent(items: seq<CartItem>, id: string)
    requires !HasId(items, id)
    ensures Without(items, id) == items
  {
    if items != [] {
      assert Ids(items)[0] == items[0].id;
      assert Ids(items)[1..] == Ids(items[1..]);
      WithoutAbsent(items[1..], id);
    }
  }

  lemma {:induction false} WithoutValid(items: seq<CartItem>, id: string)
    requires Valid(items)
    ensures Valid(Without(items, id))
  {
    if items != [] {
      var t := Without(items[1..], id);
      WithoutValid(items[1..], id);
      WithoutMembers(items[1..], id);
      if items[0].id != id {
        forall i | 0 <= i < |t| ensures t[i].id != items[0].id {
          assert t[i] in items[1..];
        }
        var r := [items[0]] + t;
        forall i, j | 0 <= i < j < |r| ensures r[i].id != r[j].id {
          if i > 0 { assert r[i] == t[i - 1]; }
          assert r[j] == t[j - 1];
        }
      }
    }
  }

  /** The map of the merge branch, line by line: the lines with `id` gain one unit, the others are kept. */
  lemma {:induction false} IncrementedLines(items: seq<CartItem>, id: string)
    ensures forall i :: 0 <= i < |items| ==>
      Incremented(items, id)[i] == if items[i].id == id then items[i].(quantity := items[i].quantity + 1) else items[i]
  {
    if items != [] {
      IncrementedLines(items[1..], id);
      forall i | 0 < i < |items| ensures items[1..][i - 1] == items[i] { }
    }
  }

  /** The map of updateQuantity, line by line: the lines with `id` get quantity q, the others are kept. */
  lemma {:induction false} WithQuantityLines(items: seq<CartItem>, id: string, q: int)
    ensures forall i :: 0 <= i < |items| ==>
      WithQuantity(items, id, q)[i] == if items[i].id == id then items[i].(quantity := q) else items[i]
  {
    if items != [] {
      WithQuantityLines(items[1..], id, q);
      forall i | 0 < i < |items| ensures items[1..][i - 1] == items[i] { }
    }
  }

  /** With unique ids, Incremented touches exactly the line at index k. */
  lemma {:induction false} IncrementedAt(items: seq<CartItem>, k: int)
    requires UniqueIds(items) && 0 <= k < |items|
    ensures Incremented(items, items[k].id) == items[k := Bumped(items[k])]
  {
    var y := Bumped(items[k]);
    IncrementedLines(items, items[k].id);
    forall i | 0 <= i < |items| ensures Incremented(items, items[k].id)[i] == items[k := y][i] {
      if i != k {
        assert i < k ==> items[i].id != items[k].id;
        assert i > k ==> items[k].id != items[i].id;
      }
    }
  }

  /** With unique ids, WithQuantity touches exactly the line at index k. */
  lemma {:induction false} WithQuantityAt(items: seq<CartItem>, k: int, q: int)
    requires UniqueIds(items) && 0 <= k < |items|
    ensures WithQuantity(items, items[k].id, q) == items[k := items[k].(quantity := q)]
  {
    var y := items[k].(quantity := q);
    WithQuantityLines(items, items[k].id, q);
    forall i | 0 <= i < |items| ensures WithQuantity(items, items[k].id, q)[i] == items[k := y][i] {
      if i != k {
        assert i < k ==> items[i].id != items[k].id;
        assert i > k ==> items[k].id != items[i].id;
      }
    }
  }

  /** An id that is absent is not touched by the map either. */
  lemma {:induction false} WithQuantityAbsent(items: seq<CartItem>, id: string, q: int)
    requires !HasId(items, id)
    ensures WithQuantity(items, id, q) == items
  {
    forall i | 0 <= i < |items| ensures items[i].id != id {
      assert Ids(items)[i] == items[i].id;
    }
    WithQuantityLines(items, id, q);
  }

  /** An id that is present is at some index. */
  lemma {:induction false} HasIdAt(items: seq<CartItem>, id: string) returns (k: int)
    requires HasId(items, id)
    ensures 0 <= k < |items| && items[k].id == id
  {
    var ids := Ids(items);
    k :| 0 <= k < |ids| && ids[k] == id;
  }

  // ---------------------------------------------------------------------
  // The properties of the four operations

  /** The list part of a merge-add: the id is present and only line k is bumped. */
  lemma {:induction false} AddedAt(items: seq<CartItem>, n: NewItem, k: int)
    requires UniqueIds(items) && 0 <= k < |items| && items[k].id == n.id
    ensures HasId(items, n.id)
    ensures Added(items, n) == items[k := Bumped(items[k])]
  {
    assert Ids(items)[k] == n.id;
    IncrementedAt(items, k);
  }

  /**
   * addItem on an id already at index k raises that line's quantity by
   * exactly 1 and touches nothing else; the totals grow by 1 and by the
   * line's unit price.
   */
  lemma {:induction false} AddMerges(items: seq<CartItem>, n: NewItem, k: int)
    requires UniqueIds(items) && 0 <= k < |items| && items[k].id == n.id
    ensures Added(items, n) == items[k := Bumped(items[k])]
    ensures TotalItems(Added(items, n)) == TotalItems(items) + 1
    ensures Subtotal(Added(items, n)) == Subtotal(items) + items[k].total
  {
    var y := Bumped(items[k]);
    assert Ids(items)[k] == n.id;
    IncrementedAt(items, k);
    IncrementTotals(items, k, y, Added(items, n));
  }

  lemma {:induction false} IncrementTotals(items: seq<CartItem>, k: int, y: CartItem, r: seq<CartItem>)
    requires 0 <= k < |items| && y == Bumped(items[k]) && r == items[k := y]
    ensures TotalItems(r) == TotalItems(items) + 1
    ensures Subtotal(r) == Subtotal(items) + items[k].total
  {
    TotalsAt(items, k, y);
    M.MulSucc(items[k].total, items[k].quantity);
  }

  /** addItem on a new id appends exactly one line with quantity 1; totals grow by 1 and by its price. */
  lemma {:induction false} AddAppends(items: seq<CartItem>, n: NewItem)
    requires !HasId(items, n.id)
    ensures Added(items, n) == items + [Fresh(n)]
    ensures TotalItems(Added(items, n)) == TotalItems(items) + 1
    ensures Subtotal(Added(items, n)) == Subtotal(items) + n.total
  {
    TotalsConcat(items, [Fresh(n)]);
  }

  /** removeItem on the id at index k drops exactly that line, keeps the rest in order, and takes its amount out of the totals. */
  lemma {:induction false} RemoveAt(items: seq<CartItem>, k: int)
    requires UniqueIds(items) && 0 <= k < |items|
    ensures Without(items, items[k].id) == items[..k] + items[k + 1..]
    ensures TotalItems(Without(items, items[k].id)) == TotalItems(items) - items[k].quantity
    ensures Subtotal(Without(items, items[k].id)) == Subtotal(items) - items[k].total * items[k].quantity
  {
    var id := items[k].id;
    var a, b := items[..k], items[k + 1..];
    assert items == a + [items[k]] + b;
    forall i | 0 <= i < |a| ensures Ids(a)[i] != id {
      assert a[i] == items[i];
    }
    forall i | 0 <= i < |b| ensures Ids(b)[i] != id {
      assert b[i] == items[k + 1 + i];
    }
    WithoutAbsent(a, id);
    WithoutAbsent(b, id);
    WithoutConcat(a + [items[k]], b, id);
    WithoutConcat(a, [items[k]], id);
    assert Without([items[k]], id) == [];
    assert a + [] == a;
    TotalsConcat(a + [items[k]], b);
    TotalsConcat(a, [items[k]]);
    TotalsConcat(a, b);
  }

  /** updateQuantity with q >= 1 on the id at index k sets exactly that line's quantity; totals move by the difference. */
  lemma {:induction false} SetAt(items: seq<CartItem>, k: int, q: int)
    requires UniqueIds(items) && 0 <= k < |items| && q >= 1
    ensures Updated(items, items[k].id, q) == items[k := items[k].(quantity := q)]
    ensures TotalItems(Updated(items, items[k].id, q)) == TotalItems(items) - items[k].quantity + q
    ensures Subtotal(Updated(items, items[k].id, q)) == Subtotal(items) - items[k].total * items[k].quantity + items[k].total * q
  {
    WithQuantityAt(items, k, q);
    TotalsAt(items, k, items[k].(quantity := q));
  }

  /** Every call keeps ids unique and quantities at least 1. */
  lemma {:induction false} ApplyValid(items: seq<CartItem>, op: Op)
    requires Valid(items)
    ensures Valid(Apply(items, op))
  {
    match op
    case AddOp(n) =>
      AddedValid(items, n);
    case RemoveOp(id) =>
      WithoutValid(items, id);
    case UpdateOp(id, q) =>
      UpdatedValid(items, id, q);
    case ClearOp =>
    case SetOpenOp(_) =>
  }

  /** addItem keeps ids unique and quantities at least 1. */
  lemma {:induction false} AddedValid(items: seq<CartItem>, n: NewItem)
    requires Valid(items)
    ensures Valid(Added(items, n))
  {
    if HasId(items, n.id) {
      var k := HasIdAt(items, n.id);
      IncrementedAt(items, k);
      SetValid(items, k, Bumped(items[k]));
    } else {
      var r := items + [Fresh(n)];
      forall i, j | 0 <= i < j < |r| ensures r[i].id != r[j].id {
        if j == |items| { assert Ids(items)[i] == items[i].id; }
      }
    }
  }

  /** updateQuantity keeps ids unique and quantities at least 1. */
  lemma {:induction false} UpdatedValid(items: seq<CartItem>, id: string, q: int)
    requires Valid(items)
    ensures Valid(Updated(items, id, q))
  {
    if q < 1 {
      WithoutValid(items, id);
    } else if HasId(items, id) {
      var k := HasIdAt(items, id);
      WithQuantityAt(items, k, q);
      SetValid(items, k, items[k].(quantity := q));
    } else {
      WithQuantityAbsent(items, id, q);
    }
  }

  /** Replacing one line by a line with the same id and a quantity of at least 1 keeps the invariant. */
  lemma {:induction false} SetValid(items: seq<CartItem>, k: int, y: CartItem)
    requires Valid(items) && 0 <= k < |items| && y.id == items[k].id && y.quantity >= 1
    ensures Valid(items[k := y])
  {
  }

  /** No sequence of calls ever yields two lines with one id or a quantity below 1. */
  lemma {:induction false} RunValid(items: seq<CartItem>, ops: seq<Op>)
    requires Valid(items)
    ensures Valid(Run(items, ops))
    decreases |ops|
  {
    if ops != [] {
      ApplyValid(items, ops[0]);
      RunValid(Apply(items, ops[0]), ops[1..]);
    }
  }

  // ---------------------------------------------------------------------
  // Agreement with the reference model

  /** With unique ids, the view maps each line's id to that line's price and quantity. */
  lemma {:induction false} LinesAt(items: seq<CartItem>, k: int)
    requires UniqueIds(items) && 0 <= k < |items|
    ensures items[k].id in Lines(items) && Lines(items)[items[k].id] == Entry(items[k])
  {
    if k > 0 {
      UniqueTail(items);
      assert items[1..][k - 1] == items[k];
      LinesAt(items[1..], k - 1);
    }
  }

  /** A valid list views as a well-formed snapshot. */
  lemma {:induction false} ViewWf(items: seq<CartItem>)
    requires Valid(items)
    ensures M.Wf(View(items))
  {
    var ids := Ids(items);
    var lines := Lines(items);
    LinesKeys(items);
    forall i, j | 0 <= i < j < |ids| ensures ids[i] != ids[j] {
      assert items[i].id != items[j].id;
    }
    forall id | id in lines ensures lines[id].quantity >= 1 {
      var k := HasIdAt(items, id);
      LinesAt(items, k);
    }
  }

  /** The reduce-based totals agree with the reference model's derived totals. */
  lemma {:induction false} ViewTotals(items: seq<CartItem>)
    requires UniqueIds(items)
    ensures TotalItems(items) == M.TotalItems(View(items))
    ensures Subtotal(items) == M.Subtotal(View(items))
  {
    if items != [] {
      var x := items[0];
      UniqueTail(items);
      ViewTotals(items[1..]);
      assert Ids(items)[1..] == Ids(items[1..]);
      M.SumFrame(Ids(items[1..]), Lines(items[1..]), x.id, Entry(x), M.Quantity);
      M.SumFrame(Ids(items[1..]), Lines(items[1..]), x.id, Entry(x), M.Amount);
    }
  }

  /**
   * The pair `useCartTotals` returns and the provider recomputes on every
   * render: the item count is at least the number of lines, and both sums
   * are the reference model's derived totals of the same cart.
   */
  function Totals(items: seq<CartItem>): (r: (int, int))
    requires Valid(items)
    ensures r.0 >= |items|
    ensures r.0 == M.TotalItems(View(items)) && r.1 == M.Subtotal(View(items))
  {
    ViewTotals(items);
    TotalItemsBound(items);
    (TotalItems(items), Subtotal(items))
  }

  lemma {:induction false} LinesAppend(items: seq<CartItem>, x: CartItem)
    requires !HasId(items, x.id)
    ensures Lines(items + [x]) == Lines(items)[x.id := Entry(x)]
  {
    if items != [] {
      var h := items[0];
      var t := items[1..];
      assert items == [h] + t;
      assert items + [x] == [h] + (t + [x]);
      IdsCons(h, t);
      LinesCons(h, t);
      LinesCons(h, t + [x]);
      LinesAppend(t, x);
    }
  }

  lemma {:induction false} IdsWithout(items: seq<CartItem>, id: string)
    ensures Ids(Without(items, id)) == M.Erase(Ids(items), id)
  {
    if items != [] {
      var h := items[0];
      var t := items[1..];
      assert items == [h] + t;
      IdsCons(h, t);
      IdsWithout(t, id);
      if h.id != id {
        IdsCons(h, Without(t, id));
      }
    }
  }

  lemma {:induction false} LinesWithout(items: seq<CartItem>, id: string)
    ensures Lines(Without(items, id)) == Lines(items) - {id}
  {
    if items != [] {
      var h := items[0];
      var t := items[1..];
      assert items == [h] + t;
      LinesCons(h, t);
      LinesWithout(t, id);
      if h.id != id {
        LinesCons(h, Without(t, id));
        assert Lines(t)[h.id := Entry(h)] - {id} == (Lines(t) - {id})[h.id := Entry(h)];
      } else {
        assert Lines(t)[h.id := Entry(h)] - {id} == Lines(t) - {id};
      }
    }
  }

  /** `base` with the lines of `a` laid over it, earlier lines winning. */
  function LinesOver(a: seq<CartItem>, base: map<string, M.Line>): map<string, M.Line> {
    if a == [] then base else LinesOver(a[1..], base)[a[0].id := Entry(a[0])]
  }

  /** The map of a + [x] + b when x's id does not occur in b. */
  lemma {:induction false} LinesSplit(a: seq<CartItem>, x: CartItem, b: seq<CartItem>)
    ensures Lines(a + [x] + b) == LinesOver(a, Lines(b)[x.id := Entry(x)])
  {
    if a == [] {
      assert a + [x] + b == [x] + b;
      LinesCons(x, b);
    } else {
      assert a + [x] + b == [a[0]] + (a[1..] + [x] + b);
      LinesCons(a[0], a[1..] + [x] + b);
      LinesSplit(a[1..], x, b);
    }
  }

  /** Laying lines over a map commutes with an update at an id that a does not contain. */
  lemma {:induction false} LinesOverUpdate(a: seq<CartItem>, base: map<string, M.Line>, id: string, v: M.Line)
    requires !HasId(a, id)
    ensures LinesOver(a, base[id := v]) == LinesOver(a, base)[id := v]
  {
    if a != [] {
      assert Ids(a)[0] == a[0].id && Ids(a)[1..] == Ids(a[1..]);
      LinesOverUpdate(a[1..], base, id, v);
    }
  }

  /** Replacing the line at k by one with the same id replaces that id's entry in the view. */
  lemma {:induction false} LinesSet(items: seq<CartItem>, k: int, y: CartItem)
    requires UniqueIds(items) && 0 <= k < |items| && y.id == items[k].id
    ensures Lines(items[k := y]) == Lines(items)[y.id := Entry(y)]
  {
    var a := items[..k];
    var b := items[k + 1..];
    assert items == a + [items[k]] + b;
    assert items[k := y] == a + [y] + b;
    forall i | 0 <= i < |a| ensures Ids(a)[i] != y.id {
      assert a[i] == items[i];
    }
    LinesSplit(a, items[k], b);
    LinesSplit(a, y, b);
    assert Lines(b)[y.id := Entry(y)] == Lines(b)[y.id := Entry(items[k])][y.id := Entry(y)];
    LinesOverUpdate(a, Lines(b)[y.id := Entry(items[k])], y.id, Entry(y));
  }

  /** addItem moves the view exactly as the reference model's Add. */
  lemma {:induction false} ViewAdded(items: seq<CartItem>, n: NewItem)
    requires UniqueIds(items)
    ensures View(Added(items, n)) == M.Add(View(items), n.id, n.total)
  {
    if HasId(items, n.id) {
      var k := HasIdAt(items, n.id);
      ViewMerged(items, n, k);
    } else {
      ViewAppendedNew(items, n);
    }
  }

  lemma {:induction false} ViewMerged(items: seq<CartItem>, n: NewItem, k: int)
    requires UniqueIds(items) && 0 <= k < |items| && items[k].id == n.id
    ensures View(Added(items, n)) == M.Add(View(items), n.id, n.total)
  {
    var y := Bumped(items[k]);
    AddedAt(items, n, k);
    LinesAt(items, k);
    ViewSet(items, k, y);
    assert Entry(y) == M.Bumped(Entry(items[k]));
  }

  lemma {:induction false} ViewAppendedNew(items: seq<CartItem>, n: NewItem)
    requires !HasId(items, n.id)
    ensures View(Added(items, n)) == M.Add(View(items), n.id, n.total)
  {
    LinesKeys(items);
    ViewAppended(items, Fresh(n));
  }

  /** Replacing the line at k by one with the same id keeps the order and replaces that id's line. */
  lemma {:induction false} ViewSet(items: seq<CartItem>, k: int, y: CartItem)
    requires UniqueIds(items) && 0 <= k < |items| && y.id == items[k].id
    ensures View(items[k := y]) == M.Snapshot(Ids(items), Lines(items)[y.id := Entry(y)])
  {
    LinesSet(items, k, y);
    assert Ids(items[k := y]) == Ids(items);
  }

  /** Appending a line with a new id appends its id and adds its line. */
  lemma {:induction false} ViewAppended(items: seq<CartItem>, x: CartItem)
    requires !HasId(items, x.id)
    ensures View(items + [x]) == M.Snapshot(Ids(items) + [x.id], Lines(items)[x.id := Entry(x)])
  {
    LinesAppend(items, x);
    assert Ids(items + [x]) == Ids(items) + [x.id];
  }

  /** removeItem moves the view exactly as the reference model's Remove. */
  lemma {:induction false} ViewRemoved(items: seq<CartItem>, id: string)
    ensures View(Without(items, id)) == M.Remove(View(items), id)
  {
    IdsWithout(items, id);
    LinesWithout(items, id);
  }

  /** updateQuantity moves the view exactly as the reference model's Update. */
  lemma {:induction false} ViewUpdated(items: seq<CartItem>, id: string, q: int)
    requires UniqueIds(items)
    ensures View(Updated(items, id, q)) == M.Update(View(items), id, q)
  {
    LinesKeys(items);
    if q < 1 {
      ViewRemoved(items, id);
    } else if HasId(items, id) {
      var k := HasIdAt(items, id);
      WithQuantityAt(items, k, q);
      LinesAt(items, k);
      ViewSet(items, k, items[k].(quantity := q));
    } else {
      WithQuantityAbsent(items, id, q);
    }
  }

  lemma {:induction false} ViewApplied(items: seq<CartItem>, op: Op)
    requires UniqueIds(items)
    ensures View(Apply(items, op)) == M.Run(View(items), AbstractStep(op))
  {
    match op
    case AddOp(n) => ViewAdded(items, n);
    case RemoveOp(id) => ViewRemoved(items, id);
    case UpdateOp(id, q) => ViewUpdated(items, id, q);
    case ClearOp =>
    case SetOpenOp(_) =>
  }

  /** After any sequence of calls the list's view is where the reference model's run of the same calls ends. */
  lemma {:induction false} RunMatchesModel(items: seq<CartItem>, ops: seq<Op>)
    requires Valid(items)
    ensures View(Run(items, ops)) == M.Run(View(items), Abstract(ops))
    decreases |ops|
  {
    if ops != [] {
      ApplyValid(items, ops[0]);
      ViewApplied(items, ops[0]);
      RunMatchesModel(Apply(items, ops[0]), ops[1..]);
      M.RunConcat(View(items), AbstractStep(ops[0]), Abstract(ops[1..]));
    }
  }
}
