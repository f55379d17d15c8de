/**
 * The persisted cart of hooks/use-cart.ts: lines of a product and a
 * quantity, keyed by the product's id, and a stored `total` that every
 * action recomputes from scratch.  addItem works on a copy of the list,
 * bumping the first matching line in place or pushing a new one;
 * updateQuantity clamps at 0 and then drops the lines left at 0.
 */
module PersistedCart {
  import W = Wrappers
  import M = CartModel
  import CI = CartItems

  /** The product fields the cart reads; `price` is in cents. */
  datatype Product = Product(id: string, name: string, price: int)

  datatype Line = Line(product: Product, quantity: int)

  /** The line after `existingItem.quantity += 1`: the same product with one more unit. */
  function Bumped(l: Line): (r: Line)
    ensures r.product == l.product && r.quantity == l.quantity + 1
  {
    l.(quantity := l.quantity + 1)
  }

  /** `items.reduce((sum, item) => sum + item.product.price * item.quantity, 0)`. */
  function Total(items: seq<Line>): (r: int)
    ensures (forall i :: 0 <= i < |items| ==> items[i].product.price >= 0 && items[i].quantity >= 0) ==> r >= 0
  {
    if items == [] then 0 else items[0].product.price * items[0].quantity + Total(items[1..])
  }

  predicate UniqueProducts(items: seq<Line>) {
    forall i, j :: 0 <= i < j < |items| ==> items[i].product.id != items[j].product.id
  }

  predicate AllPositive(items: seq<Line>) {
    forall i :: 0 <= i < |items| ==> items[i].quantity >= 1
  }

  /** What the actions keep: one line per product, every quantity at least 1. */
  predicate ValidLines(items: seq<Line>) {
    UniqueProducts(items) && AllPositive(items)
  }

  // ---------------------------------------------------------------------
  // The list each action leaves

  /** The index `items.find` stops at: the first line of `pid`, or |items| when there is none. */
  function Find(items: seq<Line>, pid: string): (r: nat)
    ensures r <= |items|
    ensures r < |items| ==> items[r].product.id == pid
    ensures forall j :: 0 <= j < r ==> items[j].product.id != pid
  {
    if items == [] then 0
    else if items[0].product.id == pid then 0
    else 1 + Find(items[1..], pid)
  }

  /** addItem: the first line of the product gains one unit, or the product is pushed with quantity 1. */
  function Added(items: seq<Line>, p: Product): (r: seq<Line>)
    ensures |r| == if Find(items, p.id) < |items| then |items| else |items| + 1
    ensures Find(r, p.id) == Find(items, p.id) < |r|
  {
    var k := Find(items, p.id);
    if k < |items| then
      var r := items[k := Bumped(items[k])];
      assert r[k].product.id == p.id;
      assert forall j :: 0 <= j < k ==> r[j] == items[j];
      r
    else
      var r := items + [Line(p, 1)];
      assert r[|items|].product.id == p.id;
      assert forall j :: 0 <= j < |items| ==> r[j] == items[j];
      r
  }

  /** removeItem: `items.filter(item => item.product.id !== productId)`. */
  function Without(items: seq<Line>, pid: string): (r: seq<Line>)
    ensures |r| <= |items|
    ensures forall i :: 0 <= i < |r| ==> r[i].product.id != pid
  {
    if items == [] then []
    else if items[0].product.id == pid then Without(items[1..], pid)
    else [items[0]] + Without(items[1..], pid)
  }

  /** The map step of updateQuantity: the lines of `pid` get `Math.max(0, q)`. */
  function Clamped(items: seq<Line>, pid: string, q: int): (r: seq<Line>)
    ensures |r| == |items|
    ensures forall i :: 0 <= i < |items| ==> r[i].product == items[i].product
    ensures forall i :: 0 <= i < |items| && items[i].product.id != pid ==> r[i] == items[i]
    ensures forall i :: 0 <= i < |items| && items[i].product.id == pid ==> r[i].quantity == if q < 0 then 0 else q
  {
    if items == [] then []
    else
      var head := if items[0].product.id == pid then items[0].(quantity := if q < 0 then 0 else q) else items[0];
      [head] + Clamped(items[1..], pid, q)
  }

  /** The filter step of updateQuantity: keep the lines with a quantity above 0. */
  function Positives(items: seq<Line>): (r: seq<Line>)
    ensures AllPositive(r)
    ensures |r| <= |items|
    ensures forall x :: x in r <==> x in items && x.quantity > 0
  {
    if items == [] then []
    else if items[0].quantity > 0 then [items[0]] + Positives(items[1..])
    else Positives(items[1..])
  }

  /** updateQuantity: the clamp map, then the filter. */
  function Updated(items: seq<Line>, pid: string, q: int): (r: seq<Line>)
    ensures AllPositive(r)
    ensures |r| <= |items|
    ensures q <= 0 ==> forall i :: 0 <= i < |r| ==> r[i].product.id != pid
    ensures q >= 1 ==> forall i :: 0 <= i < |r| && r[i].product.id == pid ==> r[i].quantity == q
  {
    Positives(Clamped(items, pid, q))
  }

  // ---------------------------------------------------------------------
  // The store

  class Cart {
    var items: seq<Line>
    var total: int

    /** The stored total is the from-scratch sum of the lines it was written with. */
    predicate Valid()
      reads this
    {
      total == Total(items) && ValidLines(items)
    }

    constructor()
      ensures items == [] && total == 0 && Valid()
    {
      items := [];
      total := 0;
    }

    method AddItem(p: Product)
      modifies this
      ensures items == Added(old(items), p) && total == Total(items)
      ensures old(ValidLines(items)) ==> Valid()
    {
      var copy := items;
      var i := 0;
      while i < |copy| && copy[i].product.id != p.id
        invariant 0 <= i <= |copy|
        invariant forall j :: 0 <= j < i ==> copy[j].product.id != p.id
      {
        i := i + 1;
      }
      if i < |copy| {
        copy := copy[i := Bumped(copy[i])];
      } else {
        copy := copy + [Line(p, 1)];
      }
      if ValidLines(items) {
        AddedValid(items, p);
      }
      items := copy;
      total := Total(copy);
    }

    method RemoveItem(pid: string)
      modifies this
      ensures items == Without(old(items), pid) && total == Total(items)
      ensures old(ValidLines(items)) ==> Valid()
    {
      if ValidLines(items) {
        WithoutValid(items, pid);
      }
      items := Without(items, pid);
      total := Total(items);
    }

    method UpdateQuantity(pid: string, quantity: int)
      modifies this
      ensures items == Updated(old(items), pid, quantity) && total == Total(items)
      ensures old(ValidLines(items)) ==> Valid()
    {
      if ValidLines(items) {
        UpdatedValid(items, pid, quantity);
      }
      items := Updated(items, pid, quantity);
      total := Total(items);
    }

    method ClearCart()
      modifies this
      ensures items == [] && total == 0 && Valid()
    {
      items, total := [], 0;
    }
  }

  // ---------------------------------------------------------------------
  // Unfolding helpers

  lemma {:induction false} TotalConcat(a: seq<Line>, b: seq<Line>)
    ensures Total(a + b) == Total(a) + Total(b)
  {
    if a == [] {
      assert a + b == b;
    } else {
      assert (a + b)[0] == a[0] && (a + b)[1..] == a[1..] + b;
      TotalConcat(a[1..], b);
    }
  }

  lemma {:induction false} WithoutConcat(a: seq<Line>, b: seq<Line>, pid: string)
    ensures Without(a + b, pid) == Without(a, pid) + Without(b, pid)
  {
    if a == [] {
      assert a + b == b;
    } else {
      assert (a + b)[0] == a[0] && (a + b)[1..] == a[1..] + b;
      WithoutConcat(a[1..], b, pid);
    }
  }

  // ---------------------------------------------------------------------
  // What the actions promise

  /**
   * addItem on a product already at index k raises only that line by 1 and
   * adds no line; the total grows by the price stored in that line.
   */
  lemma {:induction false} AddMerges(items: seq<Line>, p: Product, k: int)
    requires UniqueProducts(items) && 0 <= k < |items| && items[k].product.id == p.id
    ensures Added(items, p) == items[k := Bumped(items[k])]
    ensures Total(Added(items, p)) == Total(items) + items[k].product.price
  {
    AddedAt(items, p, k);
    BumpTotal(items, k, Added(items, p));
  }

  lemma {:induction false} AddedAt(items: seq<Line>, p: Product, k: int)
    requires UniqueProducts(items) && 0 <= k < |items| && items[k].product.id == p.id
    ensures Added(items, p) == items[k := Bumped(items[k])]
  {
    assert Find(items, p.id) == k;
  }

  /** Raising the line at k by one unit raises the total by that line's price. */
  lemma {:induction false} BumpTotal(items: seq<Line>, k: int, r: seq<Line>)
    requires 0 <= k < |items| && r == items[k := Bumped(items[k])]
    ensures Total(r) == Total(items) + items[k].product.price
  {
    var x := items[k];
    var y := Bumped(x);
    var a, b := items[..k], items[k + 1..];
    assert items == a + [x] + b;
    assert r == a + [y] + b;
    TotalConcat(a + [x], b);
    TotalConcat(a, [x]);
    TotalConcat(a + [y], b);
    TotalConcat(a, [y]);
    M.MulSucc(x.product.price, x.quantity);
  }

  /** addItem on a new product pushes `{product, quantity: 1}` at the end; the total grows by its price. */
  lemma {:induction false} AddAppends(items: seq<Line>, p: Product)
    requires forall i :: 0 <= i < |items| ==> items[i].product.id != p.id
    ensures Added(items, p) == items + [Line(p, 1)]
    ensures Total(Added(items, p)) == Total(items) + p.price
  {
    TotalConcat(items, [Line(p, 1)]);
  }

  lemma {:induction false} AddedValid(items: seq<Line>, p: Product)
    requires ValidLines(items)
    ensures ValidLines(Added(items, p))
  {
  }

  /** removeItem keeps exactly the lines of other products. */
  lemma {:induction false} WithoutMembers(items: seq<Line>, pid: string)
    ensures forall x :: x in Without(items, pid) <==> x in items && x.product.id != pid
  {
    if items != [] {
      WithoutMembers(items[1..], pid);
      assert forall x :: x in items <==> x == items[0] || x in items[1..];
    }
  }

  /** removeItem of a product that is not in the cart changes nothing. */
  lemma {:induction false} WithoutAbsent(items: seq<Line>, pid: string)
    requires forall i :: 0 <= i < |items| ==> items[i].product.id != pid
    ensures Without(items, pid) == items
  {
    if items != [] {
      assert items[0].product.id != pid;
      WithoutAbsent(items[1..], pid);
    }
  }

  lemma {:induction false} WithoutValid(items: seq<Line>, pid: string)
    requires ValidLines(items)
    ensures ValidLines(Without(items, pid))
  {
    if items != [] {
      var t := Without(items[1..], pid);
      WithoutValid(items[1..], pid);
      WithoutMembers(items[1..], pid);
      if items[0].product.id != pid {
        forall i | 0 <= i < |t| ensures t[i].product.id != items[0].product.id {
          assert t[i] in items[1..];
        }
        var r := [items[0]] + t;
        forall i, j | 0 <= i < j < |r| ensures r[i].product.id != r[j].product.id {
          if i > 0 { assert r[i] == t[i - 1]; }
          assert r[j] == t[j - 1];
        }
      }
    }
  }

  /** With every quantity at least 1, the filter after the clamp drops only what the clamp set to 0. */
  lemma {:induction false} UpdateDropsNonPositive(items: seq<Line>, pid: string, q: int)
    requires AllPositive(items) && q <= 0
    ensures Updated(items, pid, q) == Without(items, pid)
  {
    if items != [] {
      UpdateDropsNonPositive(items[1..], pid, q);
    }
  }

  /** With every quantity at least 1 and q >= 1, nothing is filtered: the lines of pid get q, the others are kept. */
  lemma {:induction false} UpdateSets(items: seq<Line>, pid: string, q: int)
    requires AllPositive(items) && q >= 1
    ensures |Updated(items, pid, q)| == |items|
    ensures forall i :: 0 <= i < |items| ==>
      Updated(items, pid, q)[i] == if items[i].product.id == pid then items[i].(quantity := q) else items[i]
  {
    if items != [] {
      UpdateSets(items[1..], pid, q);
      forall i | 0 < i < |items| ensures items[1..][i - 1] == items[i] { }
    }
  }

  /** updateQuantity leaves the lines of the other products exactly as they were, in order. */
  lemma {:induction false} UpdateKeepsOthers(items: seq<Line>, pid: string, q: int)
    requires AllPositive(items)
    ensures Without(Updated(items, pid, q), pid) == Without(items, pid)
  {
    if items != [] {
      UpdateKeepsOthers(items[1..], pid, q);
    }
  }

  /** The filter works line by line, so the lines it keeps stay in their order. */
  lemma {:induction false} PositivesConcat(a: seq<Line>, b: seq<Line>)
    ensures Positives(a + b) == Positives(a) + Positives(b)
  {
    if a == [] {
      assert a + b == b;
    } else {
      assert (a + b)[0] == a[0] && (a + b)[1..] == a[1..] + b;
      PositivesConcat(a[1..], b);
    }
  }

  lemma {:induction false} PositivesValid(items: seq<Line>)
    requires UniqueProducts(items)
    ensures UniqueProducts(Positives(items))
    ensures forall x :: x in Positives(items) ==> x in items
  {
    if items != [] {
      PositivesValid(items[1..]);
      var t := Positives(items[1..]);
      if items[0].quantity > 0 {
        var r := [items[0]] + t;
        forall i, j | 0 <= i < j < |r| ensures r[i].product.id != r[j].product.id {
          assert r[j] == t[j - 1] && r[j] in items[1..];
          if i > 0 { assert r[i] == t[i - 1]; }
        }
      }
    }
  }

  lemma {:induction false} ClampedUnique(items: seq<Line>, pid: string, q: int)
    requires UniqueProducts(items)
    ensures UniqueProducts(Clamped(items, pid, q))
    ensures forall i :: 0 <= i < |items| ==> Clamped(items, pid, q)[i].product == items[i].product
  {
    if items != [] {
      ClampedUnique(items[1..], pid, q);
      forall i | 0 < i < |items| ensures items[1..][i - 1] == items[i] { }
    }
  }

  lemma {:induction false} UpdatedValid(items: seq<Line>, pid: string, q: int)
    requires ValidLines(items)
    ensures ValidLines(Updated(items, pid, q))
  {
    ClampedUnique(items, pid, q);
    PositivesValid(Clamped(items, pid, q));
  }

  // ---------------------------------------------------------------------
  // Agreement with the reference model

  datatype Op = AddOp(product: Product) | RemoveOp(pid: string) | UpdateOp(pid: string, quantity: int) | ClearOp

  function Apply(items: seq<Line>, op: Op): seq<Line> {
    match op
    case AddOp(p) => Added(items, p)
    case RemoveOp(pid) => Without(items, pid)
    case UpdateOp(pid, q) => Updated(items, pid, q)
    case ClearOp => []
  }

  function Run(items: seq<Line>, ops: seq<Op>): seq<Line>
    decreases |ops|
  {
    if ops == [] then items else Run(Apply(items, ops[0]), ops[1..])
  }

  /** A line as the shared cart lines see it: only the id, the unit price and the quantity carry over. */
  function AsItem(l: Line): CI.CartItem {
    CI.CartItem(l.product.id, "", "", l.product.price, W.None, l.quantity)
  }

  function AsNew(p: Product): CI.NewItem {
    CI.NewItem(p.id, "", "", p.price, W.None)
  }

  function Project(items: seq<Line>): (r: seq<CI.CartItem>)
    ensures |r| == |items|
    ensures forall i :: 0 <= i < |items| ==> r[i] == AsItem(items[i])
  {
    if items == [] then [] else [AsItem(items[0])] + Project(items[1..])
  }

  /** The same call on the shared cart lines. */
  function Shared(op: Op): CI.Op {
    match op
    case AddOp(p) => CI.AddOp(AsNew(p))
    case RemoveOp(pid) => CI.RemoveOp(pid)
    case UpdateOp(pid, q) => CI.UpdateOp(pid, q)
    case ClearOp => CI.ClearOp
  }

  function SharedAll(ops: seq<Op>): seq<CI.Op>
    decreases |ops|
  {
    if ops == [] then [] else [Shared(ops[0])] + SharedAll(ops[1..])
  }

  lemma {:induction false} ProjectValid(items: seq<Line>)
    requires ValidLines(items)
    ensures CI.Valid(Project(items))
  {
  }

  /** The stored total is the shared subtotal of the same lines. */
  lemma {:induction false} ProjectTotal(items: seq<Line>)
    ensures Total(items) == CI.Subtotal(Project(items))
  {
    if items != [] {
      ProjectTotal(items[1..]);
      assert Project(items)[1..] == Project(items[1..]);
    }
  }

  lemma {:induction false} ProjectWithout(items: seq<Line>, pid: string)
    ensures Project(Without(items, pid)) == CI.Without(Project(items), pid)
  {
    if items != [] {
      ProjectWithout(items[1..], pid);
      assert Project(items)[1..] == Project(items[1..]);
      if items[0].product.id != pid {
        assert Project([items[0]] + Without(items[1..], pid)) == [AsItem(items[0])] + Project(Without(items[1..], pid));
      }
    }
  }

  lemma {:induction false} ProjectClamped(items: seq<Line>, pid: string, q: int)
    requires q >= 1
    ensures Project(Clamped(items, pid, q)) == CI.WithQuantity(Project(items), pid, q)
  {
    if items != [] {
      ProjectClamped(items[1..], pid, q);
      assert Project(items)[1..] == Project(items[1..]);
      assert Clamped(items, pid, q)[1..] == Clamped(items[1..], pid, q);
    }
  }

  lemma {:induction false} PositivesKeepsAll(items: seq<Line>)
    requires AllPositive(items)
    ensures Positives(items) == items
  {
    if items != [] {
      PositivesKeepsAll(items[1..]);
    }
  }

  lemma {:induction false} ProjectAdded(items: seq<Line>, p: Product)
    requires UniqueProducts(items)
    ensures Project(Added(items, p)) == CI.Added(Project(items), AsNew(p))
  {
    var k := Find(items, p.id);
    if k < |items| {
      ProjectMerged(items, p, k);
    } else {
      ProjectAppended(items, p);
    }
  }

  lemma {:induction false} ProjectMerged(items: seq<Line>, p: Product, k: int)
    requires UniqueProducts(items) && 0 <= k < |items| && items[k].product.id == p.id
    ensures Project(Added(items, p)) == CI.Added(Project(items), AsNew(p))
  {
    var ps := Project(items);
    var y := Bumped(items[k]);
    AddedAt(items, p, k);
    ProjectSet(items, k, y);
    assert CI.Ids(ps)[k] == p.id;
    CI.IncrementedAt(ps, k);
    assert AsItem(y) == CI.Bumped(ps[k]);
  }

  lemma {:induction false} ProjectSet(items: seq<Line>, k: int, y: Line)
    requires 0 <= k < |items|
    ensures Project(items[k := y]) == Project(items)[k := AsItem(y)]
  {
  }

  lemma {:induction false} ProjectAppended(items: seq<Line>, p: Product)
    requires Find(items, p.id) == |items|
    ensures Project(Added(items, p)) == CI.Added(Project(items), AsNew(p))
  {
    var ps := Project(items);
    forall i | 0 <= i < |ps| ensures CI.Ids(ps)[i] != p.id { }
    assert Project(items + [Line(p, 1)]) == ps + [CI.Fresh(AsNew(p))];
  }

  lemma {:induction false} ClampedPositive(items: seq<Line>, pid: string, q: int)
    requires AllPositive(items) && q >= 1
    ensures AllPositive(Clamped(items, pid, q))
  {
    if items != [] {
      ClampedPositive(items[1..], pid, q);
      var r := Clamped(items, pid, q);
      assert r[1..] == Clamped(items[1..], pid, q);
      forall i | 0 < i < |r| ensures r[i].quantity >= 1 {
        assert r[i] == r[1..][i - 1];
      }
    }
  }

  lemma {:induction false} ProjectUpdated(items: seq<Line>, pid: string, q: int)
    requires AllPositive(items)
    ensures Project(Updated(items, pid, q)) == CI.Updated(Project(items), pid, q)
  {
    if q < 1 {
      UpdateDropsNonPositive(items, pid, q);
      ProjectWithout(items, pid);
    } else {
      ClampedPositive(items, pid, q);
      PositivesKeepsAll(Clamped(items, pid, q));
      ProjectClamped(items, pid, q);
    }
  }

  lemma {:induction false} ProjectApplied(items: seq<Line>, op: Op)
    requires ValidLines(items)
    ensures Project(Apply(items, op)) == CI.Apply(Project(items), Shared(op))
    ensures ValidLines(Apply(items, op))
  {
    match op
    case AddOp(p) => AppliedAdd(items, p);
    case RemoveOp(pid) => AppliedRemove(items, pid);
    case UpdateOp(pid, q) => AppliedUpdate(items, pid, q);
    case ClearOp =>
  }

  lemma {:induction false} AppliedAdd(items: seq<Line>, p: Product)
    requires ValidLines(items)
    ensures Project(Apply(items, AddOp(p))) == CI.Apply(Project(items), Shared(AddOp(p)))
    ensures ValidLines(Apply(items, AddOp(p)))
  {
    ProjectAdded(items, p);
    AddedValid(items, p);
  }

  lemma {:induction false} AppliedRemove(items: seq<Line>, pid: string)
    requires ValidLines(items)
    ensures Project(Apply(items, RemoveOp(pid))) == CI.Apply(Project(items), Shared(RemoveOp(pid)))
    ensures ValidLines(Apply(items, RemoveOp(pid)))
  {
    ProjectWithout(items, pid);
    WithoutValid(items, pid);
  }

  lemma {:induction false} AppliedUpdate(items: seq<Line>, pid: string, q: int)
    requires ValidLines(items)
    ensures Project(Apply(items, UpdateOp(pid, q))) == CI.Apply(Project(items), Shared(UpdateOp(pid, q)))
    ensures ValidLines(Apply(items, UpdateOp(pid, q)))
  {
    ProjectUpdated(items, pid, q);
    UpdatedValid(items, pid, q);
  }

  lemma {:induction false} ProjectRun(items: seq<Line>, ops: seq<Op>)
    requires ValidLines(items)
    ensures Project(Run(items, ops)) == CI.Run(Project(items), SharedAll(ops))
    decreases |ops|
  {
    if ops != [] {
      ProjectApplied(items, ops[0]);
      ProjectRun(Apply(items, ops[0]), ops[1..]);
    }
  }

  lemma {:induction false} AbstractShared(ops: seq<Op>)
    ensures CI.Abstract(SharedAll(ops)) == MapOps(ops)
    decreases |ops|
  {
    if ops != [] {
      AbstractShared(ops[1..]);
      assert SharedAll(ops)[0] == Shared(ops[0]) && SharedAll(ops)[1..] == SharedAll(ops[1..]);
    }
  }

  /** The calls as the reference model sees them. */
  function MapOps(ops: seq<Op>): seq<M.Op>
    decreases |ops|
  {
    if ops == [] then []
    else
      var head := match ops[0]
        case AddOp(p) => M.AddOp(p.id, p.price)
        case RemoveOp(pid) => M.RemoveOp(pid)
        case UpdateOp(pid, q) => M.UpdateOp(pid, q)
        case ClearOp => M.ClearOp;
      [head] + MapOps(ops[1..])
  }

  /**
   * After any sequence of calls the cart's lines view as where the
   * reference model's run of the same calls ends, and the stored total is
   * that cart's subtotal.
   */
  lemma {:induction false} RunMatchesModel(items: seq<Line>, ops: seq<Op>)
    requires ValidLines(items)
    ensures CI.View(Project(Run(items, ops))) == M.Run(CI.View(Project(items)), MapOps(ops))
    ensures Total(Run(items, ops)) == M.Subtotal(CI.View(Project(Run(items, ops))))
  {
    ProjectValid(items);
    ProjectRun(items, ops);
    CI.RunMatchesModel(Project(items), SharedAll(ops));
    AbstractShared(ops);
    RunValid(items, ops);
    ProjectValid(Run(items, ops));
    ProjectTotal(Run(items, ops));
    CI.ViewTotals(Project(Run(items, ops)));
  }

  lemma {:induction false} RunValid(items: seq<Line>, ops: seq<Op>)
    requires ValidLines(items)
    ensures ValidLines(Run(items, ops))
    decreases |ops|
  {
    if ops != [] {
      ProjectApplied(items, ops[0]);
      RunValid(Apply(items, ops[0]), ops[1..]);
    }
  }
}
