/**
 * The reference model that the three shopping-cart implementations share:
 * a cart is a display order of line ids together with a map from each id
 * to its frozen unit price (in cents) and its quantity.  Totals are derived
 * from the lines, never stored.  The concrete carts (modules CartItems and
 * PersistedCart) are proved to move through this model step by step.
 */
module CartModel {
  /** What the cart keeps for one id: unit price in cents and quantity. */
  datatype Line = Line(price: int, quantity: int)

  /** A line with one more unit at the same price. */
  function Bumped(l: Line): (r: Line)
    ensures r.price == l.price && r.quantity == l.quantity + 1
  {
    l.(quantity := l.quantity + 1)
  }

  /** `order` is first-added-first-shown; `lines` holds each id's line. */
  datatype Snapshot = Snapshot(order: seq<string>, lines: map<string, Line>)

  predicate NoDuplicates(s: seq<string>) {
    forall i, j :: 0 <= i < j < |s| ==> s[i] != s[j]
  }

  /** The cart invariants: one line per id, and every quantity at least 1. */
  predicate Wf(c: Snapshot) {
    && NoDuplicates(c.order)
    && (forall id :: id in c.order ==> id in c.lines)
    && (forall id :: id in c.lines ==> id in c.order)
    && (forall id :: id in c.lines ==> c.lines[id].quantity >= 1)
  }

  const Empty: Snapshot := Snapshot([], map[])

  /** `s` without any occurrence of `x`, the others in order. */
  function Erase(s: seq<string>, x: string): (r: seq<string>)
    ensures forall y :: y in r <==> y in s && y != x
    ensures |r| <= |s|
    ensures NoDuplicates(s) ==> NoDuplicates(r)
    ensures x !in s ==> r == s
  {
    if s == [] then []
    else if s[0] == x then Erase(s[1..], x)
    else
      var rest := Erase(s[1..], x);
      assert s[0] !in s[1..] ==> s[0] !in rest;
      [s[0]] + rest
  }

  /** Erasing works id by id, so the ids it keeps stay in their display order. */
  lemma {:induction false} EraseConcat(a: seq<string>, b: seq<string>, x: string)
    ensures Erase(a + b, x) == Erase(a, x) + Erase(b, x)
  {
    if a == [] {
      assert a + b == b;
    } else {
      assert (a + b)[0] == a[0] && (a + b)[1..] == a[1..] + b;
      EraseConcat(a[1..], b, x);
    }
  }

  // ---------------------------------------------------------------------
  // Derived totals

  /** What one id contributes to a sum; an id without a line contributes 0. */
  function Value(lines: map<string, Line>, id: string, f: Line -> int): int {
    if id in lines then f(lines[id]) else 0
  }

  /** The sum of `f` over the lines, taken in display order. */
  function Sum(order: seq<string>, lines: map<string, Line>, f: Line -> int): int {
    if order == [] then 0 else Value(lines, order[0], f) + Sum(order[1..], lines, f)
  }

  function Quantity(l: Line): int { l.quantity }

  function Amount(l: Line): int { l.price * l.quantity }

  /** Number of units in the cart. */
  function TotalItems(c: Snapshot): int { Sum(c.order, c.lines, Quantity) }

  /** Money in the cart: unit price times quantity, summed over the lines. */
  function Subtotal(c: Snapshot): int { Sum(c.order, c.lines, Amount) }

  // ---------------------------------------------------------------------
  // Transitions

  /** Add one unit of `id`: merge into its line, or append a new line of quantity 1. */
  function Add(c: Snapshot, id: string, price: int): (r: Snapshot)
    ensures id in r.lines
    ensures id in c.lines ==> r.order == c.order && r.lines[id] == Bumped(c.lines[id])
    ensures id !in c.lines ==> r.order == c.order + [id] && r.lines[id] == Line(price, 1)
    ensures forall k :: k != id ==> (k in r.lines <==> k in c.lines)
    ensures forall k :: k != id && k in c.lines ==> r.lines[k] == c.lines[k]
  {
    if id in c.lines then
      Snapshot(c.order, c.lines[id := Bumped(c.lines[id])])
    else
      Snapshot(c.order + [id], c.lines[id := Line(price, 1)])
  }

  /** Drop the line of `id`, if there is one. */
  function Remove(c: Snapshot, id: string): (r: Snapshot)
    ensures id !in r.lines && id !in r.order
    ensures forall k :: k != id ==> (k in r.order <==> k in c.order)
    ensures forall k :: k != id ==> (k in r.lines <==> k in c.lines)
    ensures forall k :: k != id && k in c.lines ==> r.lines[k] == c.lines[k]
  {
    Snapshot(Erase(c.order, id), c.lines - {id})
  }

  /** Set the quantity of `id` to `q`; below 1 the line goes away; an absent id is left absent. */
  function Update(c: Snapshot, id: string, q: int): (r: Snapshot)
    ensures q >= 1 ==> r.order == c.order
    ensures q >= 1 && id in c.lines ==> id in r.lines && r.lines[id] == c.lines[id].(quantity := q)
    ensures q >= 1 && id !in c.lines ==> r == c
    ensures q < 1 ==> id !in r.lines && id !in r.order
    ensures q < 1 ==> forall k :: k != id ==> (k in r.order <==> k in c.order)
    ensures forall k :: k != id ==> (k in r.lines <==> k in c.lines)
    ensures forall k :: k != id && k in c.lines ==> r.lines[k] == c.lines[k]
  {
    if q < 1 then Remove(c, id)
    else if id in c.lines then Snapshot(c.order, c.lines[id := c.lines[id].(quantity := q)])
    else c
  }

  lemma {:induction false} AddWf(c: Snapshot, id: string, price: int)
    requires Wf(c)
    ensures Wf(Add(c, id, price)) && id in Add(c, id, price).order
  {
    if id !in c.lines {
      var r := Add(c, id, price);
      forall i, j | 0 <= i < j < |r.order| ensures r.order[i] != r.order[j] {
        if j == |c.order| { assert r.order[i] in c.order; }
      }
    }
  }

  lemma {:induction false} RemoveWf(c: Snapshot, id: string)
    requires Wf(c)
    ensures Wf(Remove(c, id))
    ensures id !in c.lines ==> Remove(c, id) == c
  {
    var r := Remove(c, id);
    forall k | k in r.order ensures k in r.lines {
      assert k in c.order && k != id;
    }
    forall k | k in r.lines ensures k in r.order {
      assert k in c.lines && k != id;
    }
    if id !in c.lines {
      assert id !in c.order;
      assert c.lines - {id} == c.lines;
    }
  }

  lemma {:induction false} UpdateWf(c: Snapshot, id: string, q: int)
    requires Wf(c)
    ensures Wf(Update(c, id, q))
  {
    if q < 1 { RemoveWf(c, id); }
  }

  lemma {:induction false} StepWf(c: Snapshot, op: Op)
    requires Wf(c)
    ensures Wf(Step(c, op))
  {
    match op
    case AddOp(id, price) => AddWf(c, id, price);
    case RemoveOp(id) => RemoveWf(c, id);
    case UpdateOp(id, q) => UpdateWf(c, id, q);
    case ClearOp =>
  }

  /** `n` consecutive additions of the same id. */
  function AddTimes(c: Snapshot, id: string, price: int, n: nat): Snapshot {
    if n == 0 then c else Add(AddTimes(c, id, price, n - 1), id, price)
  }

  // ---------------------------------------------------------------------
  // Sums under changes of the order and of the lines

  lemma {:induction false} SumAppend(order: seq<string>, k: string, lines: map<string, Line>, f: Line -> int)
    ensures Sum(order + [k], lines, f) == Sum(order, lines, f) + Value(lines, k, f)
  {
    if order == [] {
      assert order + [k] == [k];
    } else {
      assert (order + [k])[1..] == order[1..] + [k];
      SumAppend(order[1..], k, lines, f);
    }
  }

  lemma {:induction false} SumFrame(order: seq<string>, lines: map<string, Line>, k: string, v: Line, f: Line -> int)
    requires k !in order
    ensures Sum(order, lines[k := v], f) == Sum(order, lines, f)
  {
    if order != [] {
      SumFrame(order[1..], lines, k, v, f);
    }
  }

  lemma {:induction false} SumDropFrame(order: seq<string>, lines: map<string, Line>, k: string, f: Line -> int)
    requires k !in order
    ensures Sum(order, lines - {k}, f) == Sum(order, lines, f)
  {
    if order != [] {
      SumDropFrame(order[1..], lines, k, f);
    }
  }

  /** Replacing the line of an id that occurs once changes the sum by the difference. */
  lemma {:induction false} SumReplace(order: seq<string>, lines: map<string, Line>, k: string, v: Line, f: Line -> int)
    requires NoDuplicates(order) && k in order
    ensures Sum(order, lines[k := v], f) == Sum(order, lines, f) - Value(lines, k, f) + f(v)
  {
    if order[0] == k {
      assert k !in order[1..] by {
        forall j | 1 <= j < |order| ensures order[j] != k { }
      }
      SumFrame(order[1..], lines, k, v, f);
    } else {
      SumReplace(order[1..], lines, k, v, f);
    }
  }

  /** Erasing an id that occurs at most once takes away exactly its contribution. */
  lemma {:induction false} SumErase(order: seq<string>, lines: map<string, Line>, k: string, f: Line -> int)
    requires NoDuplicates(order)
    ensures Sum(Erase(order, k), lines - {k}, f) == Sum(order, lines, f) - (if k in order then Value(lines, k, f) else 0)
  {
    if order == [] {
    } else if order[0] == k {
      assert k !in order[1..] by {
        forall j | 1 <= j < |order| ensures order[j] != k { }
      }
      SumDropFrame(order[1..], lines, k, f);
    } else {
      SumErase(order[1..], lines, k, f);
    }
  }

  // ---------------------------------------------------------------------
  // Totals across the transitions

  /** Adding one unit raises the item count by 1 and the subtotal by the line's frozen price. */
  lemma {:induction false} AddTotals(c: Snapshot, id: string, price: int)
    requires Wf(c)
    ensures TotalItems(Add(c, id, price)) == TotalItems(c) + 1
    ensures Subtotal(Add(c, id, price)) == Subtotal(c) + (if id in c.lines then c.lines[id].price else price)
  {
    if id in c.lines {
      MergeTotals(c, id, price);
    } else {
      AppendTotals(c, id, price);
    }
  }

  lemma {:induction false} MergeTotals(c: Snapshot, id: string, price: int)
    requires Wf(c) && id in c.lines
    ensures TotalItems(Add(c, id, price)) == TotalItems(c) + 1
    ensures Subtotal(Add(c, id, price)) == Subtotal(c) + c.lines[id].price
  {
    var l := c.lines[id];
    var l' := Bumped(l);
    assert Add(c, id, price) == Snapshot(c.order, c.lines[id := l']);
    SumReplace(c.order, c.lines, id, l', Quantity);
    SumReplace(c.order, c.lines, id, l', Amount);
    MulSucc(l.price, l.quantity);
  }

  lemma {:induction false} MulSucc(p: int, q: int)
    ensures p * (q + 1) == p * q + p
  {
  }

  lemma {:induction false} AppendTotals(c: Snapshot, id: string, price: int)
    requires Wf(c) && id !in c.lines
    ensures TotalItems(Add(c, id, price)) == TotalItems(c) + 1
    ensures Subtotal(Add(c, id, price)) == Subtotal(c) + price
  {
    var lines := c.lines[id := Line(price, 1)];
    assert Add(c, id, price) == Snapshot(c.order + [id], lines);
    SumAppend(c.order, id, lines, Quantity);
    SumAppend(c.order, id, lines, Amount);
    SumFrame(c.order, c.lines, id, Line(price, 1), Quantity);
    SumFrame(c.order, c.lines, id, Line(price, 1), Amount);
  }

  /** Removing a line takes exactly its units and its amount out of the totals. */
  lemma {:induction false} RemoveTotals(c: Snapshot, id: string)
    requires Wf(c)
    ensures TotalItems(Remove(c, id)) == TotalItems(c) - Value(c.lines, id, Quantity)
    ensures Subtotal(Remove(c, id)) == Subtotal(c) - Value(c.lines, id, Amount)
  {
    SumErase(c.order, c.lines, id, Quantity);
    SumErase(c.order, c.lines, id, Amount);
  }

  /** Setting a present line's quantity to q >= 1 changes the totals by the difference only. */
  lemma {:induction false} UpdateTotals(c: Snapshot, id: string, q: int)
    requires Wf(c) && q >= 1 && id in c.lines
    ensures TotalItems(Update(c, id, q)) == TotalItems(c) - c.lines[id].quantity + q
    ensures Subtotal(Update(c, id, q)) == Subtotal(c) - c.lines[id].price * c.lines[id].quantity + c.lines[id].price * q
  {
    var l := c.lines[id];
    SumReplace(c.order, c.lines, id, l.(quantity := q), Quantity);
    SumReplace(c.order, c.lines, id, l.(quantity := q), Amount);
  }

  /** The empty cart has no items and a zero subtotal. */
  lemma {:induction false} EmptyTotals()
    ensures Wf(Empty) && TotalItems(Empty) == 0 && Subtotal(Empty) == 0
  {
  }

  /**
   * Adding the same new id n >= 1 times yields exactly one line for it,
   * appended once, whose quantity is n.
   */
  lemma {:induction false} AddTimesCounts(c: Snapshot, id: string, price: int, n: nat)
    requires Wf(c) && id !in c.lines && n >= 1
    ensures var r := AddTimes(c, id, price, n);
      Wf(r) && r.order == c.order + [id] && r.lines[id] == Line(price, n)
      && forall k :: k != id ==> (k in r.lines <==> k in c.lines)
  {
    AddTimesWf(c, id, price, n - 1);
    if n > 1 {
      AddTimesCounts(c, id, price, n - 1);
    }
    AddWf(AddTimes(c, id, price, n - 1), id, price);
  }

  lemma {:induction false} AddTimesWf(c: Snapshot, id: string, price: int, n: nat)
    requires Wf(c)
    ensures Wf(AddTimes(c, id, price, n))
  {
    if n > 0 {
      AddTimesWf(c, id, price, n - 1);
      AddWf(AddTimes(c, id, price, n - 1), id, price);
    }
  }

  // ---------------------------------------------------------------------
  // Sequences of operations

  /** The operations every cart variant offers, as the model sees them. */
  datatype Op = AddOp(id: string, price: int) | RemoveOp(id: string) | UpdateOp(id: string, quantity: int) | ClearOp

  function Step(c: Snapshot, op: Op): Snapshot {
    match op
    case AddOp(id, price) => Add(c, id, price)
    case RemoveOp(id) => Remove(c, id)
    case UpdateOp(id, q) => Update(c, id, q)
    case ClearOp => Empty
  }

  function Run(c: Snapshot, ops: seq<Op>): Snapshot
    decreases |ops|
  {
    if ops == [] then c else Run(Step(c, ops[0]), ops[1..])
  }

  /** No sequence of operations breaks the invariants: ids stay unique and quantities stay at least 1. */
  lemma {:induction false} RunWf(c: Snapshot, ops: seq<Op>)
    requires Wf(c)
    ensures Wf(Run(c, ops))
    decreases |ops|
  {
    if ops != [] {
      StepWf(c, ops[0]);
      RunWf(Step(c, ops[0]), ops[1..]);
    }
  }

  lemma {:induction false} RunConcat(c: Snapshot, a: seq<Op>, b: seq<Op>)
    ensures Run(c, a + b) == Run(Run(c, a), b)
    decreases |a|
  {
    if a == [] {
      assert a + b == b;
    } else {
      assert (a + b)[0] == a[0] && (a + b)[1..] == a[1..] + b;
      RunConcat(Step(c, a[0]), a[1..], b);
    }
  }
}
