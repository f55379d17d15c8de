/**
 * The Zustand cart store of lib/store/cart-store.ts: the list of lines plus
 * the flags `isOpen`, `loading` and `error`, changed in place by the store's
 * five actions.  The list expressions are the shared ones of `CartItems`.
 */
module CartStore {
  import W = Wrappers
  import CI = CartItems

  /** The store's four fields, as one value. */
  datatype StoreState = StoreState(items: seq<CI.CartItem>, isOpen: bool, loading: bool, error: W.Option<string>)

  /** The state `create` starts from. */
  const Initial: StoreState := StoreState([], false, false, W.None)

  /**
   * The state one action leaves.  addItem clears `loading` and `error` on
   * the way out and opens the cart only when it appended a line; the other
   * actions leave both flags alone, and only setIsOpen touches `isOpen`.
   */
  function Step(s: StoreState, op: CI.Op): (r: StoreState)
    ensures r.items == CI.Apply(s.items, op)
    ensures op.AddOp? ==> !r.loading && r.error == W.None
    ensures op.AddOp? && !CI.HasId(s.items, op.item.id) ==> r.isOpen
    ensures op.AddOp? && CI.HasId(s.items, op.item.id) ==> r.isOpen == s.isOpen
    ensures !op.AddOp? ==> r.loading == s.loading && r.error == s.error
    ensures op.SetOpenOp? ==> r.isOpen == op.open
    ensures !op.AddOp? && !op.SetOpenOp? ==> r.isOpen == s.isOpen
  {
    match op
    case AddOp(n) => StoreState(CI.Added(s.items, n), s.isOpen || !CI.HasId(s.items, n.id), false, W.None)
    case RemoveOp(id) => s.(items := CI.Without(s.items, id))
    case UpdateOp(id, q) => if q < 1 then s.(items := CI.Without(s.items, id)) else s.(items := CI.WithQuantity(s.items, id, q))
    case ClearOp => s.(items := [])
    case SetOpenOp(open) => s.(isOpen := open)
  }

  function Run(s: StoreState, ops: seq<CI.Op>): StoreState
    decreases |ops|
  {
    if ops == [] then s else Run(Step(s, ops[0]), ops[1..])
  }

  class Store {
    var items: seq<CI.CartItem>
    var isOpen: bool
    var loading: bool
    var error: W.Option<string>

    function Current(): StoreState
      reads this
    {
      StoreState(items, isOpen, loading, error)
    }

    /** No two lines share an id and every quantity is at least 1. */
    predicate Valid()
      reads this
    {
      CI.Valid(items)
    }

    constructor()
      ensures Current() == Initial && Valid()
    {
      items := [];
      isOpen := false;
      loading := false;
      error := W.None;
    }

    method AddItem(n: CI.NewItem)
      modifies this
      ensures Current() == Step(old(Current()), CI.AddOp(n))
      ensures old(Valid()) ==> Valid()
    {
      ghost var before := items;
      loading, error := true, W.None;
      var found := CI.FindIndex(items, n.id);
      if found.Some? {
        items := CI.Incremented(items, n.id);
        loading := false;
      } else {
        items := items + [CI.Fresh(n)];
        isOpen := true;
        loading := false;
      }
      if CI.Valid(before) {
        CI.ApplyValid(before, CI.AddOp(n));
      }
    }

    method RemoveItem(id: string)
      modifies this
      ensures Current() == Step(old(Current()), CI.RemoveOp(id))
      ensures old(Valid()) ==> Valid()
    {
      ghost var before := items;
      items := CI.Without(items, id);
      if CI.Valid(before) {
        CI.ApplyValid(before, CI.RemoveOp(id));
      }
    }

    method UpdateQuantity(id: string, quantity: int)
      modifies this
      ensures Current() == Step(old(Current()), CI.UpdateOp(id, quantity))
      ensures old(Valid()) ==> Valid()
    {
      if quantity < 1 {
        RemoveItem(id);
        return;
      }
      ghost var before := items;
      items := CI.WithQuantity(items, id, quantity);
      if CI.Valid(before) {
        CI.ApplyValid(before, CI.UpdateOp(id, quantity));
      }
    }

    method ClearCart()
      modifies this
      ensures Current() == Step(old(Current()), CI.ClearOp)
      ensures Valid()
    {
      items := [];
    }

    method SetIsOpen(open: bool)
      modifies this
      ensures Current() == Step(old(Current()), CI.SetOpenOp(open))
      ensures old(Valid()) ==> Valid()
    {
      isOpen := open;
    }
  }

  // ---------------------------------------------------------------------
  // What the actions promise

  /** Adding a new id appends one line of quantity 1 at the end and opens the cart. */
  lemma {:induction false} AddNewOpens(s: StoreState, n: CI.NewItem)
    requires !CI.HasId(s.items, n.id)
    ensures Step(s, CI.AddOp(n)) == StoreState(s.items + [CI.Fresh(n)], true, false, W.None)
    ensures |Step(s, CI.AddOp(n)).items| == |s.items| + 1
  {
    CI.AddAppends(s.items, n);
  }

  /** Adding an id present at index k raises only that line by 1; the length and `isOpen` are unchanged. */
  lemma {:induction false} AddExistingKeepsOpen(s: StoreState, n: CI.NewItem, k: int)
    requires CI.UniqueIds(s.items) && 0 <= k < |s.items| && s.items[k].id == n.id
    ensures Step(s, CI.AddOp(n)) == StoreState(s.items[k := CI.Bumped(s.items[k])], s.isOpen, false, W.None)
  {
    CI.AddedAt(s.items, n, k);
    AddMergeStep(s, n, s.items[k := CI.Bumped(s.items[k])]);
  }

  /** A merge-add's new state, given the merged list: only the list and the two transient fields change. */
  lemma {:induction false} AddMergeStep(s: StoreState, n: CI.NewItem, merged: seq<CI.CartItem>)
    requires CI.HasId(s.items, n.id) && CI.Added(s.items, n) == merged
    ensures Step(s, CI.AddOp(n)) == StoreState(merged, s.isOpen, false, W.None)
  {
  }

  /** clearCart empties the list and leaves every flag as it was. */
  lemma {:induction false} ClearKeepsFlags(s: StoreState)
    ensures Step(s, CI.ClearOp) == s.(items := [])
  {
  }

  /** A state with `loading` false and no error stays so: the catch path is the only writer of `error`. */
  lemma {:induction false} RunQuiet(s: StoreState, ops: seq<CI.Op>)
    requires !s.loading && s.error == W.None
    ensures !Run(s, ops).loading && Run(s, ops).error == W.None
    decreases |ops|
  {
    if ops != [] {
      RunQuiet(Step(s, ops[0]), ops[1..]);
    }
  }

  /** The list after any sequence of actions is the shared list run, so it stays valid. */
  lemma {:induction false} RunItems(s: StoreState, ops: seq<CI.Op>)
    ensures Run(s, ops).items == CI.Run(s.items, ops)
    ensures CI.Valid(s.items) ==> CI.Valid(Run(s, ops).items)
    decreases |ops|
  {
    if ops != [] {
      RunItems(Step(s, ops[0]), ops[1..]);
    }
    if CI.Valid(s.items) {
      CI.RunValid(s.items, ops);
    }
  }
}
