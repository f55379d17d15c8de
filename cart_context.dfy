/**
 * The React-context cart of components/cart/cart-context.tsx: two state
 * variables, `items` and `isOpen`, written through their setters.  The list
 * expressions are the shared ones of `CartItems`; unlike the Zustand store,
 * every addItem also calls `setIsOpen(true)`.
 */
module CartContext {
  import CI = CartItems

  /** The provider's two state variables, as one value. */
  datatype ProviderState = ProviderState(items: seq<CI.CartItem>, isOpen: bool)

  /** The two `useState` initial values. */
  const Initial: ProviderState := ProviderState([], false)

  /** The state one call leaves: only addItem and setIsOpen write `isOpen`. */
  function Step(s: ProviderState, op: CI.Op): (r: ProviderState)
    ensures r.items == CI.Apply(s.items, op)
    ensures op.AddOp? ==> r.isOpen
    ensures op.SetOpenOp? ==> r.isOpen == op.open
    ensures !op.AddOp? && !op.SetOpenOp? ==> r.isOpen == s.isOpen
  {
    match op
    case AddOp(n) => ProviderState(CI.Added(s.items, n), true)
    case RemoveOp(id) => s.(items := CI.Without(s.items, id))
    case UpdateOp(id, q) => if q < 1 then s.(items := CI.Without(s.items, id)) else s.(items := CI.WithQuantity(s.items, id, q))
    case ClearOp => s.(items := [])
    case SetOpenOp(open) => s.(isOpen := open)
  }

  function Run(s: ProviderState, ops: seq<CI.Op>): ProviderState
    decreases |ops|
  {
    if ops == [] then s else Run(Step(s, ops[0]), ops[1..])
  }

  class Provider {
    var items: seq<CI.CartItem>
    var isOpen: bool

    function Current(): ProviderState
      reads this
    {
      ProviderState(items, isOpen)
    }

    /** No two lines share an id and every quantity is at least 1. */
    predicate Valid()
      reads this
    {
      CI.Valid(items)
    }

    constructor()
      ensures Current() == Initial && Valid()
    {
      items := [];
      isOpen := false;
    }

    method AddItem(n: CI.NewItem)
      modifies this
      ensures Current() == Step(old(Current()), CI.AddOp(n))
      ensures old(Valid()) ==> Valid()
    {
      ghost var before := items;
      var found := CI.FindIndex(items, n.id);
      if found.Some? {
        items := CI.Incremented(items, n.id);
      } else {
        items := items + [CI.Fresh(n)];
      }
      isOpen := true;
      if CI.Valid(before) {
        CI.ApplyValid(before, CI.AddOp(n));
      }
    }

    method RemoveItem(id: string)
      modifies this
      ensures Current() == Step(old(Current()), CI.RemoveOp(id))
      ensures old(Valid()) ==> Valid()
    {
      ghost var before := items;
      items := CI.Without(items, id);
      if CI.Valid(before) {
        CI.ApplyValid(before, CI.RemoveOp(id));
      }
    }

    method UpdateQuantity(id: string, quantity: int)
      modifies this
      ensures Current() == Step(old(Current()), CI.UpdateOp(id, quantity))
      ensures old(Valid()) ==> Valid()
    {
      if quantity < 1 {
        RemoveItem(id);
        return;
      }
      ghost var before := items;
      items := CI.WithQuantity(items, id, quantity);
      if CI.Valid(before) {
        CI.ApplyValid(before, CI.UpdateOp(id, quantity));
      }
    }

    method ClearCart()
      modifies this
      ensures Current() == Step(old(Current()), CI.ClearOp)
      ensures Valid()
    {
      items := [];
    }

    method SetIsOpen(open: bool)
      modifies this
      ensures Current() == Step(old(Current()), CI.SetOpenOp(open))
      ensures old(Valid()) ==> Valid()
    {
      isOpen := open;
    }
  }

  // ---------------------------------------------------------------------
  // What the calls promise

  /** The list after any sequence of calls is the shared list run, so it stays valid. */
  lemma {:induction false} RunItems(s: ProviderState, ops: seq<CI.Op>)
    ensures Run(s, ops).items == CI.Run(s.items, ops)
    ensures CI.Valid(s.items) ==> CI.Valid(Run(s, ops).items)
    decreases |ops|
  {
    if ops != [] {
      RunItems(Step(s, ops[0]), ops[1..]);
    }
    if CI.Valid(s.items) {
      CI.RunValid(s.items, ops);
    }
  }
}
