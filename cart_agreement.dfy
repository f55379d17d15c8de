/**
 * The Zustand store and the React-context provider run the same list
 * expressions, so any sequence of calls leaves them with the same list.
 * They part only on `isOpen`: the provider opens the cart on every
 * addItem, the store only when addItem appends a line.
 */
module CartAgreement {
  import CI = CartItems
  import S = CartStore
  import C = CartContext

  /** Same list, and the store is open only if the provider is. */
  predicate Agree(s: S.StoreState, p: C.ProviderState) {
    s.items == p.items && (s.isOpen ==> p.isOpen)
  }

  /** Whether `op` is an addItem of an id already in `items`. */
  predicate MergeAdd(items: seq<CI.CartItem>, op: CI.Op) {
    op.AddOp? && CI.HasId(items, op.item.id)
  }

  /** No call of `ops`, run from `items`, is a merge-add. */
  predicate NoMergeAdd(items: seq<CI.CartItem>, ops: seq<CI.Op>)
    decreases |ops|
  {
    ops == [] || (!MergeAdd(items, ops[0]) && NoMergeAdd(CI.Apply(items, ops[0]), ops[1..]))
  }

  /** One call keeps the two agreeing; the flags stay equal unless the call is a merge-add. */
  lemma {:induction false} StepAgree(s: S.StoreState, p: C.ProviderState, op: CI.Op)
    requires Agree(s, p)
    ensures Agree(S.Step(s, op), C.Step(p, op))
    ensures s.isOpen == p.isOpen && !MergeAdd(s.items, op) ==> S.Step(s, op).isOpen == C.Step(p, op).isOpen
  {
  }

  /** A merge-add on a closed cart is where they part: the store stays closed, the provider opens. */
  lemma {:induction false} MergeAddParts(s: S.StoreState, p: C.ProviderState, n: CI.NewItem)
    requires Agree(s, p) && CI.HasId(s.items, n.id) && !s.isOpen
    ensures S.Step(s, CI.AddOp(n)).items == C.Step(p, CI.AddOp(n)).items
    ensures !S.Step(s, CI.AddOp(n)).isOpen && C.Step(p, CI.AddOp(n)).isOpen
  {
  }

  /** Any sequence of calls keeps the two agreeing. */
  lemma {:induction false} RunAgree(s: S.StoreState, p: C.ProviderState, ops: seq<CI.Op>)
    requires Agree(s, p)
    ensures Agree(S.Run(s, ops), C.Run(p, ops))
    decreases |ops|
  {
    if ops != [] {
      StepAgree(s, p, ops[0]);
      RunAgree(S.Step(s, ops[0]), C.Step(p, ops[0]), ops[1..]);
    }
  }

  /** Without a merge-add, the two flags stay equal too. */
  lemma {:induction false} RunSameOpen(s: S.StoreState, p: C.ProviderState, ops: seq<CI.Op>)
    requires s.items == p.items && s.isOpen == p.isOpen && NoMergeAdd(s.items, ops)
    ensures S.Run(s, ops).items == C.Run(p, ops).items
    ensures S.Run(s, ops).isOpen == C.Run(p, ops).isOpen
    decreases |ops|
  {
    if ops != [] {
      StepAgree(s, p, ops[0]);
      assert S.Step(s, ops[0]).items == CI.Apply(s.items, ops[0]);
      RunSameOpen(S.Step(s, ops[0]), C.Step(p, ops[0]), ops[1..]);
    }
  }

  /** From their initial states, any sequence of calls leaves the same, valid list in both. */
  lemma {:induction false} FromInitial(ops: seq<CI.Op>)
    ensures S.Run(S.Initial, ops).items == C.Run(C.Initial, ops).items
    ensures S.Run(S.Initial, ops).isOpen ==> C.Run(C.Initial, ops).isOpen
    ensures CI.Valid(S.Run(S.Initial, ops).items)
  {
    RunAgree(S.Initial, C.Initial, ops);
    S.RunItems(S.Initial, ops);
  }
}
