# Organic-produce storefront: cart state and upload checks

This project models the stateful core of an organic-produce storefront and
proves properties of that model. The core has four parts:

- **The Zustand cart store** (`lib/store/cart-store.ts`). It holds an
  ordered list of cart lines plus the flags `isOpen`, `loading` and `error`,
  and changes them through five actions: addItem, removeItem, updateQuantity,
  clearCart and setIsOpen. `useCartTotals` derives `totalItems` and
  `subtotal` from the list.
- **The React-context cart** (`components/cart/cart-context.tsx`). It keeps
  the list and `isOpen` in two `useState` variables and has the same actions, with
  one difference: every addItem opens the cart, not only one that appends a
  line.
- **The persisted cart** (`hooks/use-cart.ts`). It keeps lines of
  `{ product, quantity }` and a stored `total`, which every action
  recomputes. Its addItem finds and bumps the line in place.
  updateQuantity clamps the new quantity at 0 and then filters out lines
  whose quantity is not positive.
- **The upload endpoint's checks** (`app/api/upload/route.ts`). Before
  storing a product image, the endpoint rejects a missing file, a
  disallowed MIME type and a file over 5 MiB, in that order. It then names
  the stored object `<clock>-<sanitised name>`.

Module layout:

- `CartModel` is one abstract reference model. A cart snapshot is a display
  order of ids plus a map from id to `Line(price, quantity)`. Its derived
  totals are `Σ quantity` and `Σ price × quantity`.
- `CartItems` holds the list expressions that the Zustand store and the
  context provider share. It proves that the view of a concrete list moves
  exactly as the reference model does under every action.
- `CartStore.Store` and `CartContext.Provider` are classes whose fields are
  the source's state. Each method ensures that the new state is the state's
  `Step` function applied to the old state. The lemmas beside each class
  state what the actions promise.
- `CartAgreement` relates the store and the provider under any sequence of
  actions.
- `PersistedCart.Cart` is a class with `items` and `total`. Its addItem is
  the source's find-then-bump-or-push loop. The persisted cart is related
  to the shared list, and through it to the reference model, by a
  projection.
- `Upload` models the endpoint's three checks and the stored file name.

Money and quantities are whole numbers. Prices are read as integer cents.

To check the proofs, run this from the project directory:

    dafny verify --resource-limit 2000000 --verification-time-limit 0 --warn-contradictory-assumptions *.dfy

## Model

| member | source | states |
|---|---|---|
| CartModel.Erase | lib/store/cart-store.ts:76 | dropping an id keeps every other id and only those, never lengthens the order, keeps ids unique, and leaves an order without the id unchanged (EraseConcat gives the order) |
| CartModel.EraseConcat | lib/store/cart-store.ts:76 | erasing distributes over concatenation, so the ids that stay keep their display order |
| CartModel.Add | lib/store/cart-store.ts:36-59 | after an add the id has a line; a present id keeps the order and gains one unit at its original price; a new id is appended with price `price` and quantity 1; every other id's line is untouched |
| CartModel.Remove | lib/store/cart-store.ts:74-77 | the id leaves both the order and the lines; every other id stays in the order and the lines exactly when it was there, with the same line |
| CartModel.Update | lib/store/cart-store.ts:83-94 | below 1 the id leaves the order and the lines and every other id keeps its place; at 1 or more the order is kept and a present id's quantity becomes exactly that quantity, an absent id leaves the snapshot unchanged; other lines are untouched |
| CartModel.AddWf | lib/store/cart-store.ts:36-59 | an add keeps ids unique and in step with the map, keeps quantities ≥ 1, and puts the id in the order |
| CartModel.RemoveWf | lib/store/cart-store.ts:74-77 | removal keeps the snapshot well-formed; removing an absent id changes nothing |
| CartModel.UpdateWf | lib/store/cart-store.ts:83-94 | updateQuantity (removal below 1) keeps the snapshot well-formed |
| CartModel.StepWf | lib/store/cart-store.ts:33-101 | every action keeps the snapshot well-formed |
| CartModel.RunWf | lib/store/cart-store.ts:33-101 | every sequence of actions keeps a well-formed snapshot well-formed |
| CartModel.AddTotals | lib/store/cart-store.ts:105-110 | an add raises totalItems by exactly 1 and raises subtotal by the line's original price, or by the new price for a new id |
| CartModel.RemoveTotals | lib/store/cart-store.ts:105-110 | removal lowers totalItems by the line's quantity and subtotal by its price × quantity (0 when the id is absent) |
| CartModel.UpdateTotals | lib/store/cart-store.ts:89-93 | setting a present line to q ≥ 1 moves totalItems from the old quantity to q and subtotal from price × old to price × q |
| CartModel.EmptyTotals | lib/store/cart-store.ts:29 | the empty cart is well-formed with both totals 0 |
| CartModel.AddTimesCounts | lib/store/cart-store.ts:36-59 | adding a new id n ≥ 1 times appends exactly one line for it, `Line(price, n)`: repeated adds merge rather than duplicate |
| CartModel.AddTimesWf | lib/store/cart-store.ts:36-59 | repeated adds keep the snapshot well-formed |
| CartModel.RunConcat | lib/store/cart-store.ts:33-101 | running two action sequences one after the other equals running their concatenation |
| CartItems.FindIndex | lib/store/cart-store.ts:36 | the loop finds nothing exactly when no line has the id; otherwise it returns the first index whose line has the id |
| CartItems.TotalItemsBound | lib/store/cart-store.ts:108 | with every quantity ≥ 1, totalItems is at least the number of lines |
| CartItems.SubtotalNonNegative | lib/store/cart-store.ts:109 | with no negative price and no negative quantity, the subtotal reduce is not negative |
| CartItems.TotalsConcat | lib/store/cart-store.ts:108-109 | both reduces are additive over concatenation of line lists |
| CartItems.Totals | lib/store/cart-store.ts:105-111 | on a valid list, both reduces equal the reference model's totalItems and subtotal of the list's view, and the count is at least the number of lines |
| CartItems.ViewTotals | components/cart/cart-context.tsx:79-80 | with unique ids, the provider's two reduces equal the reference model's totals of the list's view |
| CartItems.WithoutMembers | lib/store/cart-store.ts:76 | the filter keeps exactly the lines whose id differs from the removed one |
| CartItems.Without | lib/store/cart-store.ts:76 | the filter never lengthens the list and leaves no line with the removed id |
| CartItems.WithoutConcat | components/cart/cart-context.tsx:57 | the filter distributes over concatenation, so the kept lines stay in their order |
| CartItems.WithoutAbsent | lib/store/cart-store.ts:74-77 | removing an id that no line has returns the list unchanged |
| CartItems.WithoutValid | lib/store/cart-store.ts:76 | the filter keeps ids unique and quantities ≥ 1 |
| CartItems.Incremented | lib/store/cart-store.ts:40-44 | the merge map keeps the length and every id at its position (IncrementedLines gives the new quantities) |
| CartItems.WithQuantity | lib/store/cart-store.ts:90-92 | the update map keeps the length and every id at its position (WithQuantityLines gives the new quantities) |
| CartItems.Added | lib/store/cart-store.ts:36-59 | addItem leaves the ids as they were when the id is present, and appends the new id at the end otherwise |
| CartItems.Updated | lib/store/cart-store.ts:83-94 | at 1 or more the ids stay as they were; below 1 no line with the id remains and the list does not grow |
| CartItems.IncrementedLines | lib/store/cart-store.ts:40-44 | the merge map raises each line with the id by 1 and leaves every other line as it was |
| CartItems.WithQuantityLines | lib/store/cart-store.ts:90-92 | the update map gives each line with the id the new quantity and leaves every other line as it was |
| CartItems.IncrementedAt | components/cart/cart-context.tsx:41-45 | with unique ids, the merge map changes only index k, raising its quantity by 1 |
| CartItems.WithQuantityAt | components/cart/cart-context.tsx:67-71 | with unique ids, the update map changes only index k, to quantity q |
| CartItems.WithQuantityAbsent | lib/store/cart-store.ts:89-93 | updating an id that no line has returns the list unchanged |
| CartItems.AddMerges | lib/store/cart-store.ts:36-46 | adding an id present at index k bumps only that line by 1, adds 1 to totalItems and adds the line's own price to subtotal |
| CartItems.AddAppends | lib/store/cart-store.ts:55-59 | adding an absent id appends one line of quantity 1 at the end, adds 1 to totalItems and adds the new price to subtotal |
| CartItems.RemoveAt | lib/store/cart-store.ts:74-77 | removing the id of line k splices out exactly that line and lowers both totals by its share |
| CartItems.SetAt | lib/store/cart-store.ts:83-94 | updating line k's id to q ≥ 1 sets only that line's quantity and moves both totals accordingly |
| CartItems.ApplyValid | lib/store/cart-store.ts:33-101 | every action keeps ids unique and quantities ≥ 1 |
| CartItems.AddedValid | lib/store/cart-store.ts:36-59 | addItem keeps ids unique and quantities ≥ 1 |
| CartItems.UpdatedValid | lib/store/cart-store.ts:83-94 | updateQuantity keeps ids unique and quantities ≥ 1 |
| CartItems.RunValid | lib/store/cart-store.ts:33-101 | every sequence of actions keeps ids unique and quantities ≥ 1 |
| CartItems.ViewWf | lib/store/cart-store.ts:4-12 | the view of a valid list is a well-formed snapshot |
| CartItems.ViewAdded | components/cart/cart-context.tsx:34-52 | with unique ids, the view after addItem is the reference model's Add of the id and price |
| CartItems.ViewRemoved | components/cart/cart-context.tsx:56-59 | the view after removeItem is the reference model's Remove |
| CartItems.ViewUpdated | components/cart/cart-context.tsx:61-72 | with unique ids, the view after updateQuantity is the reference model's Update (removal below 1) |
| CartItems.RunMatchesModel | lib/store/cart-store.ts:33-101 | from a valid list, the view after any sequence of actions is the reference model run on the view |
| CartStore.Store.constructor | lib/store/cart-store.ts:28-32 | the store starts with no lines, closed, not loading, no error |
| CartStore.Store.AddItem | lib/store/cart-store.ts:33-73 | the new state is the add step: the list is merged or appended, `isOpen` is set only on append, `loading` is false and `error` is null; a valid list stays valid |
| CartStore.Store.RemoveItem | lib/store/cart-store.ts:74-82 | the new state is the old one with the id's lines filtered out; a valid list stays valid |
| CartStore.Store.UpdateQuantity | lib/store/cart-store.ts:83-94 | below 1 the new state is removeItem's; otherwise the id's lines get the new quantity; the flags are unchanged; a valid list stays valid |
| CartStore.Store.ClearCart | lib/store/cart-store.ts:95-101 | the new state has no lines and the old flags, and is valid |
| CartStore.Store.SetIsOpen | lib/store/cart-store.ts:102 | the new state is the old one with `isOpen` set to the argument; a valid list stays valid |
| CartStore.Step | lib/store/cart-store.ts:33-102 | each action's new list is the shared list expression's, whatever the flags; addItem ends with `loading` false and `error` null, opens the cart on a new id and leaves `isOpen` alone on a merge; the other actions keep `loading` and `error`; only setIsOpen changes `isOpen`, to its argument |
| CartStore.AddNewOpens | lib/store/cart-store.ts:55-59 | adding a new id appends one line, opens the cart and ends with no loading and no error |
| CartStore.AddExistingKeepsOpen | lib/store/cart-store.ts:38-46 | with unique ids, adding the id of line k raises only that line by one unit, leaves `isOpen` as it was, and ends with `loading` false and `error` null |
| CartStore.AddMergeStep | lib/store/cart-store.ts:38-46 | when the id is present, addItem's new state is the merged list with `isOpen` unchanged, `loading` false and `error` null |
| CartStore.ClearKeepsFlags | lib/store/cart-store.ts:95-96 | clearCart changes the list and nothing else |
| CartStore.RunQuiet | lib/store/cart-store.ts:35-58 | starting with no loading and no error, no sequence of actions leaves `loading` set or an error recorded |
| CartStore.RunItems | lib/store/cart-store.ts:33-101 | the store's list after any actions is the shared list run, and it stays valid |
| CartContext.Provider.constructor | components/cart/cart-context.tsx:30-31 | the provider starts with no lines and closed |
| CartContext.Provider.AddItem | components/cart/cart-context.tsx:33-54 | the new state has the merged or appended list and `isOpen` true; a valid list stays valid |
| CartContext.Provider.RemoveItem | components/cart/cart-context.tsx:56-59 | the new state has the id's lines filtered out and the same `isOpen`; a valid list stays valid |
| CartContext.Provider.UpdateQuantity | components/cart/cart-context.tsx:61-72 | below 1 the new state is removeItem's; otherwise the id's lines get the new quantity; a valid list stays valid |
| CartContext.Provider.ClearCart | components/cart/cart-context.tsx:74-77 | the new state has no lines and the same `isOpen`, and is valid |
| CartContext.Provider.SetIsOpen | components/cart/cart-context.tsx:31 | the new state has `isOpen` set to the argument and the same lines; a valid list stays valid |
| CartContext.Step | components/cart/cart-context.tsx:33-77 | each call's new list is the shared list expression's; every addItem, merge or append, leaves the cart open; setIsOpen sets `isOpen` to its argument; the other calls keep it |
| CartContext.RunItems | components/cart/cart-context.tsx:33-77 | the provider's list after any actions is the shared list run, and it stays valid |
| CartAgreement.StepAgree | components/cart/cart-context.tsx:33-77 | from equal lists with the store open only if the provider is, each action keeps this agreement; the open flags stay equal unless the action is an add that merges |
| CartAgreement.MergeAddParts | components/cart/cart-context.tsx:53 | a merging add on a closed cart gives both the same list, but the store stays closed while the provider opens |
| CartAgreement.RunAgree | components/cart/cart-context.tsx:33-77 | the agreement holds after any sequence of actions |
| CartAgreement.RunSameOpen | components/cart/cart-context.tsx:33-77 | with no merging add in the sequence, the store and the provider end with equal lists and equal open flags |
| CartAgreement.FromInitial | components/cart/cart-context.tsx:30-31 | from their initial states, the store and the provider always hold the same valid list, and the store is open only if the provider is |
| PersistedCart.Total | hooks/use-cart.ts:32 | with no negative price and no negative quantity, the stored total is not negative |
| PersistedCart.Find | hooks/use-cart.ts:22 | the search gives the first index whose product has the id, or the length when there is none |
| PersistedCart.Positives | hooks/use-cart.ts:47 | the filter keeps exactly the lines of positive quantity, so every kept quantity is positive and the list never grows (PositivesConcat gives the order) |
| PersistedCart.PositivesConcat | hooks/use-cart.ts:47 | the filter distributes over concatenation, so the kept lines stay in their order |
| PersistedCart.Added | hooks/use-cart.ts:20-28 | the list grows by one line only when no line has the product, and the product's line is then where `find` stopped: its old index, or the new end |
| PersistedCart.Without | hooks/use-cart.ts:36 | the filter never lengthens the list and leaves no line of the product |
| PersistedCart.Clamped | hooks/use-cart.ts:43-46 | the map keeps every line's product in place; lines of other products are unchanged; the product's lines get quantity `max(0, q)` |
| PersistedCart.Updated | hooks/use-cart.ts:42-47 | every remaining quantity is positive and the list never grows; at q ≤ 0 no line of the product remains; at q ≥ 1 the product's lines have quantity q |
| PersistedCart.Cart.constructor | hooks/use-cart.ts:18-19 | the cart starts with no lines, total 0, valid |
| PersistedCart.Cart.AddItem | hooks/use-cart.ts:20-34 | the new lines are the add of the product, the stored total is the sum of price × quantity over them, and a valid cart stays valid |
| PersistedCart.Cart.RemoveItem | hooks/use-cart.ts:35-41 | the new lines are the filter, and the stored total is recomputed from them |
| PersistedCart.Cart.UpdateQuantity | hooks/use-cart.ts:42-53 | the new lines are clamp-then-filter, and the stored total is recomputed from them |
| PersistedCart.Cart.ClearCart | hooks/use-cart.ts:54 | no lines and total 0 |
| PersistedCart.TotalConcat | hooks/use-cart.ts:32 | the total of a concatenation is the sum of the totals |
| PersistedCart.WithoutConcat | hooks/use-cart.ts:36 | the filter distributes over concatenation |
| PersistedCart.AddMerges | hooks/use-cart.ts:22-25 | adding a product present at index k bumps only that line by 1 and raises the total by the product's price |
| PersistedCart.AddAppends | hooks/use-cart.ts:26-28 | adding an absent product pushes one line of quantity 1 and raises the total by its price |
| PersistedCart.AddedValid | hooks/use-cart.ts:20-28 | addItem keeps product ids unique and quantities positive |
| PersistedCart.WithoutMembers | hooks/use-cart.ts:36 | the filter keeps exactly the lines of other products |
| PersistedCart.WithoutAbsent | hooks/use-cart.ts:36 | removing a product no line has returns the lines unchanged |
| PersistedCart.WithoutValid | hooks/use-cart.ts:36 | removal keeps product ids unique and quantities positive |
| PersistedCart.UpdateDropsNonPositive | hooks/use-cart.ts:43-47 | on positive lines, updating to a quantity ≤ 0 is exactly removal of that product |
| PersistedCart.UpdateSets | hooks/use-cart.ts:43-47 | on positive lines, updating to q ≥ 1 keeps every line, gives the product's lines quantity q and leaves the others as they were |
| PersistedCart.UpdateKeepsOthers | hooks/use-cart.ts:43-47 | on lines whose quantities are all positive, updating one product never changes the lines of any other product |
| PersistedCart.PositivesValid | hooks/use-cart.ts:47 | the filter keeps product ids unique and keeps only lines that were there |
| PersistedCart.ClampedUnique | hooks/use-cart.ts:43-46 | the clamp map keeps every line's product, so ids stay unique |
| PersistedCart.UpdatedValid | hooks/use-cart.ts:42-53 | updateQuantity keeps product ids unique and quantities positive |
| PersistedCart.ProjectTotal | hooks/use-cart.ts:30-33 | the stored total equals the shared subtotal of the projected list |
| PersistedCart.ProjectAdded | hooks/use-cart.ts:20-34 | with unique products, projecting after addItem equals the shared addItem on the projection |
| PersistedCart.ProjectWithout | hooks/use-cart.ts:35-41 | projecting after removeItem equals the shared filter on the projection |
| PersistedCart.ProjectUpdated | hooks/use-cart.ts:42-53 | on positive lines, projecting after updateQuantity equals the shared updateQuantity, so clamp-then-filter agrees with remove-below-1 |
| PersistedCart.ProjectApplied | hooks/use-cart.ts:20-54 | on valid lines, projecting after any action equals the shared action on the projection, and the lines stay valid |
| PersistedCart.RunMatchesModel | hooks/use-cart.ts:20-54 | from valid lines, the projected view after any actions is the reference model run on the view, and the stored total is the model's subtotal |
| PersistedCart.RunValid | hooks/use-cart.ts:20-54 | every sequence of actions keeps product ids unique and quantities positive |
| Upload.Validate | app/api/upload/route.ts:5-33 | every rejection has status 400; a value is accepted exactly when it is a file of an allowed type no larger than 5 MiB, and the accepted file is the one given |
| Upload.MissingRejected | app/api/upload/route.ts:15-17 | a missing value or an empty text field gets "No file provided" |
| Upload.TypeCheckedBeforeSize | app/api/upload/route.ts:20-25 | a present value that is not a file of an allowed type gets the type error, whatever its size |
| Upload.SizeBoundary | app/api/upload/route.ts:28-33 | an allowed file is refused for size exactly when it is over 5 MiB; 5242880 bytes pass |
| Upload.Sanitize | app/api/upload/route.ts:38 | the cleaned name is no longer than the name and holds only `[a-zA-Z0-9.-]` |
| Upload.SanitizeConcat | app/api/upload/route.ts:38 | cleaning distributes over concatenation |
| Upload.SanitizeKeepsSafe | app/api/upload/route.ts:38 | a name made only of kept characters is left as it is |
| Upload.SanitizeIdempotent | app/api/upload/route.ts:38 | cleaning twice equals cleaning once |
| Upload.SanitizeMembers | app/api/upload/route.ts:38 | a character appears in the cleaned name exactly when it is in the name and is a kept character |
| Upload.Decimal | app/api/upload/route.ts:38 | the clock's decimal text is non-empty and all digits |
| Upload.DecimalRoundTrip | app/api/upload/route.ts:38 | reading the decimal text back gives the clock reading |
| Upload.StoredName | app/api/upload/route.ts:38 | the stored name holds only `[a-zA-Z0-9.-]` |
| Upload.StoredNameSplits | app/api/upload/route.ts:38 | the stored name's first `-` follows the digits; the part before it reads back as the clock reading, and the part after it is the cleaned name |

## Left out

- Toasts (every `toast(...)` call) are notifications with no effect on state.
- `createdAt: new Date()` on an appended store line is omitted. It affects no invariant.
- The `catch` branch of the store's addItem (lib/store/cart-store.ts:65-72) is not modelled. Nothing in its `try` block can throw, so the branch is unreachable. CartStore.RunQuiet therefore states that `error` stays null.
- `setLoading` and `setError` are declared in the store's interface (lib/store/cart-store.ts:24-25), but the store object defines neither of them, so they are not modelled.
- The store's addItem is `async` with no `await`, so its state changes happen in one call. They are modelled as one step, with `loading` true only inside AddItem.
- The `persist` middleware and its `cart-storage` local-storage key are I/O and are not modelled.
- PersistedCart.Cart.AddItem works on values. The source bumps the line object that it shares with the previous state's array (hooks/use-cart.ts:21-25), so the old snapshot is mutated too. Value semantics cannot show that aliasing.
- Money and quantities are JavaScript numbers in the source. The model uses unbounded integers, with prices read as cents. Fractional quantities, NaN and floating-point rounding of totals are not modelled.
- The persisted cart's lines use `types/cart.ts` with an optional `product?` field. The model makes the product mandatory, since every line addItem builds has one.
- The persisted cart is related to the reference model by a projection that keeps id, price and quantity. The projection gives each line empty descriptive fields.
- `Date.now()` is a parameter of Upload.StoredName, and the `FormData` value is a parameter of Upload.Validate. Parsing the request body, creating the storage client, reading the file's bytes, the storage upload, the public URL and the 500 responses (app/api/upload/route.ts:8-13 and 35-60) are not modelled.
- JavaScript strings are UTF-16 code units and Dafny strings are sequences of characters. The pattern `[^a-zA-Z0-9.-]` only keeps ASCII characters, so this difference does not affect the cleaned name.
- Rendering, the `useCart` context hook, and the admin and page components are not part of this model.
- CartItems.AddMerges, CartItems.IncrementedAt, CartItems.WithQuantityAt, CartItems.RemoveAt, CartItems.SetAt, CartItems.ViewTotals, CartItems.ViewAdded, CartItems.ViewUpdated and CartStore.AddExistingKeepsOpen require unique ids. With duplicate ids, the source's maps would change every matching line, and the view would keep one line per id. CartItems.RunValid shows that no reachable list has duplicates.
- PersistedCart.AddMerges and PersistedCart.ProjectAdded require unique product ids. The source's `find` bumps only the first match, so with duplicates it would leave later lines alone; PersistedCart.Find and PersistedCart.RunValid cover that case.
