# Cart rules of the GoMarket store front

The app keeps its shopping cart in a React context provider (`src/hooks/cart.tsx`).
The cart is an ordered list of `Product` lines (`id`, `title`, `image_url`, `price`,
`quantity`). Three callbacks rewrite it:

- `addToCart(product)`: if a line with the product's id exists, every line with that id
  gains one unit; otherwise `{...product, quantity: 1}` is appended;
- `increment(id)`: every line with that id gains one unit;
- `decrement(id)`: every line with that id whose quantity is above 1 loses one unit.
  Quantity 1 is a floor, and a line is never removed.

This project models those rules in Dafny.

- `cart.dfy`, module `Cart`, holds the line record (`Product`) and the argument of
  `addToCart` (`CatalogItem`).
- It holds each list computation as a pure function: `Find` for `products.find`,
  `Incremented` for the `products.map` of increment (lines 78-84), `Decremented` for
  that of decrement (lines 98-104), and `AddedToCart` for addToCart. The third
  `products.map`, in addToCart (lines 50-56), raises the lines whose id equals the
  found line's id; `AddedToCart` models it by calling `Incremented`.
- It holds the lemmas about those functions.
- It holds the provider's state as the class `CartProvider`. Its field
  `products: seq<Product>` is reassigned by `AddToCart`, `Increment`, `Decrement` and
  `LoadProducts`, as `setProducts` replaces the React state.
- It holds `UseCart`, the null-context check, with a `Result` for the thrown error.
- `cart_history.dfy`, module `CartHistory`, replays whole runs of calls. It proves that
  the invariants hold throughout, that lines stay in first-seen order, and how adds
  accumulate quantities.

`Valid(s)` is the cart invariant: ids are pairwise distinct and each quantity is at
least 1. The source never checks it. It holds when calls run one after another, as
the model applies them, and the lemmas prove that every rule then preserves it. `QuantityOf(s, id)` is the quantity of the line
that `find` returns, or 0 when there is none.

## Model

| member | source | states |
|---|---|---|
| `Cart.Find` | src/hooks/cart.tsx:47 | the result is absent exactly when no line has the id; a present result is the first line of the cart with that id |
| `Cart.Incremented` | src/hooks/cart.tsx:78-84 | length kept; each line with the id has quantity + 1; every other field and every other line unchanged |
| `Cart.Decremented` | src/hooks/cart.tsx:98-104 | length kept; each line with the id and quantity > 1 has quantity − 1; all else unchanged |
| `Cart.AddedToCart` | src/hooks/cart.tsx:47-71 | id present: the same list as increment of that id; id absent: one more line `{id, title, image_url, price, quantity: 1}` at the end, earlier lines unchanged |
| `Cart.UpdatesKeepIds` | src/hooks/cart.tsx:78-84 | increment and decrement keep the sequence of ids: no line added, removed or moved |
| `Cart.AddToCartIds` | src/hooks/cart.tsx:47-71 | addToCart keeps the ids in order, and appends the item's id exactly when it was absent |
| `Cart.NoMatchIsNoOp` | src/hooks/cart.tsx:78-84 | increment or decrement of an id that no line has returns the list unchanged |
| `Cart.DecrementAtFloor` | src/hooks/cart.tsx:98-104 | when every line with the id is at quantity 1 or below, decrement changes nothing, and decrementing again still changes nothing |
| `Cart.DecrementUndoesIncrement` | src/hooks/cart.tsx:78-104 | on a cart whose quantities are all ≥ 1, decrement(id) after increment(id) restores the cart |
| `Cart.IncrementUndoesDecrement` | src/hooks/cart.tsx:78-104 | when no line with the id is at the floor, increment(id) after decrement(id) restores the cart |
| `Cart.IncrementPreservesValid` | src/hooks/cart.tsx:78-84 | increment keeps ids distinct and quantities ≥ 1 |
| `Cart.DecrementPreservesValid` | src/hooks/cart.tsx:98-104 | decrement keeps ids distinct and quantities ≥ 1 (floor at 1) |
| `Cart.AddToCartPreservesValid` | src/hooks/cart.tsx:47-71 | addToCart keeps ids distinct, because an existing id is never appended again, and keeps quantities ≥ 1 |
| `Cart.FindIncremented` | src/hooks/cart.tsx:47-84 | find after increment returns the line find returned before, incremented if it matched |
| `Cart.FindDecremented` | src/hooks/cart.tsx:47-104 | find after decrement returns the line find returned before, decremented if it matched |
| `Cart.FindAppended` | src/hooks/cart.tsx:47-69 | find on a list with one line appended returns the first hit of the old list, if there is one, and otherwise the new line when its id matches |
| `Cart.QuantityAfterIncrement` | src/hooks/cart.tsx:78-84 | increment(x) raises the quantity of x by exactly one when x is present; every other id's quantity is unchanged |
| `Cart.QuantityAfterDecrement` | src/hooks/cart.tsx:98-104 | decrement(x) lowers x's quantity by exactly one when it is > 1, otherwise keeps it; other ids unchanged |
| `Cart.QuantityAfterAddToCart` | src/hooks/cart.tsx:47-71 | addToCart raises the item's quantity by exactly one (a new id goes from 0 to 1); other ids unchanged |
| `Cart.CartProvider.constructor` | src/hooks/cart.tsx:29 | the cart starts empty |
| `Cart.CartProvider.LoadProducts` | src/hooks/cart.tsx:32-38 | a stored list replaces the state; when nothing is stored the state stays as it was |
| `Cart.CartProvider.AddToCart` | src/hooks/cart.tsx:44-74 | the new state is `AddedToCart` of the old; the invariant is kept; the item's quantity goes up by one |
| `Cart.CartProvider.Increment` | src/hooks/cart.tsx:76-94 | the new state is `Incremented` of the old; ids unchanged; the invariant is kept |
| `Cart.CartProvider.Decrement` | src/hooks/cart.tsx:96-114 | the new state is `Decremented` of the old; ids unchanged; the invariant is kept |
| `Cart.UseCart` | src/hooks/cart.tsx:124-132 | with no provider, fails with "useCart must be used within a CartProvider"; otherwise returns exactly the provider's context |
| `CartHistory.FirstSeenFacts` | src/hooks/cart.tsx:47-71 | first-seen order keeps the earlier ids in front, has no repeats, and holds exactly the ids known or seen |
| `CartHistory.DistinctIdsAsNoDuplicates` | src/hooks/cart.tsx:47-71 | a cart has distinct ids exactly when its list of ids has no repeats |
| `CartHistory.ReplayPreservesValid` | src/hooks/cart.tsx:44-114 | any run of addToCart/increment/decrement calls on a valid cart leaves a valid cart |
| `CartHistory.ReplayOrder` | src/hooks/cart.tsx:44-114 | after any run of calls, the lines come in the order addToCart first saw their ids; increment and decrement calls do not affect the order |
| `CartHistory.ReplayAddsCount` | src/hooks/cart.tsx:47-71 | over a run of addToCart calls, each id's quantity grows by the number of calls for that id |
| `CartHistory.AddingFromEmpty` | src/hooks/cart.tsx:29-71 | from the empty cart, addToCart calls with repeated ids leave one line per distinct id, in first-seen order, with quantity equal to the number of calls for that id |

## Left out

- AsyncStorage writes (`setItem` in all three callbacks) are not modelled. They are
  asynchronous I/O. The model's state is the provider's `products` only.
- The model assumes every write succeeds. In the source a rejected `setItem` skips the
  `setProducts` that follows it (lines 58-63, 67-71, 86-91, 106-111). On addToCart's
  new-item path (67-71) the state then stays as it was. On the three `map` paths
  (lines 52, 80, 100) the current lines were already changed in place before the write,
  so they keep the new quantity although no `setProducts` runs. The model's methods
  always replace the state.
- The persisted list is never reloaded, so no save/reload round trip is stated. The
  load reads key `@GoMarket:products` (line 34), but every write uses
  `GoMarket:products` (lines 59, 68, 87, 107).
- `JSON.parse` and `JSON.stringify` are not modelled. `LoadProducts` receives the parsed
  list, or `None` when `getItem` returned nothing (null or an empty string). The model
  assumes the stored text parses to a list of products with integer quantities. Other
  well-formed JSON, such as `"null"` or `"{}"`, passes the check at line 36 and becomes
  the state at line 37, and the next `find` or `map` would then throw. Non-integer
  quantities are not modelled either.
- A malformed stored string makes `JSON.parse` throw inside an un-awaited promise. That
  path is not modelled.
- `Cart.CartProvider.LoadProducts` does not establish `Valid`: the source does not
  check the list it loads.
- React machinery is not modelled: `createContext`, `useState`, `useEffect`, `useCallback`,
  `useMemo` and the Provider element. `UseCart` takes the context value as a nullable
  provider reference.
- The stale-closure race is not modelled. Each callback captures `products` from its
  render, so overlapping calls can compute from the same old list. The model applies
  calls one after another, each to the state the previous one left. Under the race the
  source breaks the invariant. Two overlapping `addToCart` calls for a new id both
  search the same captured list (line 47) and find nothing. Both then append through
  `state => [...state, new]` (line 71), so the same id ends up in the cart twice. Also,
  an `increment` or `decrement` computed from the stale list can drop a line that an
  overlapping `addToCart` appended: its `setProducts` (lines 91, 111) replaces the state
  with a list that lacks that line.
- In the new-item path, the source writes `[...products, new]` to storage. It updates
  the state with `state => [...state, new]`. Applied one call at a time, these are the
  same list.
- Aliasing is not modelled. The source's `map` callbacks change the shared line objects
  in place (`quantity += 1` / `-= 1`), which also alters the old list. Lines here are
  values.
- `price` is a JavaScript floating-point number. It is modelled as an opaque `real`,
  since no arithmetic touches it.
- Quantities are unbounded integers. Losing precision after 2^53 increments of a
  JavaScript number is not modelled.
