# RocketShoes cart hook, modelled in Dafny

This project models the cart state manager of the RocketShoes storefront: the
`useCart` hook in `src/hooks/useCart.tsx`. The hook holds the shopper's cart, an
ordered list of product lines `{id, amount, …}`, in React state and mirrors it
under the local-storage key `@RocketShoes:cart`. Three operations change it:

- `addProduct(id)` asks the stock service and, for a new id, the product
  service. It then appends a line of one unit, bumps an existing line by one,
  or refuses.
- `removeProduct(id)` filters the id's lines out, or refuses when the id is
  absent.
- `updateProductAmount({id, amount})` sets the id's amount within the stock.

Every successful call writes the new cart to state and to storage together.
Every refusal or failure writes neither and shows one toast.

The model has three modules:

- `CartLines` (`cart_lines.dfy`): the cart line value and the three list
  transforms the hook uses. These are `find` (`Find`), `filter` (`Without`)
  and the two `map`s (`Incremented`, `WithAmount`), with their properties:
  first match, kept order, only the target line changes, ids stay unique.
- `CartSteps` (`cart_steps.dfy`): each operation's decision as a pure function
  (`AddStep`, `RemoveStep`, `UpdateStep`). Each returns `Commit(next)`,
  `Notify(message)` or `Silent`, given the cart and the answers of the HTTP
  lookups. Lemmas state every branch of the source as a property. Also here are
  sessions of calls (`Run`): no sequence of calls breaks id uniqueness, and a
  repeated add at the stock ceiling is refused the same way every time.
- `CartProvider` (`cart_manager.dfy`): the class `CartManager`. Its fields
  `cart` (the React state) and `stored` (the parsed storage value, `None` when
  the key is absent) change in place. Each method follows the branches of the
  source and is proved against the matching step function. Its class invariant
  `Valid()` says that state and storage agree. The client method `Scenarios`
  replays the storefront's typical session.

The stock and product lookups are inputs of type `Lookup<T> = Failed |
Found(data)`. `Failed` stands for a throwing `api.get`. The toast is the
method's `note: Option<string>` result, carrying the source's Portuguese
message text.

## Model

| member | source | states |
|---|---|---|
| CartLines.Find | src/hooks/useCart.tsx:43 | `find` yields nothing exactly when no line has the id, and otherwise the first line with that id |
| CartLines.FindFirst | src/hooks/useCart.tsx:43 | on any cart, `find` yields the line at the first index holding the id |
| CartLines.FindUnique | src/hooks/useCart.tsx:43 | with unique ids, `find` yields the one line that carries the id |
| CartLines.Without | src/hooks/useCart.tsx:97 | `filter` keeps only lines of the cart, none of them with the removed id; it shrinks the cart exactly when the cart holds the id, and never grows it |
| CartLines.WithoutMembers | src/hooks/useCart.tsx:97 | a line survives `filter` if and only if it was in the cart under another id |
| CartLines.WithoutAppend | src/hooks/useCart.tsx:97 | `filter` distributes over concatenation, so surviving lines keep their relative order |
| CartLines.WithoutAbsent | src/hooks/useCart.tsx:97 | filtering out an id the cart does not hold leaves the cart equal to itself |
| CartLines.WithoutLine | src/hooks/useCart.tsx:93-97 | with unique ids, removing the id of line i gives exactly the lines before i followed by the lines after i |
| CartLines.WithoutWellFormed | src/hooks/useCart.tsx:97 | filtering keeps ids unique and every amount at least one |
| CartLines.Incremented | src/hooks/useCart.tsx:70-73 | the add `map` keeps length, ids, order and display fields; lines of the id gain exactly one unit, the others are unchanged |
| CartLines.WithAmount | src/hooks/useCart.tsx:129-132 | the update `map` keeps length, ids, order and display fields; lines of the id take the requested amount, the others are unchanged |
| CartLines.IncrementedLine | src/hooks/useCart.tsx:70-73 | with unique ids, the increment changes only line i, by one unit |
| CartLines.WithAmountLine | src/hooks/useCart.tsx:129-132 | with unique ids, setting the amount changes only line i |
| CartLines.WithAmountAbsent | src/hooks/useCart.tsx:129-132 | setting the amount of an id the cart lacks yields the cart unchanged |
| CartSteps.AddStep | src/hooks/useCart.tsx:40-88 | a committed add has seen the stock and leaves the id in the cart, one line longer exactly when the id was new; a failed stock lookup always ends in "Erro na adição do produto"; the only toasts are that one and the out-of-stock one (each branch: the lemmas below) |
| CartSteps.AddNewLine | src/hooks/useCart.tsx:43-56 | new id, positive stock, product found: the cart is committed as the old cart followed by one line of that id with amount 1 |
| CartSteps.AddNoStock | src/hooks/useCart.tsx:46-58 | new id, stock at most zero, lookups answered: nothing is written and no toast is shown |
| CartSteps.AddAtCeiling | src/hooks/useCart.tsx:62-66 | first line of the id at or above stock (any cart, duplicates or not): refused with "Quantidade solicitada fora de estoque", nothing written |
| CartSteps.AddBelowCeiling | src/hooks/useCart.tsx:68-76 | with unique ids, id present below stock: committed cart differs from the old one only in that line's amount, which grows by one |
| CartSteps.AddBelowCeilingFirst | src/hooks/useCart.tsx:64-76 | on any cart, first line of the id below stock: every line of the id gains one unit, since only the first is compared with the stock |
| CartSteps.AddDuplicateExceedsStock | src/hooks/useCart.tsx:64-76 | a cart `[{1,1},{1,5}]` with stock 5 commits `[{1,2},{1,6}]`: a duplicate line can pass the stock |
| CartSteps.AddFromNegativeAmount | src/hooks/useCart.tsx:64-76 | a stored cart `[{1,-1}]` with stock 5 commits `[{1,0}]`: the add keeps amounts positive only on carts that had them |
| CartSteps.AddLookupFailure | src/hooks/useCart.tsx:44-50 | failed stock lookup, or failed product lookup for a new id (even with no stock): "Erro na adição do produto", nothing written |
| CartSteps.AddKeepsWellFormed | src/hooks/useCart.tsx:43-76 | on a well-formed cart, adding never creates a second line for an id and never writes a line without units |
| CartSteps.AddWithinStock | src/hooks/useCart.tsx:50-76 | with unique ids, after a committed add the id is in the cart and each of its lines is within the stock the call saw |
| CartSteps.RemoveStep | src/hooks/useCart.tsx:90-113 | removal commits exactly when the cart holds the id, and the committed cart is shorter and no longer holds it; otherwise the toast is "Erro na remoção do produto" (each branch: the lemmas below) |
| CartSteps.RemovePresent | src/hooks/useCart.tsx:93-99 | with unique ids, id present: committed cart is the old one without that line, others in order |
| CartSteps.RemoveAbsent | src/hooks/useCart.tsx:101-104 | id absent: refused with "Erro na remoção do produto", nothing written |
| CartSteps.RemoveKeepsWellFormed | src/hooks/useCart.tsx:93-99 | on a well-formed cart, removal keeps ids unique and amounts positive |
| CartSteps.UpdateStep | src/hooks/useCart.tsx:115-147 | the update does nothing exactly when the amount is at most one; a commit has seen the stock, keeps the length and carries an amount above one and within stock; the only toasts are "Erro na alteração de quantidade do produto" and the out-of-stock one (each branch: the lemmas below) |
| CartSteps.UpdateAtMostOne | src/hooks/useCart.tsx:119 | amount at most one: silent no-op whatever the stock |
| CartSteps.UpdateAboveStock | src/hooks/useCart.tsx:123-125 | amount above one and above stock: refused with the out-of-stock toast, nothing written |
| CartSteps.UpdateLookupFailure | src/hooks/useCart.tsx:141-144 | amount above one and failed stock lookup: "Erro na alteração de quantidade do produto", nothing written |
| CartSteps.UpdateSetsLine | src/hooks/useCart.tsx:127-135 | with unique ids, amount above one and within stock: the committed cart differs from the old one only in that line's amount, now the requested one |
| CartSteps.UpdateUnmatched | src/hooks/useCart.tsx:127-135 | amount above one and within stock for an id not in the cart: the cart is rewritten equal to the old one |
| CartSteps.UpdateKeepsWellFormed | src/hooks/useCart.tsx:127-135 | on a well-formed cart, updating keeps ids unique and amounts positive |
| CartSteps.UpdateWithinStock | src/hooks/useCart.tsx:123-132 | after a committed update every line of the id holds the requested amount, which is within the stock seen |
| CartSteps.StepKeepsWellFormed | src/hooks/useCart.tsx:40-147 | from a well-formed cart, each of the three operations keeps ids unique and amounts positive |
| CartSteps.RunKeepsWellFormed | src/hooks/useCart.tsx:40-147 | from a well-formed cart, any sequence of calls keeps ids unique and amounts positive |
| CartSteps.RepeatedAddAtCeiling | src/hooks/useCart.tsx:62-66 | n adds of an id whose first line is at its stock ceiling (any cart) leave the cart as it was and emit the out-of-stock toast n times |
| CartSteps.RunWithoutCommits | src/hooks/useCart.tsx:40-147 | calls that end in a toast or in nothing never change the cart |
| CartProvider.CartManager.constructor | src/hooks/useCart.tsx:26-38 | the initial cart is the stored one when the key is present and empty otherwise; state and storage agree |
| CartProvider.CartManager.AddProduct | src/hooks/useCart.tsx:40-88 | state and storage end as `AddStep` decides: both set to the new cart on commit, both untouched on a toast or silence; they still agree; well-formed carts stay so |
| CartProvider.CartManager.RemoveProduct | src/hooks/useCart.tsx:90-113 | state and storage end as `RemoveStep` decides, written together or not at all; they still agree; well-formed carts stay so |
| CartProvider.CartManager.UpdateProductAmount | src/hooks/useCart.tsx:115-147 | state and storage end as `UpdateStep` decides, written together or not at all; they still agree; well-formed carts stay so |

## Left out

- React plumbing (`createContext`, the `CartProvider` JSX, `useCart`): framework glue with no logic of its own.
- The `api` HTTP client: every call's result is an input (`Lookup`). The product service is assumed to answer with the product of the requested id, so a new line takes the requested id.
- `src/types` is not part of this model. Display fields are a `Details` value (title, price, image) that the model carries but never inspects.
- `toast` rendering: only the message string is recorded.
- `localStorage` and JSON: the store is the already-parsed cart, or `None` when the key is absent. The source also treats an empty stored string as absent. A malformed stored string makes `JSON.parse` throw during initialisation; that is not modelled.
- Storage write failures: `setCart` runs before `localStorage.setItem`. A throwing `setItem` would leave state updated and storage stale, followed by the operation's own error toast ("Erro na adição do produto", "Erro na remoção do produto" or "Erro na alteração de quantidade do produto"). In the model storage writes always succeed.
- Uniqueness of a stored cart: the initial load takes the stored value as it is, so a stored cart with a repeated id is kept. The lemmas stated "with unique ids" or "on a well-formed cart" hold for carts the hook itself built (`RunKeepsWellFormed`); on a cart with a repeated id, `AddBelowCeilingFirst` and `AddDuplicateExceedsStock` show what the add does.
- The `catch` of `removeProduct`: nothing in the modelled path can throw, so it is unreachable in the model.
- Concurrency: the `async` calls are atomic steps. The lost update between overlapping calls, and the in-place mutation of the shared line objects inside `cart.map` (visible to a concurrent call's snapshot), are not modelled; lines are values.
- JavaScript number semantics: amounts and stock are unbounded integers. Floating-point precision beyond 2^53 is not modelled.
