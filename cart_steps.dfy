/** The decisions of the cart hook's three operations, as values: what each
    call does to the cart given the cart it starts from and the answers of the
    stock and product lookups it makes. */
module CartSteps {
  import opened CartLines

  /** Outcome of one `api.get` call: it throws, or it answers with data. */
  datatype Lookup<T> = Failed | Found(data: T)

  /** The toast messages the hook emits. */
  const OutOfStock: string := "Quantidade solicitada fora de estoque"
  const AddFailed: string := "Erro na adição do produto"
  const RemoveFailed: string := "Erro na remoção do produto"
  const UpdateFailed: string := "Erro na alteração de quantidade do produto"

  /** What one call ends in: a new cart written to state and storage, a toast
      with nothing written, or nothing at all. */
  datatype Outcome = Commit(next: seq<Product>) | Notify(message: string) | Silent

  /** The cart after an outcome. */
  function After(cart: seq<Product>, o: Outcome): seq<Product>
  {
    if o.Commit? then o.next else cart
  }

  /** `addProduct(id)`: `stock` answers `/stock/{id}` (its amount), `product`
      answers `/products/{id}` (asked only when the id is not in the cart). */
  function AddStep(cart: seq<Product>, id: int, stock: Lookup<int>, product: Lookup<Details>): (o: Outcome)
    ensures o.Commit? ==> stock.Found? && HasId(o.next, id) && |o.next| == |cart| + (if HasId(cart, id) then 0 else 1)
    ensures o.Notify? ==> o.message == AddFailed || o.message == OutOfStock
    ensures stock.Failed? ==> o == Notify(AddFailed)
  {
    var inCart := Find(cart, id);
    assert inCart.Some? ==> HasId(Incremented(cart, id), id) by {
      if inCart.Some? {
        var i :| FirstAt(cart, id, i) && cart[i] == inCart.value;
        assert Incremented(cart, id)[i].id == id;
      }
    }
    assert forall details :: (cart + [Product(id, 1, details)])[|cart|].id == id;
    match stock
    case Failed => Notify(AddFailed)
    case Found(available) =>
      if inCart.None? then
        match product
        case Failed => Notify(AddFailed)
        case Found(details) =>
          if available > 0 then Commit(cart + [Product(id, 1, details)]) else Silent
      else if inCart.value.amount >= available then Notify(OutOfStock)
      else Commit(Incremented(cart, id))
  }

  /** `removeProduct(id)`. */
  function RemoveStep(cart: seq<Product>, id: int): (o: Outcome)
    ensures o.Commit? <==> HasId(cart, id)
    ensures o.Commit? ==> !HasId(o.next, id) && |o.next| < |cart|
    ensures o.Notify? ==> o.message == RemoveFailed
  {
    if Find(cart, id).Some? then Commit(Without(cart, id)) else Notify(RemoveFailed)
  }

  /** `updateProductAmount({id, amount})`: `stock` answers `/stock/{id}`,
      which is asked only when `amount > 1`. */
  function UpdateStep(cart: seq<Product>, id: int, amount: int, stock: Lookup<int>): (o: Outcome)
    ensures o.Silent? <==> amount <= 1
    ensures o.Commit? ==> stock.Found? && 1 < amount <= stock.data && |o.next| == |cart|
    ensures o.Notify? ==> o.message == UpdateFailed || o.message == OutOfStock
  {
    if amount <= 1 then Silent
    else
      match stock
      case Failed => Notify(UpdateFailed)
      case Found(available) =>
        if amount > available then Notify(OutOfStock)
        else Commit(WithAmount(cart, id, amount))
  }

  // ---------------------------------------------------------------------
  // addProduct

  /** A new id with stock on hand is appended as one unit, at the end. */
  lemma AddNewLine(cart: seq<Product>, id: int, available: int, details: Details)
    requires !HasId(cart, id) && available > 0
    ensures AddStep(cart, id, Found(available), Found(details)) == Commit(cart + [Product(id, 1, details)])
  {
  }

  /** A new id without stock is silently ignored. */
  lemma AddNoStock(cart: seq<Product>, id: int, available: int, details: Details)
    requires !HasId(cart, id) && available <= 0
    ensures AddStep(cart, id, Found(available), Found(details)) == Silent
  {
  }

  /** When the first line of the id is already at (or above) its stock, the
      add is refused with the out-of-stock toast, whatever the product lookup
      would have said. */
  lemma AddAtCeiling(cart: seq<Product>, id: int, i: int, available: int, product: Lookup<Details>)
    requires FirstAt(cart, id, i) && cart[i].amount >= available
    ensures AddStep(cart, id, Found(available), product) == Notify(OutOfStock)
  {
    FindFirst(cart, id, i);
  }

  /** When the first line of the id is below its stock, every line of the id
      grows by one unit: only the first line is compared with the stock. */
  lemma AddBelowCeilingFirst(cart: seq<Product>, id: int, i: int, available: int, product: Lookup<Details>)
    requires FirstAt(cart, id, i) && cart[i].amount < available
    ensures AddStep(cart, id, Found(available), product) == Commit(Incremented(cart, id))
  {
    FindFirst(cart, id, i);
  }

  /** A cart that holds an id twice: the second line is pushed past the stock
      the call saw, since only the first line was checked. */
  lemma AddDuplicateExceedsStock(d: Details)
    ensures AddStep([Product(1, 1, d), Product(1, 5, d)], 1, Found(5), Failed) ==
      Commit([Product(1, 2, d), Product(1, 6, d)])
  {
    var cart := [Product(1, 1, d), Product(1, 5, d)];
    assert FirstAt(cart, 1, 0);
    AddBelowCeilingFirst(cart, 1, 0, 5, Failed);
    var r := Incremented(cart, 1);
    assert r[0] == Product(1, 2, d) && r[1] == Product(1, 6, d);
  }

  /** A stored line with a negative amount is bumped to zero units and
      written back: the add keeps positive amounts only on carts that had
      them. */
  lemma AddFromNegativeAmount(d: Details)
    ensures AddStep([Product(1, -1, d)], 1, Found(5), Failed) == Commit([Product(1, 0, d)])
  {
    var cart := [Product(1, -1, d)];
    assert FirstAt(cart, 1, 0);
    AddBelowCeilingFirst(cart, 1, 0, 5, Failed);
    assert Incremented(cart, 1)[0] == Product(1, 0, d);
  }

  /** A line below its stock grows by exactly one unit; no other line, the
      length or the order changes. */
  lemma AddBelowCeiling(cart: seq<Product>, id: int, i: int, available: int, product: Lookup<Details>)
    requires Unique(cart) && 0 <= i < |cart| && cart[i].id == id && cart[i].amount < available
    ensures AddStep(cart, id, Found(available), product) ==
      Commit(cart[i := cart[i].(amount := cart[i].amount + 1)])
  {
    FindUnique(cart, id, i);
    IncrementedLine(cart, id, i);
  }

  /** A failed stock lookup, or a failed product lookup for a new id, gives the
      generic add error; the product lookup comes before the stock test, so
      this holds even when there is no stock. */
  lemma AddLookupFailure(cart: seq<Product>, id: int, stock: Lookup<int>, product: Lookup<Details>)
    requires stock.Failed? || (!HasId(cart, id) && product.Failed?)
    ensures AddStep(cart, id, stock, product) == Notify(AddFailed)
  {
  }

  /** Adding never makes two lines share an id, and never writes a line with
      no units. */
  lemma AddKeepsWellFormed(cart: seq<Product>, id: int, stock: Lookup<int>, product: Lookup<Details>)
    requires WellFormed(cart)
    ensures WellFormed(After(cart, AddStep(cart, id, stock, product)))
  {
    var o := AddStep(cart, id, stock, product);
    if o.Commit? {
      if Find(cart, id).None? {
        var r := o.next;
        assert r == cart + [r[|cart|]] && r[|cart|].id == id;
        forall i, j | 0 <= i < j < |r| ensures r[i].id != r[j].id {
          if j == |cart| {
            assert r[i] == cart[i];
          } else {
            assert r[i] == cart[i] && r[j] == cart[j];
          }
        }
      }
    }
  }

  /** A committed add leaves the line of the id within the stock it saw. */
  lemma AddWithinStock(cart: seq<Product>, id: int, available: int, product: Lookup<Details>)
    requires Unique(cart)
    requires AddStep(cart, id, Found(available), product).Commit?
    ensures var r := AddStep(cart, id, Found(available), product).next;
      HasId(r, id) && forall k :: 0 <= k < |r| && r[k].id == id ==> r[k].amount <= available
  {
    var r := AddStep(cart, id, Found(available), product).next;
    match Find(cart, id)
    case None =>
      assert r[|cart|].id == id;
    case Some(line) =>
      var i :| FirstAt(cart, id, i) && cart[i] == line;
      IncrementedLine(cart, id, i);
      assert r[i].id == id;
  }

  // ---------------------------------------------------------------------
  // removeProduct

  /** Removing a present id drops its one line and keeps the others in order. */
  lemma RemovePresent(cart: seq<Product>, id: int, i: int)
    requires Unique(cart) && 0 <= i < |cart| && cart[i].id == id
    ensures RemoveStep(cart, id) == Commit(cart[..i] + cart[i + 1..])
  {
    FindUnique(cart, id, i);
    WithoutLine(cart, id, i);
  }

  /** Removing an absent id is refused with the removal toast. */
  lemma RemoveAbsent(cart: seq<Product>, id: int)
    requires !HasId(cart, id)
    ensures RemoveStep(cart, id) == Notify(RemoveFailed)
  {
  }

  lemma RemoveKeepsWellFormed(cart: seq<Product>, id: int)
    requires WellFormed(cart)
    ensures WellFormed(After(cart, RemoveStep(cart, id)))
  {
    WithoutWellFormed(cart, id);
  }

  // ---------------------------------------------------------------------
  // updateProductAmount

  /** An amount of one or less is silently ignored, whatever the stock. */
  lemma UpdateAtMostOne(cart: seq<Product>, id: int, amount: int, stock: Lookup<int>)
    requires amount <= 1
    ensures UpdateStep(cart, id, amount, stock) == Silent
  {
  }

  /** An amount above the stock is refused with the out-of-stock toast. */
  lemma UpdateAboveStock(cart: seq<Product>, id: int, amount: int, available: int)
    requires amount > 1 && amount > available
    ensures UpdateStep(cart, id, amount, Found(available)) == Notify(OutOfStock)
  {
  }

  /** A failed stock lookup gives the generic update error. */
  lemma UpdateLookupFailure(cart: seq<Product>, id: int, amount: int)
    requires amount > 1
    ensures UpdateStep(cart, id, amount, Failed) == Notify(UpdateFailed)
  {
  }

  /** An amount within the stock replaces the amount of the id's one line;
      no other line, the length or the order changes. */
  lemma UpdateSetsLine(cart: seq<Product>, id: int, i: int, amount: int, available: int)
    requires Unique(cart) && 0 <= i < |cart| && cart[i].id == id
    requires 1 < amount <= available
    ensures UpdateStep(cart, id, amount, Found(available)) == Commit(cart[i := cart[i].(amount := amount)])
  {
    WithAmountLine(cart, id, amount, i);
  }

  /** An amount within the stock for an id not in the cart rewrites the cart
      as it was. */
  lemma UpdateUnmatched(cart: seq<Product>, id: int, amount: int, available: int)
    requires !HasId(cart, id) && 1 < amount <= available
    ensures UpdateStep(cart, id, amount, Found(available)) == Commit(cart)
  {
    WithAmountAbsent(cart, id, amount);
  }

  lemma UpdateKeepsWellFormed(cart: seq<Product>, id: int, amount: int, stock: Lookup<int>)
    requires WellFormed(cart)
    ensures WellFormed(After(cart, UpdateStep(cart, id, amount, stock)))
  {
  }

  /** A committed update leaves every line of the id at the requested
      amount, within the stock it saw. */
  lemma UpdateWithinStock(cart: seq<Product>, id: int, amount: int, available: int)
    requires UpdateStep(cart, id, amount, Found(available)).Commit?
    ensures forall k :: 0 <= k < |cart| && cart[k].id == id ==>
      UpdateStep(cart, id, amount, Found(available)).next[k].amount == amount <= available
  {
  }

  // ---------------------------------------------------------------------
  // Sessions: a caller's calls, one after the other

  /** One call of the hook together with the answers its lookups get. */
  datatype Call =
    | AddProduct(id: int, stock: Lookup<int>, product: Lookup<Details>)
    | RemoveProduct(id: int)
    | UpdateProductAmount(id: int, amount: int, stock: Lookup<int>)

  function Step(cart: seq<Product>, c: Call): Outcome
  {
    match c
    case AddProduct(id, stock, product) => AddStep(cart, id, stock, product)
    case RemoveProduct(id) => RemoveStep(cart, id)
    case UpdateProductAmount(id, amount, stock) => UpdateStep(cart, id, amount, stock)
  }

  /** Runs the calls in order; gives the final cart and the toasts emitted. */
  function Run(cart: seq<Product>, calls: seq<Call>): (r: (seq<Product>, seq<string>))
    decreases |calls|
  {
    if calls == [] then (cart, [])
    else
      var o := Step(cart, calls[0]);
      var rest := Run(After(cart, o), calls[1..]);
      (rest.0, (if o.Notify? then [o.message] else []) + rest.1)
  }

  lemma StepKeepsWellFormed(cart: seq<Product>, c: Call)
    requires WellFormed(cart)
    ensures WellFormed(After(cart, Step(cart, c)))
  {
    match c
    case AddProduct(id, stock, product) => AddKeepsWellFormed(cart, id, stock, product);
    case RemoveProduct(id) => RemoveKeepsWellFormed(cart, id);
    case UpdateProductAmount(id, amount, stock) => UpdateKeepsWellFormed(cart, id, amount, stock);
  }

  /** No sequence of calls ever makes two lines share an id or leaves a line
      without units. */
  lemma {:induction false} RunKeepsWellFormed(cart: seq<Product>, calls: seq<Call>)
    requires WellFormed(cart)
    ensures WellFormed(Run(cart, calls).0)
    decreases |calls|
  {
    if calls != [] {
      StepKeepsWellFormed(cart, calls[0]);
      RunKeepsWellFormed(After(cart, Step(cart, calls[0])), calls[1..]);
    }
  }

  /** `n` copies of `x`. */
  function Repeat<T>(x: T, n: nat): (r: seq<T>)
    ensures |r| == n && forall k :: 0 <= k < n ==> r[k] == x
  {
    if n == 0 then [] else [x] + Repeat(x, n - 1)
  }

  /** Adding a line that is at its stock again and again never changes the
      cart and emits the out-of-stock toast every time. */
  lemma {:induction false} RepeatedAddAtCeiling(cart: seq<Product>, id: int, i: int, available: int,
                                                product: Lookup<Details>, n: nat)
    requires FirstAt(cart, id, i) && cart[i].amount >= available
    ensures Run(cart, Repeat(AddProduct(id, Found(available), product), n)) == (cart, Repeat(OutOfStock, n))
  {
    var calls := Repeat(AddProduct(id, Found(available), product), n);
    if n > 0 {
      AddAtCeiling(cart, id, i, available, product);
      assert calls[1..] == Repeat(AddProduct(id, Found(available), product), n - 1);
      RepeatedAddAtCeiling(cart, id, i, available, product, n - 1);
    }
  }

  /** Only committed calls change the cart: a run of calls that all end in a
      toast or in nothing leaves it as it was. */
  lemma {:induction false} RunWithoutCommits(cart: seq<Product>, calls: seq<Call>)
    requires forall k :: 0 <= k < |calls| ==> !Step(cart, calls[k]).Commit?
    ensures Run(cart, calls).0 == cart
    decreases |calls|
  {
    if calls != [] {
      assert forall k :: 0 <= k < |calls[1..]| ==> calls[1..][k] == calls[k + 1];
      RunWithoutCommits(cart, calls[1..]);
    }
  }
}
