/** The cart hook as a stateful object: the cart held in React state and its
    copy under the `@RocketShoes:cart` key of local storage, changed together
    by the three operations. */
module CartProvider {
  import opened CartLines
  import opened CartSteps

  class CartManager {
    /** The `cart` React state. */
    var cart: seq<Product>
    /** The parsed value stored under `@RocketShoes:cart`; `None` when the key
        is absent. */
    var stored: Option<seq<Product>>

    /** State and storage agree: the storage holds the cart, or holds nothing
        and the cart is empty. */
    ghost predicate Valid()
      reads this
    {
      stored == Some(cart) || (stored == None && cart == [])
    }

    /** The state after a call ends in `o`, starting from `cart0` and `stored0`
        and returning the toast `note`: a commit writes state and storage
        together and emits nothing; anything else writes neither. */
    ghost predicate Settled(o: Outcome, cart0: seq<Product>, stored0: Option<seq<Product>>, note: Option<string>)
      reads this
    {
      match o
      case Commit(next) => cart == next && stored == Some(next) && note == None
      case Notify(message) => cart == cart0 && stored == stored0 && note == Some(message)
      case Silent => cart == cart0 && stored == stored0 && note == None
    }

    /** The initial cart: the stored one when the key is present, else empty. */
    constructor (storage: Option<seq<Product>>)
      ensures Valid()
      ensures stored == storage
      ensures cart == (if storage.Some? then storage.value else [])
    {
      stored := storage;
      if storage.Some? {
        cart := storage.value;
      } else {
        cart := [];
      }
    }

    method AddProduct(id: int, stock: Lookup<int>, product: Lookup<Details>) returns (note: Option<string>)
      requires Valid()
      modifies this
      ensures Valid()
      ensures Settled(AddStep(old(cart), id, stock, product), old(cart), old(stored), note)
      ensures WellFormed(old(cart)) ==> WellFormed(cart)
    {
      if WellFormed(cart) { AddKeepsWellFormed(cart, id, stock, product); }
      note := None;
      var inCart := Find(cart, id);
      if stock.Failed? {
        note := Some(AddFailed);
        return;
      }
      var available := stock.data;
      if inCart.None? {
        if product.Failed? {
          note := Some(AddFailed);
          return;
        }
        if available > 0 {
          var next := cart + [Product(id, 1, product.data)];
          cart := next;
          stored := Some(next);
        }
      }
      if inCart.Some? {
        if inCart.value.amount >= available {
          note := Some(OutOfStock);
        } else {
          var next := Incremented(cart, id);
          cart := next;
          stored := Some(next);
        }
      }
    }

    method RemoveProduct(id: int) returns (note: Option<string>)
      requires Valid()
      modifies this
      ensures Valid()
      ensures Settled(RemoveStep(old(cart), id), old(cart), old(stored), note)
      ensures WellFormed(old(cart)) ==> WellFormed(cart)
    {
      if WellFormed(cart) { RemoveKeepsWellFormed(cart, id); }
      note := None;
      var inCart := Find(cart, id);
      if inCart.Some? {
        var next := Without(cart, id);
        cart := next;
        stored := Some(next);
      } else {
        note := Some(RemoveFailed);
      }
    }

    method UpdateProductAmount(id: int, amount: int, stock: Lookup<int>) returns (note: Option<string>)
      requires Valid()
      modifies this
      ensures Valid()
      ensures Settled(UpdateStep(old(cart), id, amount, stock), old(cart), old(stored), note)
      ensures WellFormed(old(cart)) ==> WellFormed(cart)
    {
      if WellFormed(cart) { UpdateKeepsWellFormed(cart, id, amount, stock); }
      note := None;
      if amount > 1 {
        if stock.Failed? {
          note := Some(UpdateFailed);
          return;
        }
        if amount > stock.data {
          note := Some(OutOfStock);
        } else {
          var next := WithAmount(cart, id, amount);
          cart := next;
          stored := Some(next);
        }
      }
    }
  }

  /** Scenarios of a caller's session: a first add, a refused add at the
      stock ceiling, an update, a refused update and a removal. */
  method Scenarios(details: Details)
  {
    var m := new CartManager(None);
    assert m.cart == [];

    var note := m.AddProduct(42, Found(5), Found(details));
    assert m.cart == [Product(42, 1, details)] && m.stored == Some(m.cart) && note == None;

    note := m.AddProduct(42, Found(1), Failed);
    assert m.cart == [Product(42, 1, details)] && note == Some(OutOfStock);

    note := m.UpdateProductAmount(42, 3, Found(3));
    assert m.cart == [Product(42, 3, details)] && m.stored == Some(m.cart) && note == None;

    note := m.UpdateProductAmount(42, 5, Found(3));
    assert m.cart == [Product(42, 3, details)] && note == Some(OutOfStock);

    note := m.RemoveProduct(999);
    assert m.cart == [Product(42, 3, details)] && note == Some(RemoveFailed);

    note := m.RemoveProduct(42);
    assert m.cart == [] && m.stored == Some([]) && note == None;
  }
}
