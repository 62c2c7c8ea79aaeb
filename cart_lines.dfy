/** Cart lines and the three list transforms the cart hook applies to them:
    `find` (look a line up by id), `filter` (drop the lines of an id) and
    `map` (change the amount of the lines of an id). */
module CartLines {

  datatype Option<+T> = None | Some(value: T)

  /** Display fields of a product; this model carries them untouched. */
  datatype Details = Details(title: string, price: real, image: string)

  /** One cart line. */
  datatype Product = Product(id: int, amount: int, details: Details)

  predicate HasId(cart: seq<Product>, id: int)
  {
    exists i :: 0 <= i < |cart| && cart[i].id == id
  }

  /** No two lines share an id. */
  predicate Unique(cart: seq<Product>)
  {
    forall i, j :: 0 <= i < j < |cart| ==> cart[i].id != cart[j].id
  }

  /** The shape every write of the cart hook keeps: ids are unique and every
      line holds at least one unit. */
  predicate WellFormed(cart: seq<Product>)
  {
    Unique(cart) && forall k :: 0 <= k < |cart| ==> 1 <= cart[k].amount
  }

  /** Index `i` holds the first line with the id. */
  predicate FirstAt(cart: seq<Product>, id: int, i: int)
  {
    0 <= i < |cart| && cart[i].id == id && forall j :: 0 <= j < i ==> cart[j].id != id
  }

  /** `cart.find(product => product.id === id)`: the first line with that id. */
  function Find(cart: seq<Product>, id: int): (r: Option<Product>)
    ensures r.None? <==> !HasId(cart, id)
    ensures r.Some? ==> exists i :: FirstAt(cart, id, i) && cart[i] == r.value
  {
    if cart == [] then None
    else if cart[0].id == id then Some(cart[0])
    else
      var r := Find(cart[1..], id);
      assert forall i :: 1 <= i < |cart| ==> cart[i] == cart[1..][i - 1];
      assert r.Some? ==> exists i :: FirstAt(cart, id, i) && cart[i] == r.value by {
        if r.Some? {
          var i :| FirstAt(cart[1..], id, i) && cart[1..][i] == r.value;
          assert FirstAt(cart, id, i + 1);
        }
      }
      r
  }

  /** Under unique ids, the line `Find` returns is the one line with that id. */
  lemma FindUnique(cart: seq<Product>, id: int, i: int)
    requires Unique(cart) && 0 <= i < |cart| && cart[i].id == id
    ensures Find(cart, id) == Some(cart[i])
  {
    assert FirstAt(cart, id, i);
    FindFirst(cart, id, i);
  }

  /** The line `Find` returns is the first line with the id, duplicates or not. */
  lemma FindFirst(cart: seq<Product>, id: int, i: int)
    requires FirstAt(cart, id, i)
    ensures Find(cart, id) == Some(cart[i])
  {
    assert HasId(cart, id);
    var r := Find(cart, id);
    var k :| FirstAt(cart, id, k) && cart[k] == r.value;
    assert k == i;
  }

  /** `cart.filter(product => product.id !== id)`. */
  function Without(cart: seq<Product>, id: int): (r: seq<Product>)
    ensures |r| <= |cart|
    ensures |r| < |cart| <==> HasId(cart, id)
    ensures forall k :: 0 <= k < |r| ==> r[k].id != id && r[k] in cart
  {
    if cart == [] then []
    else
      var rest := Without(cart[1..], id);
      assert cart[0].id != id ==> (HasId(cart, id) <==> HasId(cart[1..], id)) by {
        if cart[0].id != id && HasId(cart, id) {
          var i :| 0 <= i < |cart| && cart[i].id == id;
          assert cart[1..][i - 1] == cart[i];
        }
      }
      var r := (if cart[0].id == id then [] else [cart[0]]) + rest;
      assert forall k :: 0 <= k < |r| ==> r[k] == cart[0] || r[k] in rest;
      r
  }

  /** A line survives the filter exactly when it was in the cart under
      another id. */
  lemma {:induction false} WithoutMembers(cart: seq<Product>, id: int, p: Product)
    ensures p in Without(cart, id) <==> p in cart && p.id != id
  {
    if cart != [] {
      WithoutMembers(cart[1..], id, p);
      assert p in cart <==> p == cart[0] || p in cart[1..];
    }
  }

  /** Filtering a concatenation filters each part: the kept lines stay in
      their original order. */
  lemma {:induction false} WithoutAppend(a: seq<Product>, b: seq<Product>, id: int)
    ensures Without(a + b, id) == Without(a, id) + Without(b, id)
  {
    if a == [] {
      assert a + b == b;
    } else {
      assert (a + b)[1..] == a[1..] + b;
      WithoutAppend(a[1..], b, id);
    }
  }

  /** Filtering out an id the cart does not hold leaves it as it is. */
  lemma {:induction false} WithoutAbsent(cart: seq<Product>, id: int)
    requires !HasId(cart, id)
    ensures Without(cart, id) == cart
  {
    if cart != [] {
      assert forall i :: 0 <= i < |cart[1..]| ==> cart[1..][i] == cart[i + 1];
      WithoutAbsent(cart[1..], id);
      assert cart == [cart[0]] + cart[1..];
    }
  }

  /** With unique ids, the lines before and after the line of an id do not
      hold that id. */
  lemma UniqueAround(cart: seq<Product>, i: int)
    requires Unique(cart) && 0 <= i < |cart|
    ensures !HasId(cart[..i], cart[i].id) && !HasId(cart[i + 1..], cart[i].id)
  {
    forall k | 0 <= k < i ensures cart[..i][k].id != cart[i].id {
      assert cart[..i][k] == cart[k];
    }
    var after := cart[i + 1..];
    assert forall k :: 0 <= k < |after| ==> after[k] == cart[i + 1 + k];
    forall k | 0 <= k < |after| ensures after[k].id != cart[i].id {
      assert cart[i].id != cart[i + 1 + k].id;
    }
  }

  /** With unique ids, removing an id takes out exactly its one line and keeps
      the lines before and after it, in order. */
  lemma {:induction false} WithoutLine(cart: seq<Product>, id: int, i: int)
    requires Unique(cart) && 0 <= i < |cart| && cart[i].id == id
    ensures Without(cart, id) == cart[..i] + cart[i + 1..]
  {
    var tail := cart[1..];
    if i == 0 {
      UniqueAround(cart, 0);
      WithoutAbsent(tail, id);
    } else {
      assert cart[0].id != cart[i].id;
      assert Unique(tail) by {
        forall j, k | 0 <= j < k < |tail| ensures tail[j].id != tail[k].id {
          assert tail[j] == cart[j + 1] && tail[k] == cart[k + 1];
        }
      }
      assert tail[i - 1] == cart[i];
      WithoutLine(tail, id, i - 1);
      assert tail[..i - 1] == cart[1..i] && tail[i..] == cart[i + 1..];
      assert cart[..i] == [cart[0]] + cart[1..i];
    }
  }

  lemma WellFormedTail(cart: seq<Product>)
    requires WellFormed(cart) && cart != []
    ensures WellFormed(cart[1..])
  {
    var tail := cart[1..];
    assert forall k :: 0 <= k < |tail| ==> tail[k] == cart[k + 1];
  }

  lemma WellFormedCons(p: Product, rest: seq<Product>)
    requires WellFormed(rest) && 1 <= p.amount
    requires forall k :: 0 <= k < |rest| ==> rest[k].id != p.id
    ensures WellFormed([p] + rest)
  {
    var r := [p] + rest;
    assert forall k :: 1 <= k < |r| ==> r[k] == rest[k - 1];
  }

  /** Filtering keeps ids unique and amounts positive. */
  lemma {:induction false} WithoutWellFormed(cart: seq<Product>, id: int)
    requires WellFormed(cart)
    ensures WellFormed(Without(cart, id))
  {
    if cart != [] {
      var tail := cart[1..];
      WellFormedTail(cart);
      WithoutWellFormed(tail, id);
      var rest := Without(tail, id);
      if cart[0].id != id {
        assert Without(cart, id) == [cart[0]] + rest;
        forall k | 0 <= k < |rest| ensures rest[k].id != cart[0].id {
          var m :| 0 <= m < |tail| && tail[m] == rest[k];
          assert cart[0].id != cart[m + 1].id;
        }
        WellFormedCons(cart[0], rest);
      } else {
        assert Without(cart, id) == rest;
      }
    }
  }

  /** `cart.map` bumping the amount of every line with the id by one. */
  function Incremented(cart: seq<Product>, id: int): (r: seq<Product>)
    ensures |r| == |cart|
    ensures forall k :: 0 <= k < |cart| ==>
      r[k].id == cart[k].id && r[k].details == cart[k].details &&
      r[k].amount == (if cart[k].id == id then cart[k].amount + 1 else cart[k].amount)
  {
    if cart == [] then []
    else
      var p := cart[0];
      var rest := Incremented(cart[1..], id);
      var r := [if p.id == id then p.(amount := p.amount + 1) else p] + rest;
      assert forall k :: 1 <= k < |cart| ==> r[k] == rest[k - 1] && cart[k] == cart[1..][k - 1];
      r
  }

  /** `cart.map` setting the amount of every line with the id to `amount`. */
  function WithAmount(cart: seq<Product>, id: int, amount: int): (r: seq<Product>)
    ensures |r| == |cart|
    ensures forall k :: 0 <= k < |cart| ==>
      r[k].id == cart[k].id && r[k].details == cart[k].details &&
      r[k].amount == (if cart[k].id == id then amount else cart[k].amount)
  {
    if cart == [] then []
    else
      var p := cart[0];
      var rest := WithAmount(cart[1..], id, amount);
      var r := [if p.id == id then p.(amount := amount) else p] + rest;
      assert forall k :: 1 <= k < |cart| ==> r[k] == rest[k - 1] && cart[k] == cart[1..][k - 1];
      r
  }

  /** With unique ids, the increment touches exactly one line. */
  lemma IncrementedLine(cart: seq<Product>, id: int, i: int)
    requires Unique(cart) && 0 <= i < |cart| && cart[i].id == id
    ensures Incremented(cart, id) == cart[i := cart[i].(amount := cart[i].amount + 1)]
  {
    var r := Incremented(cart, id);
    forall k | 0 <= k < |cart| && k != i ensures r[k] == cart[k] {
      assert cart[k].id != id by {
        if k < i { assert cart[k].id != cart[i].id; } else { assert cart[i].id != cart[k].id; }
      }
    }
  }

  /** With unique ids, setting the amount touches exactly one line. */
  lemma WithAmountLine(cart: seq<Product>, id: int, amount: int, i: int)
    requires Unique(cart) && 0 <= i < |cart| && cart[i].id == id
    ensures WithAmount(cart, id, amount) == cart[i := cart[i].(amount := amount)]
  {
    var r := WithAmount(cart, id, amount);
    forall k | 0 <= k < |cart| && k != i ensures r[k] == cart[k] {
      assert cart[k].id != id by {
        if k < i { assert cart[k].id != cart[i].id; } else { assert cart[i].id != cart[k].id; }
      }
    }
  }

  /** Setting the amount of an id the cart does not hold rewrites it unchanged. */
  lemma WithAmountAbsent(cart: seq<Product>, id: int, amount: int)
    requires !HasId(cart, id)
    ensures WithAmount(cart, id, amount) == cart
  {
    var r := WithAmount(cart, id, amount);
    forall k | 0 <= k < |cart| ensures r[k] == cart[k] {
      assert cart[k].id != id;
    }
  }
}
