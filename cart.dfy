/**
 * The cart store: a reducer over an ordered list of cart lines, the four folds
 * derived from it (count, subtotal, tax, total), and the store object whose
 * operations dispatch actions to the reducer.
 */
module Cart {
  import opened Catalog

  /** A cart line: the product as it was added, and how many of it. */
  datatype Line = Line(product: Product, quantity: int)

  /** The actions the reducer handles; `Other` is any unrecognised action type. */
  datatype Action =
    | AddItem(item: Product, quantity: int)
    | RemoveItem(id: int)
    | UpdateQuantity(id: int, quantity: int)
    | ClearCart
    | Other

  /** `payload.quantity || 1`: a zero quantity falls back to one. */
  function Requested(q: int): int
  {
    if q == 0 then 1 else q
  }

  predicate HasId(s: seq<Line>, id: int)
  {
    exists i :: 0 <= i < |s| && s[i].product.id == id
  }

  /** At most one line per product id. */
  ghost predicate UniqueIds(s: seq<Line>)
  {
    forall i, j :: 0 <= i < j < |s| ==> s[i].product.id != s[j].product.id
  }

  /** No line holds a quantity below one. */
  ghost predicate AllPositive(s: seq<Line>)
  {
    forall i :: 0 <= i < |s| ==> s[i].quantity >= 1
  }

  /** `state.find(item => item.id === id)`. */
  function Find(s: seq<Line>, id: int): (r: Option<Line>)
    ensures r.Some? <==> HasId(s, id)
    ensures r.Some? ==> r.value in s && r.value.product.id == id
  {
    if s == [] then None
    else if s[0].product.id == id then Some(s[0])
    else
      var r := Find(s[1..], id);
      assert HasId(s, id) <==> HasId(s[1..], id) by {
        if HasId(s, id) {
          var i :| 0 <= i < |s| && s[i].product.id == id;
          assert s[1..][i - 1] == s[i];
        }
        if HasId(s[1..], id) {
          var i :| 0 <= i < |s[1..]| && s[1..][i].product.id == id;
          assert s[i + 1] == s[1..][i];
        }
      }
      r
  }

  /** The `state.map` of ADD_ITEM: the lines with this id gain `q`. */
  function Bump(s: seq<Line>, id: int, q: int): seq<Line>
  {
    if s == [] then []
    else [if s[0].product.id == id then s[0].(quantity := s[0].quantity + q) else s[0]] + Bump(s[1..], id, q)
  }

  /** The `state.map` of UPDATE_QUANTITY: the lines with this id get quantity `q`. */
  function Reset(s: seq<Line>, id: int, q: int): seq<Line>
  {
    if s == [] then []
    else [if s[0].product.id == id then s[0].(quantity := q) else s[0]] + Reset(s[1..], id, q)
  }

  /** `state.filter(item => item.id !== id)`. */
  function Without(s: seq<Line>, id: int): seq<Line>
  {
    if s == [] then []
    else if s[0].product.id == id then Without(s[1..], id)
    else [s[0]] + Without(s[1..], id)
  }

  /** `cartReducer`. */
  function Reduce(state: seq<Line>, action: Action): seq<Line>
  {
    match action
    case AddItem(p, q) =>
      if Find(state, p.id).Some? then Bump(state, p.id, Requested(q))
      else state + [Line(p, Requested(q))]
    case RemoveItem(id) => Without(state, id)
    case UpdateQuantity(id, q) =>
      if q <= 0 then Without(state, id) else Reset(state, id, q)
    case ClearCart => []
    case Other => state
  }

  /** `cartCount`: the sum of the quantities. */
  function Count(s: seq<Line>): int
  {
    if s == [] then 0 else s[0].quantity + Count(s[1..])
  }

  /** `subtotal`: the sum of price times quantity, in cents. */
  function Subtotal(s: seq<Line>): int
  {
    if s == [] then 0 else s[0].product.price * s[0].quantity + Subtotal(s[1..])
  }

  /** `tax`: eight percent of the subtotal, kept exact. */
  function Tax(s: seq<Line>): real
  {
    Subtotal(s) as real * 0.08
  }

  /** `total`: subtotal plus tax. */
  function Total(s: seq<Line>): real
  {
    Subtotal(s) as real + Tax(s)
  }

  // ---------------------------------------------------------------------------
  // The map and filter helpers, element by element

  lemma {:induction false} BumpAt(s: seq<Line>, id: int, q: int)
    ensures |Bump(s, id, q)| == |s|
    ensures forall i :: 0 <= i < |s| ==>
      Bump(s, id, q)[i] == if s[i].product.id == id then s[i].(quantity := s[i].quantity + q) else s[i]
  {
    if s != [] {
      BumpAt(s[1..], id, q);
      forall i | 1 <= i < |s|
        ensures Bump(s, id, q)[i] == if s[i].product.id == id then s[i].(quantity := s[i].quantity + q) else s[i]
      {
        assert Bump(s, id, q)[i] == Bump(s[1..], id, q)[i - 1];
        assert s[1..][i - 1] == s[i];
      }
    }
  }

  lemma {:induction false} ResetAt(s: seq<Line>, id: int, q: int)
    ensures |Reset(s, id, q)| == |s|
    ensures forall i :: 0 <= i < |s| ==>
      Reset(s, id, q)[i] == if s[i].product.id == id then s[i].(quantity := q) else s[i]
  {
    if s != [] {
      ResetAt(s[1..], id, q);
      forall i | 1 <= i < |s|
        ensures Reset(s, id, q)[i] == if s[i].product.id == id then s[i].(quantity := q) else s[i]
      {
        assert Reset(s, id, q)[i] == Reset(s[1..], id, q)[i - 1];
        assert s[1..][i - 1] == s[i];
      }
    }
  }

  /** Filtering out an id keeps exactly the ids other than it. */
  lemma {:induction false} WithoutIds(s: seq<Line>, id: int, x: int)
    ensures HasId(Without(s, id), x) <==> HasId(s, x) && x != id
  {
    if s != [] {
      WithoutIds(s[1..], id, x);
      var w := Without(s[1..], id);
      assert HasId(s, x) <==> s[0].product.id == x || HasId(s[1..], x) by {
        if HasId(s, x) {
          var i :| 0 <= i < |s| && s[i].product.id == x;
          if i > 0 { assert s[1..][i - 1] == s[i]; }
        }
        if HasId(s[1..], x) {
          var i :| 0 <= i < |s[1..]| && s[1..][i].product.id == x;
          assert s[i + 1] == s[1..][i];
        }
      }
      if s[0].product.id != id {
        assert HasId([s[0]] + w, x) <==> s[0].product.id == x || HasId(w, x) by {
          assert ([s[0]] + w)[0] == s[0];
          if HasId([s[0]] + w, x) {
            var i :| 0 <= i < |[s[0]] + w| && ([s[0]] + w)[i].product.id == x;
            if i > 0 { assert ([s[0]] + w)[i] == w[i - 1]; }
          }
          if HasId(w, x) {
            var i :| 0 <= i < |w| && w[i].product.id == x;
            assert ([s[0]] + w)[i + 1] == w[i];
          }
        }
      }
    }
  }

  lemma {:induction false} WithoutUnique(s: seq<Line>, id: int)
    requires UniqueIds(s)
    ensures UniqueIds(Without(s, id))
  {
    if s != [] {
      assert UniqueIds(s[1..]) by {
        forall i, j | 0 <= i < j < |s[1..]| ensures s[1..][i].product.id != s[1..][j].product.id {
          assert s[1..][i] == s[i + 1] && s[1..][j] == s[j + 1];
        }
      }
      WithoutUnique(s[1..], id);
      if s[0].product.id != id {
        var w := Without(s[1..], id);
        WithoutIds(s[1..], id, s[0].product.id);
        assert !HasId(s[1..], s[0].product.id) by {
          forall i | 0 <= i < |s[1..]| ensures s[1..][i].product.id != s[0].product.id {
            assert s[1..][i] == s[i + 1];
          }
        }
        forall i, j | 0 <= i < j < |[s[0]] + w|
          ensures ([s[0]] + w)[i].product.id != ([s[0]] + w)[j].product.id
        {
          assert ([s[0]] + w)[j] == w[j - 1];
          if i > 0 { assert ([s[0]] + w)[i] == w[i - 1]; }
        }
      }
    }
  }

  lemma {:induction false} WithoutPositive(s: seq<Line>, id: int)
    requires AllPositive(s)
    ensures AllPositive(Without(s, id))
  {
    if s != [] {
      assert AllPositive(s[1..]) by {
        forall i | 0 <= i < |s[1..]| ensures s[1..][i].quantity >= 1 { assert s[1..][i] == s[i + 1]; }
      }
      WithoutPositive(s[1..], id);
    }
  }

  /** Filtering out an id that no line has changes nothing. */
  lemma {:induction false} WithoutAbsent(s: seq<Line>, id: int)
    requires !HasId(s, id)
    ensures Without(s, id) == s
  {
    if s != [] {
      assert s[0].product.id != id;
      assert !HasId(s[1..], id) by {
        forall i | 0 <= i < |s[1..]| ensures s[1..][i].product.id != id { assert s[1..][i] == s[i + 1]; }
      }
      WithoutAbsent(s[1..], id);
      assert s == [s[0]] + s[1..];
    }
  }

  /** In a cart with unique ids, filtering out the id of line `k` deletes exactly that line. */
  lemma {:induction false} WithoutAt(s: seq<Line>, id: int, k: int)
    requires UniqueIds(s)
    requires 0 <= k < |s| && s[k].product.id == id
    ensures Without(s, id) == s[..k] + s[k + 1..]
  {
    var rest := s[k + 1..];
    assert !HasId(rest, id) by {
      forall i | 0 <= i < |rest| ensures rest[i].product.id != id { assert rest[i] == s[k + 1 + i]; }
    }
    if k == 0 {
      WithoutAbsent(s[1..], id);
    } else {
      assert s[0].product.id != id;
      assert UniqueIds(s[1..]) by {
        forall i, j | 0 <= i < j < |s[1..]| ensures s[1..][i].product.id != s[1..][j].product.id {
          assert s[1..][i] == s[i + 1] && s[1..][j] == s[j + 1];
        }
      }
      assert s[1..][k - 1] == s[k];
      WithoutAt(s[1..], id, k - 1);
      assert [s[0]] + s[1..][..k - 1] == s[..k];
      assert s[1..][k..] == s[k + 1..];
    }
  }

  lemma {:induction false} CountAppend(s: seq<Line>, t: seq<Line>)
    ensures Count(s + t) == Count(s) + Count(t)
    ensures Subtotal(s + t) == Subtotal(s) + Subtotal(t)
  {
    if s == [] {
      assert s + t == t;
    } else {
      assert (s + t)[1..] == s[1..] + t;
      CountAppend(s[1..], t);
    }
  }

  /** Raising line `k` (the only line with `id`) by `q` raises the count by `q` and the subtotal by its price times `q`. */
  lemma {:induction false} BumpTotals(s: seq<Line>, id: int, q: int, k: int)
    requires UniqueIds(s)
    requires 0 <= k < |s| && s[k].product.id == id
    ensures Count(Bump(s, id, q)) == Count(s) + q
    ensures Subtotal(Bump(s, id, q)) == Subtotal(s) + s[k].product.price * q
  {
    var p := s[0].product.price;
    if k == 0 {
      assert !HasId(s[1..], id) by {
        forall i | 0 <= i < |s[1..]| ensures s[1..][i].product.id != id { assert s[1..][i] == s[i + 1]; }
      }
      BumpAt(s[1..], id, q);
      assert Bump(s[1..], id, q) == s[1..];
      assert p * (s[0].quantity + q) == p * s[0].quantity + p * q;
    } else {
      assert UniqueIds(s[1..]) by {
        forall i, j | 0 <= i < j < |s[1..]| ensures s[1..][i].product.id != s[1..][j].product.id {
          assert s[1..][i] == s[i + 1] && s[1..][j] == s[j + 1];
        }
      }
      assert s[1..][k - 1] == s[k];
      BumpTotals(s[1..], id, q, k - 1);
    }
  }

  // ---------------------------------------------------------------------------
  // What each action does

  /**
   * ADD_ITEM: for an id already in the cart, only that line's quantity grows,
   * by `quantity || 1`; for a new id exactly one line is appended at the end.
   */
  lemma AddItemEffect(s: seq<Line>, p: Product, q: int)
    ensures HasId(s, p.id) ==>
      |Reduce(s, AddItem(p, q))| == |s|
      && forall i :: 0 <= i < |s| ==>
        Reduce(s, AddItem(p, q))[i]
          == if s[i].product.id == p.id then s[i].(quantity := s[i].quantity + Requested(q)) else s[i]
    ensures !HasId(s, p.id) ==> Reduce(s, AddItem(p, q)) == s + [Line(p, Requested(q))]
    ensures Requested(q) >= 1 <== q >= 0
  {
    BumpAt(s, p.id, Requested(q));
  }

  /** REMOVE_ITEM deletes the one line with that id, keeping the rest in order; it is a no-op for an absent id. */
  lemma RemoveItemEffect(s: seq<Line>, id: int)
    requires UniqueIds(s)
    ensures !HasId(s, id) ==> Reduce(s, RemoveItem(id)) == s
    ensures forall k :: 0 <= k < |s| && s[k].product.id == id ==>
      Reduce(s, RemoveItem(id)) == s[..k] + s[k + 1..]
    ensures !HasId(Reduce(s, RemoveItem(id)), id)
  {
    if !HasId(s, id) {
      WithoutAbsent(s, id);
    }
    forall k | 0 <= k < |s| && s[k].product.id == id ensures Without(s, id) == s[..k] + s[k + 1..] {
      WithoutAt(s, id, k);
    }
    WithoutIds(s, id, id);
  }

  /**
   * UPDATE_QUANTITY with a quantity of zero or less is a removal; otherwise only the
   * matching line's quantity is set, and an absent id leaves the cart as it was.
   */
  lemma UpdateQuantityEffect(s: seq<Line>, id: int, q: int)
    ensures q <= 0 ==> Reduce(s, UpdateQuantity(id, q)) == Reduce(s, RemoveItem(id))
    ensures q > 0 ==>
      |Reduce(s, UpdateQuantity(id, q))| == |s|
      && forall i :: 0 <= i < |s| ==>
        Reduce(s, UpdateQuantity(id, q))[i] == if s[i].product.id == id then s[i].(quantity := q) else s[i]
    ensures !HasId(s, id) ==> Reduce(s, UpdateQuantity(id, q)) == s
  {
    ResetAt(s, id, q);
    if !HasId(s, id) {
      WithoutAbsent(s, id);
    }
  }

  /** CLEAR_CART empties the cart; an unrecognised action leaves it as it was. */
  lemma ClearAndOtherEffect(s: seq<Line>)
    ensures Reduce(s, ClearCart) == [] && Count(Reduce(s, ClearCart)) == 0
    ensures Reduce(s, Other) == s
  {
  }

  /** Every action keeps at most one line per id. */
  lemma ReduceKeepsUnique(s: seq<Line>, a: Action)
    requires UniqueIds(s)
    ensures UniqueIds(Reduce(s, a))
  {
    match a
    case AddItem(p, q) =>
      BumpAt(s, p.id, Requested(q));
    case RemoveItem(id) =>
      WithoutUnique(s, id);
    case UpdateQuantity(id, q) =>
      ResetAt(s, id, q);
      WithoutUnique(s, id);
    case ClearCart =>
    case Other =>
  }

  /** Every action keeps every quantity at one or more, provided an added quantity is not negative. */
  lemma ReduceKeepsPositive(s: seq<Line>, a: Action)
    requires AllPositive(s)
    requires a.AddItem? ==> a.quantity >= 0
    ensures AllPositive(Reduce(s, a))
  {
    match a
    case AddItem(p, q) =>
      BumpAt(s, p.id, Requested(q));
    case RemoveItem(id) =>
      WithoutPositive(s, id);
    case UpdateQuantity(id, q) =>
      ResetAt(s, id, q);
      WithoutPositive(s, id);
    case ClearCart =>
    case Other =>
  }

  /**
   * Adding raises the count by the added quantity and the subtotal by the price of
   * the line that receives it: the existing line's price, or the new product's.
   */
  lemma AddItemTotals(s: seq<Line>, p: Product, q: int)
    requires UniqueIds(s)
    ensures Count(Reduce(s, AddItem(p, q))) == Count(s) + Requested(q)
    ensures Subtotal(Reduce(s, AddItem(p, q)))
      == Subtotal(s) + (match Find(s, p.id) case Some(l) => l.product.price case None => p.price) * Requested(q)
  {
    var f := Find(s, p.id);
    if f.Some? {
      var k :| 0 <= k < |s| && s[k] == f.value;
      BumpTotals(s, p.id, Requested(q), k);
    } else {
      CountAppend(s, [Line(p, Requested(q))]);
    }
  }

  /** Removing the line with an id lowers the count by its quantity and the subtotal by its amount. */
  lemma RemoveItemTotals(s: seq<Line>, id: int, k: int)
    requires UniqueIds(s)
    requires 0 <= k < |s| && s[k].product.id == id
    ensures Count(Reduce(s, RemoveItem(id))) == Count(s) - s[k].quantity
    ensures Subtotal(Reduce(s, RemoveItem(id))) == Subtotal(s) - s[k].product.price * s[k].quantity
  {
    WithoutAt(s, id, k);
    TotalsSplit(s, k);
    CountAppend(s[..k], s[k + 1..]);
  }

  /** The totals of a cart are those of the lines before `k`, line `k` and the lines after it. */
  lemma TotalsSplit(s: seq<Line>, k: int)
    requires 0 <= k < |s|
    ensures Count(s) == Count(s[..k]) + s[k].quantity + Count(s[k + 1..])
    ensures Subtotal(s) == Subtotal(s[..k]) + s[k].product.price * s[k].quantity + Subtotal(s[k + 1..])
  {
    var line, after := s[k], s[k + 1..];
    assert s == s[..k] + ([line] + after);
    CountAppend(s[..k], [line] + after);
    assert ([line] + after)[1..] == after;
  }

  /** The empty cart counts nothing and costs nothing. */
  lemma EmptyCartTotals()
    ensures Count([]) == 0 && Subtotal([]) == 0 && Tax([]) == 0.0 && Total([]) == 0.0
  {
  }

  /** Tax is exactly eight percent of the subtotal, and the total is their sum. */
  lemma TaxAndTotal(s: seq<Line>)
    ensures 100.0 * Tax(s) == 8.0 * Subtotal(s) as real
    ensures Total(s) == Subtotal(s) as real * 1.08
  {
  }

  /**
   * Two of a 10.00 item and one of a 5.50 item: a subtotal of 25.50,
   * tax of 2.04 and a total of 27.54.
   */
  lemma TotalsExample(a: Product, b: Product)
    requires a.price == 1000 && b.price == 550
    ensures var s := [Line(a, 2), Line(b, 1)];
      Count(s) == 3 && Subtotal(s) == 2550 && Tax(s) == 204.0 && Total(s) == 2754.0
  {
    var s := [Line(a, 2), Line(b, 1)];
    assert s[1..] == [Line(b, 1)] && s[1..][1..] == [];
    assert Count(s[1..]) == 1 && Subtotal(s[1..]) == 550;
  }

  /** The cart after a run of additions of one product, starting from `s`: `qs` in order, the last one last. */
  function AddAll(s: seq<Line>, p: Product, qs: seq<int>): seq<Line>
  {
    if qs == [] then s else Reduce(AddAll(s, p, qs[..|qs| - 1]), AddItem(p, qs[|qs| - 1]))
  }

  function Sum(qs: seq<int>): int
  {
    if qs == [] then 0 else Sum(qs[..|qs| - 1]) + qs[|qs| - 1]
  }

  /**
   * Repeated additions of one product to a cart that lacks it leave exactly one line
   * for it, at the end, whose quantity is the sum of the quantities added.
   */
  lemma {:induction false} AddAllOneLine(s: seq<Line>, p: Product, qs: seq<int>)
    requires !HasId(s, p.id)
    requires qs != []
    requires forall i :: 0 <= i < |qs| ==> qs[i] >= 1
    ensures AddAll(s, p, qs) == s + [Line(p, Sum(qs))]
  {
    var init, last := qs[..|qs| - 1], qs[|qs| - 1];
    if init == [] {
      assert !Find(s, p.id).Some?;
      assert AddAll(s, p, init) == s;
      assert Sum(qs) == last;
    } else {
      AddAllOneLine(s, p, init);
      AddToLastLine(s, p, Sum(init), last);
    }
  }

  /** Adding a positive quantity of the product on the last line raises that line only. */
  lemma AddToLastLine(s: seq<Line>, p: Product, q0: int, q: int)
    requires !HasId(s, p.id) && q >= 1
    ensures Reduce(s + [Line(p, q0)], AddItem(p, q)) == s + [Line(p, q0 + q)]
  {
    var t := s + [Line(p, q0)];
    assert t[|s|].product.id == p.id;
    assert Find(t, p.id).Some?;
    BumpLast(s, Line(p, q0), q);
  }

  lemma BumpLast(s: seq<Line>, l: Line, q: int)
    requires !HasId(s, l.product.id)
    ensures Bump(s + [l], l.product.id, q) == s + [l.(quantity := l.quantity + q)]
  {
    BumpAt(s + [l], l.product.id, q);
    assert forall i :: 0 <= i < |s| ==> (s + [l])[i] == s[i];
  }

  // ---------------------------------------------------------------------------
  // The store

  /**
   * The cart provider: the current lines, replaced by each dispatched action.
   * Writing the lines through to local storage is not modelled.
   */
  class CartStore {
    var items: seq<Line>

    ghost predicate Valid()
      reads this
    {
      UniqueIds(items) && AllPositive(items)
    }

    /** Restores the cart from storage, defaulting to an empty cart. */
    constructor (stored: Option<seq<Line>>)
      ensures items == if stored.Some? then stored.value else []
      ensures stored.None? ==> Valid()
    {
      items := if stored.Some? then stored.value else [];
    }

    function CartCount(): int
      reads this
    {
      Count(items)
    }

    function CartSubtotal(): int
      reads this
    {
      Subtotal(items)
    }

    function CartTax(): real
      reads this
    {
      Tax(items)
    }

    function CartTotal(): real
      reads this
    {
      Total(items)
    }

    method Dispatch(action: Action)
      modifies this
      ensures items == Reduce(old(items), action)
      ensures old(Valid()) && (action.AddItem? ==> action.quantity >= 0) ==> Valid()
    {
      if Valid() && (action.AddItem? ==> action.quantity >= 0) {
        ReduceKeepsUnique(items, action);
        ReduceKeepsPositive(items, action);
      }
      items := Reduce(items, action);
    }

    /** `addToCart(product, quantity = 1)`. */
    method AddToCart(product: Product, quantity: int := 1)
      modifies this
      ensures items == Reduce(old(items), AddItem(product, quantity))
      ensures old(Valid()) && quantity >= 0 ==> Valid()
      ensures old(Valid()) ==> CartCount() == old(CartCount()) + Requested(quantity)
    {
      if Valid() {
        AddItemTotals(items, product, quantity);
      }
      Dispatch(AddItem(product, quantity));
    }

    /** `removeFromCart(id)`. */
    method RemoveFromCart(id: int)
      modifies this
      ensures items == Reduce(old(items), RemoveItem(id))
      ensures old(Valid()) ==> Valid() && !HasId(items, id)
    {
      if Valid() {
        RemoveItemEffect(items, id);
      }
      Dispatch(RemoveItem(id));
    }

    /** `updateQuantity(id, quantity)`. */
    method UpdateQuantity(id: int, quantity: int)
      modifies this
      ensures items == Reduce(old(items), Action.UpdateQuantity(id, quantity))
      ensures old(Valid()) ==> Valid()
    {
      Dispatch(Action.UpdateQuantity(id, quantity));
    }

    /** `clearCart()`. */
    method ClearCart()
      modifies this
      ensures items == [] && Valid()
    {
      Dispatch(Action.ClearCart);
    }
  }
}
