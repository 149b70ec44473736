/**
 * The wishlist store: saved products kept in insertion order, at most one per id,
 * with add, remove, membership and toggle.
 */
module Wishlist {
  import opened Catalog
  import opened Lists

  /** `items.some(item => item.id === id)`. */
  function IsIn(s: seq<Product>, id: int): (b: bool)
    ensures b <==> exists i :: 0 <= i < |s| && s[i].id == id
  {
    if s == [] then false
    else if s[0].id == id then true
    else
      var b := IsIn(s[1..], id);
      assert b <==> exists i :: 1 <= i < |s| && s[i].id == id by {
        if b {
          var i :| 0 <= i < |s[1..]| && s[1..][i].id == id;
          assert s[i + 1] == s[1..][i];
        }
        if exists i :: 1 <= i < |s| && s[i].id == id {
          var i :| 1 <= i < |s| && s[i].id == id;
          assert s[1..][i - 1] == s[i];
        }
      }
      b
  }

  /** At most one saved product per id. */
  ghost predicate UniqueIds(s: seq<Product>)
  {
    forall i, j :: 0 <= i < j < |s| ==> s[i].id != s[j].id
  }

  /** The state updater of `addToWishlist`. */
  function Added(s: seq<Product>, p: Product): seq<Product>
  {
    if IsIn(s, p.id) then s else s + [p]
  }

  /** The keep test of `removeFromWishlist`: `item.id !== id`. */
  function OtherThan(id: int): Product -> bool
  {
    (p: Product) => p.id != id
  }

  /** The state updater of `removeFromWishlist`: `prev.filter(item => item.id !== id)`. */
  function Removed(s: seq<Product>, id: int): seq<Product>
  {
    Filter(s, OtherThan(id))
  }

  /** `toggleWishlist`: remove when present, add otherwise. */
  function Toggled(s: seq<Product>, p: Product): seq<Product>
  {
    if IsIn(s, p.id) then Removed(s, p.id) else Added(s, p)
  }

  /** Removing an id keeps exactly the other ids. */
  lemma {:induction false} RemovedIds(s: seq<Product>, id: int, x: int)
    ensures IsIn(Removed(s, id), x) <==> IsIn(s, x) && x != id
  {
    if s != [] {
      RemovedIds(s[1..], id, x);
      var r := Removed(s[1..], id);
      assert IsIn([s[0]] + r, x) <==> s[0].id == x || IsIn(r, x) by {
        assert ([s[0]] + r)[1..] == r;
      }
    }
  }

  /** Removing an id no product has leaves the list as it was. */
  lemma {:induction false} RemovedAbsent(s: seq<Product>, id: int)
    requires !IsIn(s, id)
    ensures Removed(s, id) == s
  {
    if s != [] {
      RemovedAbsent(s[1..], id);
      assert s == [s[0]] + s[1..];
    }
  }

  /** In a list with unique ids, removing the id of item `k` deletes exactly that item, keeping the order of the rest. */
  lemma {:induction false} RemovedAt(s: seq<Product>, id: int, k: int)
    requires UniqueIds(s)
    requires 0 <= k < |s| && s[k].id == id
    ensures Removed(s, id) == s[..k] + s[k + 1..]
  {
    var rest := s[k + 1..];
    assert !IsIn(rest, id) by {
      forall i | 0 <= i < |rest| ensures rest[i].id != id { assert rest[i] == s[k + 1 + i]; }
    }
    if k == 0 {
      RemovedAbsent(s[1..], id);
    } else {
      assert UniqueIds(s[1..]) by {
        forall i, j | 0 <= i < j < |s[1..]| ensures s[1..][i].id != s[1..][j].id {
          assert s[1..][i] == s[i + 1] && s[1..][j] == s[j + 1];
        }
      }
      assert s[1..][k - 1] == s[k];
      RemovedAt(s[1..], id, k - 1);
      assert [s[0]] + s[1..][..k - 1] == s[..k];
      assert s[1..][k..] == rest;
    }
  }

  lemma {:induction false} RemovedUnique(s: seq<Product>, id: int)
    requires UniqueIds(s)
    ensures UniqueIds(Removed(s, id))
  {
    if s != [] {
      assert UniqueIds(s[1..]) by {
        forall i, j | 0 <= i < j < |s[1..]| ensures s[1..][i].id != s[1..][j].id {
          assert s[1..][i] == s[i + 1] && s[1..][j] == s[j + 1];
        }
      }
      RemovedUnique(s[1..], id);
      if s[0].id != id {
        var r := Removed(s[1..], id);
        RemovedIds(s[1..], id, s[0].id);
        forall i, j | 0 <= i < j < |[s[0]] + r|
          ensures ([s[0]] + r)[i].id != ([s[0]] + r)[j].id
        {
          assert ([s[0]] + r)[j] == r[j - 1];
          if i > 0 { assert ([s[0]] + r)[i] == r[i - 1]; }
        }
      }
    }
  }

  /**
   * `addToWishlist` leaves the list alone when the id is already saved and otherwise
   * appends the product at the end; either way the ids stay unique.
   */
  lemma AddedEffect(s: seq<Product>, p: Product)
    requires UniqueIds(s)
    ensures IsIn(s, p.id) ==> Added(s, p) == s
    ensures !IsIn(s, p.id) ==> Added(s, p) == s + [p]
    ensures UniqueIds(Added(s, p))
    ensures forall x :: IsIn(Added(s, p), x) <==> IsIn(s, x) || x == p.id
  {
    forall x ensures IsIn(Added(s, p), x) <==> IsIn(s, x) || x == p.id {
      if !IsIn(s, p.id) {
        assert (s + [p])[|s|] == p;
        assert forall i :: 0 <= i < |s| ==> (s + [p])[i] == s[i];
      }
    }
  }

  /**
   * `removeFromWishlist` takes out the product with that id and keeps the rest
   * in order; an absent id is a no-op; ids stay unique.
   */
  lemma RemovedEffect(s: seq<Product>, id: int)
    requires UniqueIds(s)
    ensures !IsIn(s, id) ==> Removed(s, id) == s
    ensures forall k :: 0 <= k < |s| && s[k].id == id ==> Removed(s, id) == s[..k] + s[k + 1..]
    ensures forall x :: IsIn(Removed(s, id), x) <==> IsIn(s, x) && x != id
    ensures UniqueIds(Removed(s, id))
  {
    if !IsIn(s, id) {
      RemovedAbsent(s, id);
    }
    forall k | 0 <= k < |s| && s[k].id == id ensures Removed(s, id) == s[..k] + s[k + 1..] {
      RemovedAt(s, id, k);
    }
    forall x ensures IsIn(Removed(s, id), x) <==> IsIn(s, x) && x != id {
      RemovedIds(s, id, x);
    }
    RemovedUnique(s, id);
  }

  /** Toggling flips the membership of the product's id and of no other id, and keeps ids unique. */
  lemma ToggleFlips(s: seq<Product>, p: Product)
    requires UniqueIds(s)
    ensures IsIn(Toggled(s, p), p.id) <==> !IsIn(s, p.id)
    ensures forall x :: x != p.id ==> (IsIn(Toggled(s, p), x) <==> IsIn(s, x))
    ensures UniqueIds(Toggled(s, p))
  {
    RemovedEffect(s, p.id);
    AddedEffect(s, p);
  }

  /**
   * Toggling twice restores membership. A product that was absent leaves the list
   * exactly as it was; one that was present ends up moved to the end.
   */
  lemma ToggleTwice(s: seq<Product>, p: Product)
    requires UniqueIds(s)
    ensures IsIn(Toggled(Toggled(s, p), p), p.id) <==> IsIn(s, p.id)
    ensures !IsIn(s, p.id) ==> Toggled(Toggled(s, p), p) == s
    ensures IsIn(s, p.id) ==> Toggled(Toggled(s, p), p) == Removed(s, p.id) + [p]
  {
    ToggleFlips(s, p);
    ToggleFlips(Toggled(s, p), p);
    if !IsIn(s, p.id) {
      assert (s + [p])[|s|] == p;
      RemovedAt(s + [p], p.id, |s|);
      assert (s + [p])[..|s|] == s;
    }
  }

  /**
   * The wishlist provider: the saved products, replaced through each state updater.
   * Writing them through to local storage and the notifications are not modelled.
   */
  class WishlistStore {
    var items: seq<Product>

    ghost predicate Valid()
      reads this
    {
      UniqueIds(items)
    }

    /** Restores the wishlist from storage, defaulting to an empty list. */
    constructor (stored: Option<seq<Product>>)
      ensures items == if stored.Some? then stored.value else []
      ensures stored.None? ==> Valid()
    {
      items := if stored.Some? then stored.value else [];
    }

    /** `isInWishlist(id)`. */
    function IsInWishlist(id: int): (b: bool)
      reads this
      ensures b <==> exists i :: 0 <= i < |items| && items[i].id == id
    {
      IsIn(items, id)
    }

    /** `addToWishlist(product)`. */
    method AddToWishlist(p: Product)
      modifies this
      ensures items == Added(old(items), p)
      ensures old(Valid()) ==> Valid() && IsInWishlist(p.id)
    {
      if Valid() {
        AddedEffect(items, p);
      }
      items := Added(items, p);
    }

    /** `removeFromWishlist(id)`. */
    method RemoveFromWishlist(id: int)
      modifies this
      ensures items == Removed(old(items), id)
      ensures old(Valid()) ==> Valid() && !IsInWishlist(id)
    {
      if Valid() {
        RemovedEffect(items, id);
      }
      items := Removed(items, id);
    }

    /** `toggleWishlist(product)`: asks `isInWishlist` and then removes or adds. */
    method ToggleWishlist(p: Product)
      modifies this
      ensures items == Toggled(old(items), p)
      ensures old(Valid()) ==> Valid() && (IsInWishlist(p.id) <==> !old(IsInWishlist(p.id)))
    {
      if IsInWishlist(p.id) {
        RemoveFromWishlist(p.id);
      } else {
        AddToWishlist(p);
      }
    }
  }
}
