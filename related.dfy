/**
 * The "related products" section of the product page: up to four other products of
 * the same category, in catalog order, loaded only when the product has a category.
 */
module Related {
  import opened Catalog
  import opened Lists

  /** How many related products are shown. */
  const MaxRelated: nat := 4

  /** `p.category === category && p.id !== excludeId`. */
  function Qualifies(category: string, excludeId: int): Product -> bool
  {
    (p: Product) => p.category == category && p.id != excludeId
  }

  /**
   * `allProducts.filter(...).slice(0, 4)`: the first four qualifying products of the
   * catalog (all of them when fewer qualify), in catalog order.
   */
  function RelatedProducts(all: seq<Product>, category: string, excludeId: int): (r: seq<Product>)
    ensures |r| == Min(MaxRelated, |Filter(all, Qualifies(category, excludeId))|)
    ensures r <= Filter(all, Qualifies(category, excludeId))
    ensures forall i :: 0 <= i < |r| ==> r[i].category == category && r[i].id != excludeId
  {
    var qualifying := Filter(all, Qualifies(category, excludeId));
    FilterSpec(all, Qualifies(category, excludeId));
    Slice(qualifying, 0, MaxRelated)
  }

  /** Filtering a concatenation filters each part. */
  lemma {:induction false} FilterConcat(a: seq<Product>, b: seq<Product>, keep: Product -> bool)
    ensures Filter(a + b, keep) == Filter(a, keep) + Filter(b, keep)
  {
    if a != [] {
      FilterConcat(a[1..], b, keep);
      assert (a + b)[1..] == a[1..] + b;
    } else {
      assert a + b == b;
    }
  }

  lemma {:induction false} SubseqPrefix(a: seq<Product>, k: nat)
    requires k <= |a|
    ensures Subseq(a[..k], a)
  {
    if k > 0 {
      SubseqPrefix(a[1..], k - 1);
      assert a[..k][1..] == a[1..][..k - 1];
    } else {
      assert a[..k] == [];
    }
  }

  /** The related products are a subsequence of the catalog. */
  lemma RelatedInCatalogOrder(all: seq<Product>, category: string, excludeId: int)
    ensures Subseq(RelatedProducts(all, category, excludeId), all)
  {
    var qualifying := Filter(all, Qualifies(category, excludeId));
    var r := RelatedProducts(all, category, excludeId);
    FilterSpec(all, Qualifies(category, excludeId));
    SubseqPrefix(qualifying, |r|);
    assert qualifying[..|r|] == r;
    SubseqTrans(r, qualifying, all);
  }

  /**
   * A qualifying product preceded in the catalog by fewer than four qualifying products
   * is selected, at the position given by how many of them precede it.
   */
  lemma RelatedTakesFirst(all: seq<Product>, category: string, excludeId: int, i: int)
    requires 0 <= i < |all| && all[i].category == category && all[i].id != excludeId
    requires |Filter(all[..i], Qualifies(category, excludeId))| < MaxRelated
    ensures var k := |Filter(all[..i], Qualifies(category, excludeId))|;
      k < |RelatedProducts(all, category, excludeId)| && RelatedProducts(all, category, excludeId)[k] == all[i]
  {
    var keep := Qualifies(category, excludeId);
    var before, rest := all[..i], all[i..];
    assert all == before + rest;
    FilterConcat(before, rest, keep);
    assert rest == [all[i]] + rest[1..];
    assert Filter(rest, keep) == [all[i]] + Filter(rest[1..], keep);
    var k := |Filter(before, keep)|;
    assert Filter(all, keep)[k] == all[i];
  }

  /** When no other product of the catalog has the category, nothing is related. */
  lemma NoneQualify(all: seq<Product>, category: string, excludeId: int)
    requires forall i :: 0 <= i < |all| ==> !(all[i].category == category && all[i].id != excludeId)
    ensures RelatedProducts(all, category, excludeId) == []
  {
    FilterSpec(all, Qualifies(category, excludeId));
  }

  /** The section's state: the products shown and whether a load is pending. */
  class RelatedSection {
    var products: seq<Product>
    var loading: bool

    /** `useState([])` and `useState(true)`. */
    constructor ()
      ensures products == [] && loading
    {
      products := [];
      loading := true;
    }

    /** The section renders exactly when loading has finished with a non-empty result. */
    function Renders(): (b: bool)
      reads this
      ensures b <==> !loading && |products| > 0
    {
      !loading && |products| > 0
    }

    /**
     * The effect for `category` and `excludeId`, run until its fetch settles.
     * `response` is the catalog the fetch returned, or `None` when it threw; `cancelled`
     * says whether the effect was cleaned up before that. A falsy category starts no
     * load and changes nothing. Otherwise loading is set; a response that arrives
     * uncancelled replaces the products with the related ones, and loading is cleared
     * unless the effect was cancelled. A failed fetch keeps the previous products.
     */
    method RunEffect(category: Option<string>, excludeId: int, response: Option<seq<Product>>, cancelled: bool)
      modifies this
      ensures category.None? || category.value == [] ==>
        products == old(products) && loading == old(loading)
      ensures category.Some? && category.value != [] ==>
        && loading == cancelled
        && products == (if response.Some? && !cancelled
                        then RelatedProducts(response.value, category.value, excludeId)
                        else old(products))
    {
      if category.None? || category.value == [] {
        return;
      }
      loading := true;
      if response.Some? && !cancelled {
        products := RelatedProducts(response.value, category.value, excludeId);
      }
      if !cancelled {
        loading := false;
      }
    }
  }

  /**
   * A product page without a category never shows the section, and one whose
   * category has no other product shows nothing either.
   */
  method SectionScenario(category: Option<string>, excludeId: int, catalog: seq<Product>) returns (shown: bool)
    requires category.Some? && category.value != [] ==>
      forall i :: 0 <= i < |catalog| ==> !(catalog[i].category == category.value && catalog[i].id != excludeId)
    ensures !shown
  {
    var section := new RelatedSection();
    section.RunEffect(category, excludeId, Some(catalog), false);
    if category.Some? && category.value != [] {
      NoneQualify(catalog, category.value, excludeId);
    }
    shown := section.Renders();
  }
}
