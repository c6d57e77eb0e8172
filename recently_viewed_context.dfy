/**
 * The recently viewed products (src/contexts/RecentlyViewedContext.tsx):
 * `[product, ...prev.filter(item => item.id !== product.id)].slice(0, 12)`.
 */
module RecentlyViewedContext {
  import opened Storefront

  const MaxRecentItems: nat := 12

  function RecentlyViewedAdded(prev: seq<Product>, p: Product): seq<Product>
  {
    Slice([p] + Without(prev, ProductId, p.id), 0, MaxRecentItems)
  }

  /** `clearRecentlyViewed` */
  function RecentlyViewedCleared(): seq<Product> { [] }

  /** The list after a view: the product first, then the other products in their previous order, cut to twelve. */
  lemma RecentlyViewedShape(prev: seq<Product>, p: Product)
    ensures var r := RecentlyViewedAdded(prev, p);
            var rest := Without(prev, ProductId, p.id);
            && 1 <= |r| <= MaxRecentItems
            && r[0] == p
            && r[1..] == rest[..Min(|rest|, MaxRecentItems - 1)]
            && !AnyHas(r[1..], ProductId, p.id)
  {
    var rest := Without(prev, ProductId, p.id);
    var r := RecentlyViewedAdded(prev, p);
    var whole := [p] + rest;
    assert r == whole[..Min(|whole|, MaxRecentItems)];
    assert r[1..] == rest[..Min(|rest|, MaxRecentItems - 1)];
    WithoutRemovesId(prev, ProductId, p.id);
    forall i | 0 <= i < |r[1..]| ensures ProductId(r[1..][i]) != p.id {
      assert r[1..][i] == rest[i];
      assert rest[i] in rest;
    }
  }

  /** Viewing the same product twice in a row gives the same list as viewing it once. */
  lemma RecentlyViewedIdempotent(prev: seq<Product>, p: Product)
    ensures RecentlyViewedAdded(RecentlyViewedAdded(prev, p), p) == RecentlyViewedAdded(prev, p)
  {
    var once := RecentlyViewedAdded(prev, p);
    RecentlyViewedShape(prev, p);
    var rest := once[1..];
    assert once == [p] + rest;
    WithoutAbsent(rest, ProductId, p.id);
    assert Without([p], ProductId, p.id) == [];
    WithoutAppend([p], rest, ProductId, p.id);
    assert Without(once, ProductId, p.id) == rest;
  }

  /** Distinct ids stay distinct, so the list never shows a product twice. */
  lemma RecentlyViewedUnique(prev: seq<Product>, p: Product)
    requires UniqueBy(prev, ProductId)
    ensures UniqueBy(RecentlyViewedAdded(prev, p), ProductId)
  {
    var rest := Without(prev, ProductId, p.id);
    WithoutUnique(prev, ProductId, p.id);
    WithoutRemovesId(prev, ProductId, p.id);
    var whole := [p] + rest;
    forall i, j | 0 <= i < j < |whole| ensures ProductId(whole[i]) != ProductId(whole[j]) {
      if i == 0 {
        assert whole[j] == rest[j - 1];
      } else {
        assert whole[i] == rest[i - 1] && whole[j] == rest[j - 1];
      }
    }
    var r := RecentlyViewedAdded(prev, p);
    assert r == whole[..Min(|whole|, MaxRecentItems)];
    forall i, j | 0 <= i < j < |r| ensures ProductId(r[i]) != ProductId(r[j]) {
      assert r[i] == whole[i] && r[j] == whole[j];
    }
  }
}
