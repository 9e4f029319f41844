/** The home page's choice of which categories to feature (src/pages/Home.jsx). */
module Home {
  import Seqs
  import opened Catalog

  /** At most this many categories are shown. */
  const ShownCount: int := 8

  function Min(a: int, b: int): int {
    if a <= b then a else b
  }

  /** The candidates: active categories without a parent, in input order. */
  function ParentCategories(cats: seq<Category>): (r: seq<Category>)
    ensures forall c :: c in r ==> c in cats && !HasParent(c) && IsActive(c)
  {
    Seqs.Filter((c: Category) => !HasParent(c) && IsActive(c), cats)
  }

  /** Every active parentless category is a candidate. */
  lemma ParentCategoriesComplete(cats: seq<Category>, c: Category)
    requires c in cats && !HasParent(c) && IsActive(c)
    ensures c in ParentCategories(cats)
  {
    Seqs.FilterKeeps((c: Category) => !HasParent(c) && IsActive(c), cats, c);
  }

  function Featured(parents: seq<Category>): seq<Category> {
    Seqs.Filter((c: Category) => c.isFeatured, parents)
  }

  function NotFeatured(parents: seq<Category>): seq<Category> {
    Seqs.Filter((c: Category) => !c.isFeatured, parents)
  }

  /** The featured selection among the candidates: eight featured when there are that many;
      otherwise all featured topped up with non-featured; with none featured, simply the first
      eight candidates. */
  function SelectFeatured(parents: seq<Category>): (r: seq<Category>)
    ensures forall c :: c in r ==> c in parents
  {
    var featured := Featured(parents);
    var rest := NotFeatured(parents);
    if |featured| >= ShownCount then
      assert forall i :: 0 <= i < ShownCount ==> featured[..ShownCount][i] in featured;
      featured[..ShownCount]
    else if |featured| > 0 then
      var tail := rest[..Min(ShownCount - |featured|, |rest|)];
      assert forall i :: 0 <= i < |tail| ==> tail[i] in rest;
      featured + tail
    else
      var r := parents[..Min(ShownCount, |parents|)];
      assert forall i :: 0 <= i < |r| ==> r[i] in parents;
      r
  }

  /** The categories the home page features. */
  function FeaturedCategories(cats: seq<Category>): (r: seq<Category>)
    ensures forall c :: c in r ==> c in ParentCategories(cats)
  {
    SelectFeatured(ParentCategories(cats))
  }

  /** With no featured candidate, the non-featured candidates are all of them. */
  lemma NoneFeatured(parents: seq<Category>)
    requires Featured(parents) == []
    ensures NotFeatured(parents) == parents
  {
    forall i | 0 <= i < |parents| ensures !parents[i].isFeatured {
      if parents[i].isFeatured {
        Seqs.FilterKeeps((c: Category) => c.isFeatured, parents, parents[i]);
      }
    }
    Seqs.FilterAllPass((c: Category) => !c.isFeatured, parents);
  }

  /** One rule for all three branches: the first k featured candidates followed by the first
      8 - k non-featured ones, where k is the number of featured candidates capped at 8. */
  lemma SelectFeaturedPrefixes(parents: seq<Category>)
    ensures var featured := Featured(parents);
      var rest := NotFeatured(parents);
      var k := Min(|featured|, ShownCount);
      SelectFeatured(parents) == featured[..k] + rest[..Min(ShownCount - k, |rest|)]
  {
    var featured := Featured(parents);
    var rest := NotFeatured(parents);
    var k := Min(|featured|, ShownCount);
    var tail := rest[..Min(ShownCount - k, |rest|)];
    if |featured| >= ShownCount {
      assert tail == [];
      assert featured[..k] + tail == featured[..k];
    } else if |featured| > 0 {
      assert featured[..k] == featured;
    } else {
      NoneFeatured(parents);
      assert featured[..k] + tail == tail;
    }
  }

  /** The page shows min(8, number of candidates) categories. */
  lemma FeaturedCategoriesLength(cats: seq<Category>)
    ensures |FeaturedCategories(cats)| == Min(ShownCount, |ParentCategories(cats)|)
  {
    var parents := ParentCategories(cats);
    Seqs.FilterPartition((c: Category) => c.isFeatured, (c: Category) => !c.isFeatured, parents);
    SelectFeaturedPrefixes(parents);
  }

  /** A run of featured categories followed by a run of non-featured ones. */
  lemma FeaturedBeforeRest(a: seq<Category>, b: seq<Category>)
    requires forall i :: 0 <= i < |a| ==> a[i].isFeatured
    requires forall i :: 0 <= i < |b| ==> !b[i].isFeatured
    ensures forall i, j :: 0 <= i < j < |a + b| && (a + b)[j].isFeatured ==> (a + b)[i].isFeatured
  {
    forall j | |a| <= j < |a + b| ensures !(a + b)[j].isFeatured {
      assert (a + b)[j] == b[j - |a|];
    }
    forall i | 0 <= i < |a| ensures (a + b)[i].isFeatured {
      assert (a + b)[i] == a[i];
    }
  }

  /** Every featured entry comes before every non-featured one. */
  lemma FeaturedComeFirst(cats: seq<Category>)
    ensures var r := FeaturedCategories(cats);
      forall i, j :: 0 <= i < j < |r| && r[j].isFeatured ==> r[i].isFeatured
  {
    var parents := ParentCategories(cats);
    var featured := Featured(parents);
    var rest := NotFeatured(parents);
    var k := Min(|featured|, ShownCount);
    var head := featured[..k];
    var tail := rest[..Min(ShownCount - k, |rest|)];
    SelectFeaturedPrefixes(parents);
    forall i | 0 <= i < |head| ensures head[i].isFeatured {
      assert head[i] in featured;
    }
    forall i | 0 <= i < |tail| ensures !tail[i].isFeatured {
      assert tail[i] in rest;
    }
    FeaturedBeforeRest(head, tail);
  }

  /** With eight or more featured candidates, exactly the first eight featured are shown. */
  lemma ManyFeatured(cats: seq<Category>)
    requires |Featured(ParentCategories(cats))| >= ShownCount
    ensures FeaturedCategories(cats) == Featured(ParentCategories(cats))[..ShownCount]
    ensures forall c :: c in FeaturedCategories(cats) ==> c.isFeatured
  {
    var featured := Featured(ParentCategories(cats));
    assert forall i :: 0 <= i < ShownCount ==> featured[..ShownCount][i] in featured;
  }
}
