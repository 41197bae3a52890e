/** The storefront product list: the search/category filter, the list of
    categories offered in the drop-down, and the add-to-cart button. */
module Products {
  import opened Types
  import opened Text
  import opened Seqs
  import CartStore

  /** The search box matches the lower-cased term inside the lower-cased name
      or the lower-cased description; a product without a description can
      only match by name. */
  predicate MatchesSearch(p: Product, term: string)
  {
    Includes(ToLower(p.name), ToLower(term))
    || (p.description.Some? && Includes(ToLower(p.description.value), ToLower(term)))
  }

  /** An empty selection accepts every category; otherwise the category must
      be exactly the one selected. */
  predicate MatchesCategory(p: Product, selectedCategory: string)
  {
    selectedCategory == "" || p.category == Some(selectedCategory)
  }

  predicate Shown(p: Product, searchTerm: string, selectedCategory: string)
  {
    MatchesSearch(p, searchTerm) && MatchesCategory(p, selectedCategory)
  }

  /** The products displayed for the current search term and category. */
  function FilterProducts(products: seq<Product>, searchTerm: string, selectedCategory: string): (r: seq<Product>)
    ensures IsSubsequence(r, products)
    ensures forall i :: 0 <= i < |r| ==> Shown(r[i], searchTerm, selectedCategory)
    ensures forall i :: 0 <= i < |products| && Shown(products[i], searchTerm, selectedCategory) ==> products[i] in r
    ensures forall p :: multiset(r)[p] == if Shown(p, searchTerm, selectedCategory) then multiset(products)[p] else 0
  {
    Filter(p => Shown(p, searchTerm, selectedCategory), products)
  }

  /** The search is a substring test on lower-cased text, stated by position. */
  lemma {:induction false} SearchIsLowerCaseSubstring(p: Product, term: string)
    ensures MatchesSearch(p, term) <==>
      IsSubstring(ToLower(term), ToLower(p.name))
      || (p.description.Some? && IsSubstring(ToLower(term), ToLower(p.description.value)))
  {
    IncludesIffSubstring(ToLower(p.name), ToLower(term));
    if p.description.Some? {
      IncludesIffSubstring(ToLower(p.description.value), ToLower(term));
    }
  }

  /** The case of the search term does not matter. */
  lemma {:induction false} SearchIgnoresTermCase(p: Product, term: string)
    ensures MatchesSearch(p, term) == MatchesSearch(p, ToLower(term))
  {
    ToLowerIdempotent(term);
  }

  /** A product without a description whose name does not match is not
      shown, whatever the other products and the category. */
  lemma {:induction false} NullDescriptionNeverMatches(products: seq<Product>, p: Product, term: string, selectedCategory: string)
    requires p.description == None
    requires !Includes(ToLower(p.name), ToLower(term))
    ensures p !in FilterProducts(products, term, selectedCategory)
  {
    var r := FilterProducts(products, term, selectedCategory);
    assert !Shown(p, term, selectedCategory);
    assert multiset(r)[p] == 0;
  }

  /** An empty search term and no category keep every product. */
  lemma {:induction false} EmptyFilterKeepsAll(products: seq<Product>)
    ensures FilterProducts(products, "", "") == products
  {
    forall i | 0 <= i < |products|
      ensures Shown(products[i], "", "")
    {
      assert OccursAt(ToLower(products[i].name), ToLower(""), 0);
      IncludesIffSubstring(ToLower(products[i].name), ToLower(""));
    }
    FilterKeepsAll(p => Shown(p, "", ""), products);
  }

  /** A selected category keeps only products of exactly that category. */
  lemma {:induction false} CategoryIsExact(products: seq<Product>, searchTerm: string, selectedCategory: string)
    requires selectedCategory != ""
    ensures forall p :: p in FilterProducts(products, searchTerm, selectedCategory) ==> p.category == Some(selectedCategory)
  {
  }

  /** The product has a category that `filter(Boolean)` keeps. */
  predicate HasCategoryLabel(p: Product)
  {
    p.category.Some? && p.category.value != ""
  }

  /** How many of the first `k` products have a category label. */
  function LabelledBefore(products: seq<Product>, k: nat): (n: nat)
    requires k <= |products|
    ensures n <= k
  {
    if k == 0 then 0
    else (if HasCategoryLabel(products[0]) then 1 else 0) + LabelledBefore(products[1..], k - 1)
  }

  /** `products.map(p => p.category).filter(Boolean)`: the categories that are
      neither null nor empty, in product order. */
  function CategoryLabels(products: seq<Product>): (r: seq<string>)
    ensures forall i :: 0 <= i < |r| ==> r[i] != "" && exists k :: 0 <= k < |products| && products[k].category == Some(r[i])
    ensures forall k :: 0 <= k < |products| && products[k].category.Some? && products[k].category.value != "" ==>
      products[k].category.value in r
  {
    if products == [] then []
    else
      var rest := CategoryLabels(products[1..]);
      assert forall k :: 0 < k < |products| ==> products[k] == products[1..][k - 1];
      match products[0].category
      case Some(c) => if c != "" then [c] + rest else rest
      case None => rest
  }

  /** The labels are the first product's label, if it has one, followed by
      the labels of the other products. */
  lemma {:induction false} LabelsCons(products: seq<Product>)
    requires products != []
    ensures CategoryLabels(products)
      == (if HasCategoryLabel(products[0]) then [products[0].category.value] else []) + CategoryLabels(products[1..])
  {
  }

  /** One step of the order proof, on the label lists as plain sequences. */
  lemma {:induction false} ShiftedLabel(products: seq<Product>, labels: seq<string>, tail: seq<string>, k: nat)
    requires 0 <= k < |products| && HasCategoryLabel(products[k])
    requires labels == (if HasCategoryLabel(products[0]) then [products[0].category.value] else []) + tail
    requires k > 0 ==>
      LabelledBefore(products[1..], k - 1) < |tail| && tail[LabelledBefore(products[1..], k - 1)] == products[k].category.value
    ensures LabelledBefore(products, k) < |labels| && labels[LabelledBefore(products, k)] == products[k].category.value
  {
  }

  /** The labels come in product order: there is one per labelled product,
      and the label of a product sits right after the labels of the
      products before it. */
  lemma {:induction false} CategoryLabelsInProductOrder(products: seq<Product>)
    ensures |CategoryLabels(products)| == LabelledBefore(products, |products|)
    ensures forall k :: 0 <= k < |products| && HasCategoryLabel(products[k]) ==>
      LabelledBefore(products, k) < |CategoryLabels(products)|
      && CategoryLabels(products)[LabelledBefore(products, k)] == products[k].category.value
    decreases |products|
  {
    if products != [] {
      var rest := products[1..];
      CategoryLabelsInProductOrder(rest);
      LabelsCons(products);
      var labels, tail := CategoryLabels(products), CategoryLabels(rest);
      forall k | 0 <= k < |products| && HasCategoryLabel(products[k])
        ensures LabelledBefore(products, k) < |labels| && labels[LabelledBefore(products, k)] == products[k].category.value
      {
        if k > 0 {
          assert products[k] == rest[k - 1];
        }
        ShiftedLabel(products, labels, tail, k);
      }
    }
  }

  /** The categories offered by the drop-down, each once, in order of first
      appearance. */
  function Categories(products: seq<Product>): (r: seq<string>)
    ensures Distinct(r)
    ensures forall i :: 0 <= i < |r| ==> r[i] != "" && exists k :: 0 <= k < |products| && products[k].category == Some(r[i])
    ensures forall k :: 0 <= k < |products| && products[k].category.Some? && products[k].category.value != "" ==>
      products[k].category.value in r
  {
    var labels := CategoryLabels(products);
    var r := Dedup(labels);
    assert forall i :: 0 <= i < |r| ==> r[i] != "" && exists k :: 0 <= k < |products| && products[k].category == Some(r[i]) by {
      forall i | 0 <= i < |r|
        ensures r[i] != "" && exists k :: 0 <= k < |products| && products[k].category == Some(r[i])
      {
        assert r[i] in r;
        var j :| 0 <= j < |labels| && labels[j] == r[i];
      }
    }
    r
  }

  /** The category of each product, in product order; the index of
      `Some(c)` in it is the position of the first product of category `c`. */
  function CategoryColumn(products: seq<Product>): (r: seq<Option<string>>)
    ensures |r| == |products|
    ensures forall i :: 0 <= i < |products| ==> r[i] == products[i].category
  {
    if products == [] then [] else [products[0].category] + CategoryColumn(products[1..])
  }

  /** A label is a non-empty category some product carries. */
  lemma {:induction false} LabelInColumn(products: seq<Product>, c: string)
    requires c in CategoryLabels(products)
    ensures c != "" && Some(c) in CategoryColumn(products)
  {
    var i :| 0 <= i < |CategoryLabels(products)| && CategoryLabels(products)[i] == c;
    var k :| 0 <= k < |products| && products[k].category == Some(c);
    assert CategoryColumn(products)[k] == Some(c);
  }

  /** Labels other than the first product's are ordered as in the labels
      of the remaining products. */
  lemma {:induction false} LabelsOfTail(products: seq<Product>, c: string, d: string)
    requires products != [] && !(HasCategoryLabel(products[0]) && c == products[0].category.value)
    requires c in CategoryLabels(products) && d in CategoryLabels(products)
    requires IndexOf(CategoryLabels(products), c) < IndexOf(CategoryLabels(products), d)
    ensures c in CategoryLabels(products[1..]) && d in CategoryLabels(products[1..])
    ensures IndexOf(CategoryLabels(products[1..]), c) < IndexOf(CategoryLabels(products[1..]), d)
    ensures products[0].category != Some(c) && products[0].category != Some(d)
  {
    var labels, tail := CategoryLabels(products), CategoryLabels(products[1..]);
    LabelInColumn(products, c);
    if HasCategoryLabel(products[0]) {
      assert labels == [products[0].category.value] + tail;
      assert labels[1..] == tail;
      assert labels[0] != d;
    } else {
      assert labels == tail;
    }
  }

  /** Past a first product of another category, the first position of a
      category is one more than among the remaining products. */
  lemma {:induction false} ColumnOfTail(products: seq<Product>, x: Option<string>)
    requires products != [] && products[0].category != x && x in CategoryColumn(products)
    ensures x in CategoryColumn(products[1..])
    ensures IndexOf(CategoryColumn(products), x) == 1 + IndexOf(CategoryColumn(products[1..]), x)
  {
    var column := CategoryColumn(products);
    assert column[1..] == CategoryColumn(products[1..]);
    assert column[0] != x;
  }

  /** A label listed before another belongs to a product that comes before
      every product of the other label. */
  lemma {:induction false} LabelOrderIsProductOrder(products: seq<Product>, c: string, d: string)
    requires c in CategoryLabels(products) && d in CategoryLabels(products)
    requires IndexOf(CategoryLabels(products), c) < IndexOf(CategoryLabels(products), d)
    ensures Some(c) in CategoryColumn(products) && Some(d) in CategoryColumn(products)
    ensures IndexOf(CategoryColumn(products), Some(c)) < IndexOf(CategoryColumn(products), Some(d))
    decreases |products|
  {
    LabelInColumn(products, c);
    LabelInColumn(products, d);
    if HasCategoryLabel(products[0]) && c == products[0].category.value {
      assert CategoryColumn(products)[0] == Some(c) != Some(d);
    } else {
      LabelsOfTail(products, c, d);
      LabelOrderIsProductOrder(products[1..], c, d);
      ColumnOfTail(products, Some(c));
      ColumnOfTail(products, Some(d));
    }
  }

  /** A category listed earlier in the drop-down first appears earlier among
      the products. */
  lemma {:induction false} CategoriesInFirstOccurrenceOrder(products: seq<Product>)
    ensures forall i, j :: 0 <= i < j < |Categories(products)| ==>
      Some(Categories(products)[i]) in CategoryColumn(products)
      && Some(Categories(products)[j]) in CategoryColumn(products)
      && IndexOf(CategoryColumn(products), Some(Categories(products)[i]))
         < IndexOf(CategoryColumn(products), Some(Categories(products)[j]))
  {
    var labels, cats, column := CategoryLabels(products), Categories(products), CategoryColumn(products);
    DedupFirstOccurrenceOrder(labels);
    forall i, j | 0 <= i < j < |cats|
      ensures Some(cats[i]) in column && Some(cats[j]) in column
        && IndexOf(column, Some(cats[i])) < IndexOf(column, Some(cats[j]))
    {
      assert cats[i] in cats && cats[j] in cats;
      LabelOrderIsProductOrder(products, cats[i], cats[j]);
    }
  }

  /** The add-to-cart button asks the cart for exactly one unit. */
  method HandleAddToCart(cart: CartStore.Cart, product: Product)
    modifies cart
    ensures cart.requests == old(cart.requests) + [CartItem(product, 1)]
  {
    cart.AddItem(product, 1);
  }
}
