/** The product picker (src/components/product-selector.tsx): a search box
    filtering the catalog by name, a selected product, a quantity, and an
    add button that hands the pair to the caller and resets the picker. */
module ProductSelector {
  import opened Wrappers
  import opened Schema
  import Seqs
  import Text

  /** The search test: the lower-cased name contains the lower-cased term. */
  predicate Matches(term: string, p: Doc<Product>) {
    Text.Contains(Text.Lower(p.value.name), Text.Lower(term))
  }

  /** The products the search shows, in catalog order: exactly the catalog
      entries that match, each as often as in the catalog. */
  function FilterProducts(products: seq<Doc<Product>>, term: string): (r: seq<Doc<Product>>)
    ensures forall p :: p in r ==> p in products && Matches(term, p)
    ensures forall p :: p in products && Matches(term, p) ==> p in r
    ensures forall p :: multiset(r)[p] == if Matches(term, p) then multiset(products)[p] else 0
  {
    var r := Seqs.Filter(q => Matches(term, q), products);
    Seqs.FilterCount(q => Matches(term, q), products);
    assert forall p :: p in products && Matches(term, p) ==> multiset(r)[p] > 0;
    r
  }

  /** Filtering keeps catalog order: the results for a catalog split in two
      are the results for the first part followed by those for the second,
      and a single product is shown alone exactly when it matches. Together
      these fix the result as the order-preserving subsequence of matches. */
  lemma FilterProductsOrder(a: seq<Doc<Product>>, b: seq<Doc<Product>>, term: string, p: Doc<Product>)
    ensures FilterProducts(a + b, term) == FilterProducts(a, term) + FilterProducts(b, term)
    ensures FilterProducts([p], term) == if Matches(term, p) then [p] else []
  {
    Seqs.FilterConcat(q => Matches(term, q), a, b);
    Seqs.FilterSingleton(q => Matches(term, q), p);
  }

  /** An empty term matches every product, so nothing is filtered out. */
  lemma EmptyTermKeepsAll(products: seq<Doc<Product>>)
    ensures FilterProducts(products, "") == products
  {
    forall i | 0 <= i < |products|
      ensures Matches("", products[i])
    {
      assert Text.Lower("") == "";
      Text.ContainsEmpty(Text.Lower(products[i].value.name));
    }
    Seqs.FilterAll(q => Matches("", q), products);
  }

  /** Lower-casing twice is lower-casing once. */
  lemma LowerIdempotent(s: string)
    ensures Text.Lower(Text.Lower(s)) == Text.Lower(s)
  {
    forall i | 0 <= i < |s|
      ensures Text.Lower(Text.Lower(s))[i] == Text.Lower(s)[i]
    {
      var c := s[i];
      assert Text.LowerChar(Text.LowerChar(c)) == Text.LowerChar(c);
    }
  }

  /** The search ignores (ASCII) case: a term and its lower-case form show
      the same products. */
  lemma SearchIgnoresCase(products: seq<Doc<Product>>, term: string)
    ensures FilterProducts(products, Text.Lower(term)) == FilterProducts(products, term)
  {
    LowerIdempotent(term);
    Seqs.FilterCongruent(q => Matches(Text.Lower(term), q), q => Matches(term, q), products);
  }

  /** Lower-casing works character by character, so it distributes over
      concatenation. */
  lemma LowerAppend(a: string, b: string)
    ensures Text.Lower(a + b) == Text.Lower(a) + Text.Lower(b)
  {
    assert forall i :: 0 <= i < |a| ==> (a + b)[i] == a[i];
    assert forall i :: 0 <= i < |b| ==> (a + b)[|a| + i] == b[i];
  }

  /** A text containing `needle + more` contains `needle`. */
  lemma ContainsPrefix(hay: string, needle: string, more: string)
    requires Text.Contains(hay, needle + more)
    ensures Text.Contains(hay, needle)
  {
    var i: nat :| i <= |hay| && Text.OccursAt(hay, needle + more, i);
    assert hay[i..i + |needle|] == (needle + more)[..|needle|] == needle;
    assert Text.OccursAt(hay, needle, i);
  }

  /** Typing more narrows the search: every product shown for a longer term
      was already shown for its prefix. */
  lemma TypingNarrows(products: seq<Doc<Product>>, term: string, more: string)
    ensures forall p :: p in FilterProducts(products, term + more) ==> p in FilterProducts(products, term)
  {
    LowerAppend(term, more);
    forall p | p in FilterProducts(products, term + more)
      ensures p in FilterProducts(products, term)
    {
      ContainsPrefix(Text.Lower(p.value.name), Text.Lower(term), Text.Lower(more));
    }
  }

  /** The component's state; the catalog is passed in, as the query's result. */
  class ProductPicker {
    var searchTerm: string
    var selected: Option<Doc<Product>>
    var quantity: real

    /** Initial state: empty search, nothing selected, quantity 1. */
    constructor ()
      ensures searchTerm == "" && selected == None && quantity == 1.0
    {
      searchTerm, selected, quantity := "", None, 1.0;
    }

    /** The result list: shown only while the term is non-empty. */
    function Results(products: seq<Doc<Product>>): (r: seq<Doc<Product>>)
      reads this
      ensures searchTerm == "" ==> r == []
      ensures searchTerm != "" ==> r == FilterProducts(products, searchTerm)
    {
      if searchTerm != "" then FilterProducts(products, searchTerm) else []
    }

    /** The add button is disabled while the quantity is not positive. */
    function AddDisabled(): (r: bool)
      reads this
      ensures r <==> !(quantity > 0.0)
    {
      quantity <= 0.0
    }

    /** The search box. */
    method SetSearchTerm(value: string)
      modifies this
      ensures searchTerm == value && selected == old(selected) && quantity == old(quantity)
    {
      searchTerm := value;
    }

    /** Clicking a result selects it (the quantity is kept). */
    method Select(p: Doc<Product>)
      modifies this
      ensures selected == Some(p) && searchTerm == old(searchTerm) && quantity == old(quantity)
    {
      selected := Some(p);
    }

    /** The quantity field (`parseFloat(input) || 0`). */
    method SetQuantity(parsed: Option<real>)
      modifies this
      ensures quantity == Text.QuantityInput(parsed)
      ensures searchTerm == old(searchTerm) && selected == old(selected)
    {
      quantity := Text.QuantityInput(parsed);
    }

    /** `handleAddProduct`: with a selection and a positive quantity, hands
        the pair to the caller and resets the picker to its initial state;
        otherwise does nothing at all. */
    method AddProduct() returns (added: Option<(Doc<Product>, real)>)
      modifies this
      ensures added.Some? <==> old(selected).Some? && old(quantity) > 0.0
      ensures added.Some? ==> added.value == (old(selected).value, old(quantity))
      ensures added.Some? ==> searchTerm == "" && selected == None && quantity == 1.0
      ensures added.None? ==>
        searchTerm == old(searchTerm) && selected == old(selected) && quantity == old(quantity)
    {
      if selected.Some? && quantity > 0.0 {
        added := Some((selected.value, quantity));
        selected, quantity, searchTerm := None, 1.0, "";
      } else {
        added := None;
      }
    }
  }
}
