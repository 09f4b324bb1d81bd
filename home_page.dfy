/** The home page's two derived lists: the category chips and the products shown for the
    active chip. */
module HomePage {
  import opened Common
  import opened ProductService

  const Semua: string := "Semua"

  /** `data?.getProducts || []` */
  function ProductsOf(data: Option<seq<Product>>): seq<Product>
  {
    if data.Some? then data.value else []
  }

  /** Strict lexicographic order on strings, character by character, a proper prefix first. */
  predicate StrLt(a: string, b: string)
  {
    if a == [] then b != []
    else if b == [] then false
    else a[0] < b[0] || (a[0] == b[0] && StrLt(a[1..], b[1..]))
  }

  lemma {:induction false} StrLtIrreflexive(a: string)
    ensures !StrLt(a, a)
  {
    if a != [] {
      StrLtIrreflexive(a[1..]);
    }
  }

  lemma {:induction false} StrLtTransitive(a: string, b: string, c: string)
    requires StrLt(a, b) && StrLt(b, c)
    ensures StrLt(a, c)
  {
    if a != [] && a[0] == b[0] && b[0] == c[0] {
      StrLtTransitive(a[1..], b[1..], c[1..]);
    }
  }

  lemma {:induction false} StrLtTotal(a: string, b: string)
    requires a != b
    ensures StrLt(a, b) || StrLt(b, a)
  {
    if a != [] && b != [] && a[0] == b[0] {
      assert a == [a[0]] + a[1..] && b == [b[0]] + b[1..];
      StrLtTotal(a[1..], b[1..]);
    }
  }

  /** Ascending with no repeats. */
  predicate StrictlySorted(s: seq<string>)
  {
    forall i, j | 0 <= i < j < |s| :: StrLt(s[i], s[j])
  }

  /** `x` put in its place in a strictly sorted list, unless it is already there. */
  function Insert(x: string, s: seq<string>): (r: seq<string>)
    requires StrictlySorted(s)
    ensures StrictlySorted(r)
    ensures forall y :: y in r <==> y in s || y == x
  {
    if s == [] then [x]
    else if x == s[0] then s
    else if StrLt(x, s[0]) then
      forall j | 0 <= j < |s| ensures StrLt(x, s[j]) {
        if j > 0 { StrLtTransitive(x, s[0], s[j]); }
      }
      [x] + s
    else
      StrLtTotal(x, s[0]);
      var rest := Insert(x, s[1..]);
      forall y | y in rest ensures StrLt(s[0], y) {
        if y != x {
          var j :| 0 <= j < |s[1..]| && s[1..][j] == y;
          assert s[j + 1] == y;
        }
      }
      [s[0]] + rest
  }

  /** `[...new Set(xs)].sort()`: the distinct entries of `xs` in ascending order. Inserting
      one by one into a strictly sorted list yields the same list whatever the order of
      first occurrence was. */
  function SortedDistinct(xs: seq<string>): (r: seq<string>)
    ensures StrictlySorted(r)
    ensures forall y :: y in r <==> y in xs
  {
    if xs == [] then [] else Insert(xs[0], SortedDistinct(xs[1..]))
  }

  /** A product that names category `c`: present and not blank. */
  predicate Names(p: Product, c: string)
  {
    p.category == Some(c) && !IsBlank(c)
  }

  /** `products.map(p => p.category).filter(cat => cat && cat.trim() !== '')` */
  function NamedCategories(products: seq<Product>): (r: seq<string>)
    ensures forall c :: c in r <==> exists p | p in products :: Names(p, c)
  {
    if products == [] then []
    else
      var p := products[0];
      var rest := NamedCategories(products[1..]);
      assert products == [p] + products[1..];
      var keep := p.category.Some? && p.category.value != "" && !IsBlank(p.category.value);
      var r := if keep then [p.category.value] + rest else rest;
      assert forall c :: c in r ==> exists q | q in products :: Names(q, c) by {
        forall c | c in r ensures exists q | q in products :: Names(q, c) {
          if keep && c == p.category.value {
            assert Names(p, c);
          } else {
            assert c in rest;
            var q :| q in products[1..] && Names(q, c);
            assert q in products;
          }
        }
      }
      assert forall c :: (exists q | q in products :: Names(q, c)) ==> c in r by {
        forall c | exists q | q in products :: Names(q, c) ensures c in r {
          var q :| q in products && Names(q, c);
          if q != p {
            assert q in products[1..];
          } else {
            assert keep;
          }
        }
      }
      r
  }

  /** The `categories` memo: 'Semua' first, then every non-blank product category once, in
      ascending order. */
  function Categories(data: Option<seq<Product>>): (r: seq<string>)
    ensures |r| >= 1 && r[0] == Semua
    ensures StrictlySorted(r[1..])
    ensures forall c :: c in r[1..] <==>
              exists p | p in ProductsOf(data) :: Names(p, c)
  {
    [Semua] + SortedDistinct(NamedCategories(ProductsOf(data)))
  }

  /** The chips after 'Semua' name no category twice. */
  lemma CategoriesDistinct(data: Option<seq<Product>>, i: int, j: int)
    requires 1 <= i < j < |Categories(data)|
    ensures Categories(data)[i] != Categories(data)[j]
  {
    var r := Categories(data);
    assert r[1..][i - 1] == r[i] && r[1..][j - 1] == r[j];
    StrLtIrreflexive(r[i]);
  }

  /** The `filteredProducts` memo. */
  function FilteredProducts(data: Option<seq<Product>>, active: string): (r: seq<Product>)
    ensures active == Semua ==> r == ProductsOf(data)
    ensures active != Semua ==> r == CategoryFilter(ProductsOf(data), active)
  {
    if active == Semua then ProductsOf(data) else CategoryFilter(ProductsOf(data), active)
  }

  /** `products.filter(p => p.category === active)` */
  function CategoryFilter(products: seq<Product>, active: string): (r: seq<Product>)
    ensures forall p :: p in r <==> p in products && p.category == Some(active)
    ensures |r| <= |products|
  {
    if products == [] then []
    else if products[0].category == Some(active) then [products[0]] + CategoryFilter(products[1..], active)
    else CategoryFilter(products[1..], active)
  }

  /** The filter keeps the list's order: filtering a concatenation concatenates the filtered
      parts. */
  lemma {:induction false} CategoryFilterAppend(a: seq<Product>, b: seq<Product>, active: string)
    ensures CategoryFilter(a + b, active) == CategoryFilter(a, active) + CategoryFilter(b, active)
  {
    if a == [] {
      assert a + b == b;
    } else {
      assert (a + b)[1..] == a[1..] + b;
      CategoryFilterAppend(a[1..], b, active);
    }
  }

  /** Every chip after 'Semua' selects at least one product. */
  lemma EveryChipSelectsSomething(data: Option<seq<Product>>, c: string)
    requires c in Categories(data)[1..]
    ensures FilteredProducts(data, c) != []
  {
    var p :| p in ProductsOf(data) && Names(p, c);
    if c != Semua {
      assert p in CategoryFilter(ProductsOf(data), c);
    }
  }
}
