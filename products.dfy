/** Enhanced-ecommerce product parameters: `pr1`, `pr2`, ... each hold a
    URL-encoded list of `~`-separated tokens such as `nmShoe~id123~pr49.99`,
    where a two-letter prefix names the field. */
module Products {
  import opened Wrappers
  import opened Strings
  import opened Dicts

  /** The two-letter token prefixes and the fields they name. */
  const FieldNames: Dict<string> :=
    [("nm", "name"), ("id", "id"), ("pr", "price"), ("br", "brand"), ("ca", "category"), ("qt", "quantity")]

  const ProductFields: set<string> := {"name", "id", "price", "brand", "category", "quantity"}

  /** The field a token prefix names, if any. */
  function FieldName(prefix: string): (r: Option<string>)
    ensures r.Some? ==> r.value in ProductFields
  {
    Get(FieldNames, prefix)
  }

  /** A key `pr` followed by one or more ASCII digits. */
  predicate IsProductKey(k: string) {
    StartsWith(k, "pr") && IsDigits(k[2..])
  }

  /** The product built from a token list: each token longer than two
      characters with a known prefix sets its field, a later token
      overwriting an earlier one. */
  function ProductFrom(tokens: seq<string>): (r: Dict<string>)
    ensures Keyed(r) && KeySet(r) <= ProductFields
  {
    if |tokens| == 0 then []
    else
      var r := ProductFrom(tokens[..|tokens| - 1]);
      var t := tokens[|tokens| - 1];
      if |t| > 2 && FieldName(t[..2]).Some? then
        PutKeySet(r, FieldName(t[..2]).value, t[2..]);
        Put(r, FieldName(t[..2]).value, t[2..])
      else r
  }

  /** The product one parameter value describes. */
  function ParseProduct(value: string): Dict<string> {
    ProductFrom(Split(Unquote(value), "~"))
  }

  /** The number of product keys in `data`. */
  function ProductKeyCount(data: Dict<string>): nat {
    if |data| == 0 then 0
    else ProductKeyCount(data[..|data| - 1]) + if IsProductKey(data[|data| - 1].0) then 1 else 0
  }

  /** `parse_product_data`: one product per product key, in key order,
      skipping the keys whose value names no field. */
  function ParseProducts(data: Dict<string>): (r: seq<Dict<string>>)
    ensures |r| <= ProductKeyCount(data)
    ensures forall k | 0 <= k < |r| :: |r[k]| > 0 && Keyed(r[k]) && KeySet(r[k]) <= ProductFields
  {
    if |data| == 0 then []
    else
      var r := ParseProducts(data[..|data| - 1]);
      var e := data[|data| - 1];
      if IsProductKey(e.0) && |ParseProduct(e.1)| > 0 then r + [ParseProduct(e.1)] else r
  }

  method ParseProductData(data: Dict<string>) returns (products: seq<Dict<string>>)
    ensures products == ParseProducts(data)
  {
    products := [];
    for i := 0 to |data|
      invariant products == ParseProducts(data[..i])
    {
      assert data[..i + 1][..i] == data[..i];
      if IsProductKey(data[i].0) {
        var info := ParseProductValue(data[i].1);
        if |info| > 0 {
          products := products + [info];
        }
      }
    }
    assert data[..|data|] == data;
  }

  method ParseProductValue(value: string) returns (info: Dict<string>)
    ensures info == ParseProduct(value)
  {
    var parts := Split(Unquote(value), "~");
    info := [];
    for j := 0 to |parts|
      invariant info == ProductFrom(parts[..j])
    {
      assert parts[..j + 1][..j] == parts[..j];
      var part := parts[j];
      if |part| > 2 {
        var field := FieldName(part[..2]);
        if field.Some? {
          info := Put(info, field.value, part[2..]);
        }
      }
    }
    assert parts[..|parts|] == parts;
  }

  /** The entries of `data` under product keys, in order. */
  function ProductEntries(data: Dict<string>): (r: Dict<string>)
    ensures forall k | 0 <= k < |r| :: IsProductKey(r[k].0)
  {
    if |data| == 0 then []
    else
      var r := ProductEntries(data[..|data| - 1]);
      if IsProductKey(data[|data| - 1].0) then r + [data[|data| - 1]] else r
  }

  /** Only product keys are read: the other entries do not affect the result. */
  lemma {:induction false} ProductsReadOnlyProductKeys(data: Dict<string>)
    ensures ParseProducts(data) == ParseProducts(ProductEntries(data))
    decreases |data|
  {
    if |data| > 0 {
      var init := data[..|data| - 1];
      ProductsReadOnlyProductKeys(init);
      if IsProductKey(data[|data| - 1].0) {
        var p := ProductEntries(init) + [data[|data| - 1]];
        assert p[..|p| - 1] == ProductEntries(init);
      }
    }
  }

  /** A value `nm<a>~id<b>~pr<c>` gives the product {name: a, id: b, price: c}. */
  lemma NameIdPrice(a: string, b: string, c: string)
    requires |a| > 0 && |b| > 0 && |c| > 0
    requires '~' !in a && '~' !in b && '~' !in c
    requires '%' !in a && '%' !in b && '%' !in c
    ensures ParseProduct("nm" + a + "~" + "id" + b + "~" + "pr" + c) == [("name", a), ("id", b), ("price", c)]
  {
    ThreeTokens(a, b, c);
    ThreeFields(a, b, c);
  }

  lemma ThreeTokens(a: string, b: string, c: string)
    requires '~' !in a && '~' !in b && '~' !in c
    requires '%' !in a && '%' !in b && '%' !in c
    ensures Split(Unquote("nm" + a + "~" + "id" + b + "~" + "pr" + c), "~") == ["nm" + a, "id" + b, "pr" + c]
  {
    var x, y, z := "nm" + a, "id" + b, "pr" + c;
    var s := x + "~" + y + "~" + z;
    assert s == "nm" + a + "~" + "id" + b + "~" + "pr" + c;
    assert '%' !in s;
    UnquotePlain(s);
    SplitThree(x, y, z, '~');
  }

  /** Three pieces without the separator, joined by it, split back. */
  lemma SplitThree(x: string, y: string, z: string, c: char)
    requires c !in x && c !in y && c !in z
    ensures Split(x + [c] + y + [c] + z, [c]) == [x, y, z]
  {
    ContainsChar(z, c);
    SplitNoSep(z, [c]);
    SplitAfterFree(y, z, c);
    SplitAfterFree(x, y + [c] + z, c);
    assert x + [c] + y + [c] + z == x + [c] + (y + [c] + z);
  }

  lemma ThreeFields(a: string, b: string, c: string)
    requires |a| > 0 && |b| > 0 && |c| > 0
    ensures ProductFrom(["nm" + a, "id" + b, "pr" + c]) == [("name", a), ("id", b), ("price", c)]
  {
    KnownPrefixes();
    var t1, t2, t3 := ["nm" + a], ["nm" + a, "id" + b], ["nm" + a, "id" + b, "pr" + c];
    TokenAppends([], "nm", a, "name");
    assert [] + ["nm" + a] == t1;
    assert ProductFrom(t1) == [("name", a)];
    TokenAppends(t1, "id", b, "id");
    assert t1 + ["id" + b] == t2;
    assert ProductFrom(t2) == [("name", a), ("id", b)];
    TokenAppends(t2, "pr", c, "price");
    assert t2 + ["pr" + c] == t3;
  }

  lemma KnownPrefixes()
    ensures FieldName("nm") == Some("name") && FieldName("id") == Some("id") && FieldName("pr") == Some("price")
  {
    assert FieldNames[0].0 == "nm" && FieldNames[1].0 == "id" && FieldNames[2].0 == "pr";
  }

  /** A token with a known two-letter prefix and a non-empty value appends
      that field when it is not yet set. */
  lemma TokenAppends(init: seq<string>, prefix: string, value: string, field: string)
    requires |prefix| == 2 && |value| > 0 && FieldName(prefix) == Some(field)
    requires !HasKey(ProductFrom(init), field)
    ensures ProductFrom(init + [prefix + value]) == ProductFrom(init) + [(field, value)]
  {
    var t := prefix + value;
    assert (init + [t])[..|init|] == init;
    assert t[..2] == prefix && t[2..] == value;
    PutAbsent(ProductFrom(init), field, value);
  }

  /** The names an item-list summary shows: those of the first three
      products (`Unknown` for a product without one), cut to 12 characters. */
  function ShownNames(products: seq<Dict<string>>): (r: seq<string>)
    ensures |r| == if |products| < 3 then |products| else 3
    ensures forall k | 0 <= k < |r| :: r[k] == Take(GetOr(products[k], "name", "Unknown"), 12)
  {
    var shown := Take3(products);
    seq(|shown|, k requires 0 <= k < |shown| => Take(GetOr(shown[k], "name", "Unknown"), 12))
  }

  /** The line the GA4 event summary gives for parsed products: none without
      products, the name of a single product, up to three names for an item
      list view, and otherwise the product count. */
  function ProductSummary(products: seq<Dict<string>>, eventName: string): (r: seq<string>)
    ensures |r| <= 1 && (|r| == 0 <==> |products| == 0)
    ensures |products| == 1 ==> r == ["product: " + Take(GetOr(products[0], "name", "Unknown"), 15)]
    ensures |products| > 1 && eventName == "view_item_list" ==>
              r == ["products (" + NatToString(|products|) + "): " + Join(ShownNames(products), ", ")
                    + (if |products| > 3 then "..." else "")]
    ensures |products| > 1 && eventName != "view_item_list" ==> r == ["products: " + NatToString(|products|) + " items"]
  {
    if |products| == 0 then []
    else if |products| == 1 then ["product: " + Take(GetOr(products[0], "name", "Unknown"), 15)]
    else if eventName == "view_item_list" then
      ["products (" + NatToString(|products|) + "): " + Join(ShownNames(products), ", ") + (if |products| > 3 then "..." else "")]
    else ["products: " + NatToString(|products|) + " items"]
  }

  /** Python `xs[:3]`. */
  function Take3<T>(xs: seq<T>): (r: seq<T>)
    ensures |r| == if |xs| < 3 then |xs| else 3
    ensures forall k | 0 <= k < |r| :: r[k] == xs[k]
  {
    if |xs| <= 3 then xs else xs[..3]
  }
}
