/**
 * The two one-off scripts that give nutrient products a `nutrient_type`
 * guessed from their names. The first types only the products that have none
 * yet; the second adds the column to the table and types every row.
 */
module Migrations {
  import opened Common

  /** A row of `nutrient_products`, reduced to what the scripts read and write. */
  datatype Product = Product(name: string, nutrientType: Option<string>)

  const PRODUCT_TYPES: set<string> := {"calmag", "micro", "grow", "bloom", "other"}

  predicate IsCalMag(l: string) { (Contains(l, "cal") && Contains(l, "mag")) || Contains(l, "calmag") }
  predicate IsMicro(l: string) { Contains(l, "micro") }
  predicate IsGrow(l: string) { Contains(l, "grow") || Contains(l, "gro") || Contains(l, "veg") }
  predicate IsBloom(l: string) { Contains(l, "bloom") || Contains(l, "flower") }

  /** The type guessed from the lower-cased name; the tests are tried in this order. */
  function Classify(name: string): (t: string)
    ensures t in PRODUCT_TYPES
  {
    var l := Lower(name);
    if IsCalMag(l) then "calmag"
    else if IsMicro(l) then "micro"
    else if IsGrow(l) then "grow"
    else if IsBloom(l) then "bloom"
    else "other"
  }

  /** Each type is chosen exactly when its test holds and no earlier test does. */
  lemma ClassifyRules(name: string)
    ensures var l := Lower(name);
      && (Classify(name) == "calmag" <==> IsCalMag(l))
      && (Classify(name) == "micro" <==> !IsCalMag(l) && IsMicro(l))
      && (Classify(name) == "grow" <==> !IsCalMag(l) && !IsMicro(l) && IsGrow(l))
      && (Classify(name) == "bloom" <==> !IsCalMag(l) && !IsMicro(l) && !IsGrow(l) && IsBloom(l))
      && (Classify(name) == "other" <==> !IsCalMag(l) && !IsMicro(l) && !IsGrow(l) && !IsBloom(l))
  {
  }

  /** A text found inside a longer one: `sub` at `i` of `s` puts `sub[a..b]` at `i + a`. */
  lemma OccursInside(s: string, sub: string, i: int, a: int, b: int)
    requires OccursAt(s, sub, i) && 0 <= a <= b <= |sub|
    ensures OccursAt(s, sub[a..b], i + a)
  {
    forall j | 0 <= j < b - a
      ensures s[i + a..i + b][j] == sub[a..b][j]
    {
      assert s[i..i + |sub|][a + j] == sub[a + j];
    }
  }

  /**
   * The alternatives that can never decide anything: a name holding 'calmag'
   * holds 'cal' and 'mag', and one holding 'grow' holds 'gro'. So a name is
   * calmag exactly when it holds 'cal' and 'mag', and grow-like exactly when it
   * holds 'gro' or 'veg'.
   */
  lemma RedundantTests(l: string)
    ensures IsCalMag(l) <==> Contains(l, "cal") && Contains(l, "mag")
    ensures IsGrow(l) <==> Contains(l, "gro") || Contains(l, "veg")
  {
    if Contains(l, "calmag") {
      var i :| 0 <= i <= |l| - 6 && OccursAt(l, "calmag", i);
      OccursInside(l, "calmag", i, 0, 3);
      OccursInside(l, "calmag", i, 3, 6);
      assert "calmag"[0..3] == "cal" && "calmag"[3..6] == "mag";
      ContainsWitness(l, "cal", i);
      ContainsWitness(l, "mag", i + 3);
    }
    if Contains(l, "grow") {
      var i :| 0 <= i <= |l| - 4 && OccursAt(l, "grow", i);
      OccursInside(l, "grow", i, 0, 3);
      assert "grow"[0..3] == "gro";
      ContainsWitness(l, "gro", i);
    }
  }

  /** A string never contains a text with a character the string lacks. */
  lemma LacksChar(s: string, sub: string, k: int)
    requires 0 <= k < |sub| && sub[k] !in s
    ensures !Contains(s, sub)
  {
  }

  /** "CALiMAGic" is typed calmag. */
  lemma CalimagicIsCalMag(name: string)
    requires name == "CALiMAGic"
    ensures Classify(name) == "calmag"
  {
    var l := Lower(name);
    assert l == "calimagic";
    assert OccursAt(l, "cal", 0) && OccursAt(l, "mag", 4);
    ContainsWitness(l, "cal", 0);
    ContainsWitness(l, "mag", 4);
  }

  /** "Flora Gro" is typed grow. */
  lemma FloraGroIsGrow(name: string)
    requires name == "Flora Gro"
    ensures Classify(name) == "grow"
  {
    var l := Lower(name);
    assert l == "flora gro";
    LacksChar(l, "cal", 0);
    LacksChar(l, "calmag", 0);
    LacksChar(l, "micro", 0);
    assert OccursAt(l, "gro", 6);
    ContainsWitness(l, "gro", 6);
  }

  /** "Flora Micro" is typed micro. */
  lemma FloraMicroIsMicro(name: string)
    requires name == "Flora Micro"
    ensures Classify(name) == "micro"
  {
    var l := Lower(name);
    assert l == "flora micro";
    LacksChar(l, "mag", 2);
    LacksChar(l, "calmag", 5);
    assert OccursAt(l, "micro", 6);
    ContainsWitness(l, "micro", 6);
  }

  /** "pH Up" matches no test and is typed other. */
  lemma PhUpIsOther(name: string)
    requires name == "pH Up"
    ensures Classify(name) == "other"
  {
    var l := Lower(name);
    assert l == "ph up";
    LacksChar(l, "cal", 0);
    LacksChar(l, "calmag", 0);
    LacksChar(l, "micro", 0);
    LacksChar(l, "grow", 0);
    LacksChar(l, "gro", 0);
    LacksChar(l, "veg", 0);
    LacksChar(l, "bloom", 0);
    LacksChar(l, "flower", 0);
  }

  // ---------------------------------------------------------------------
  // migrate_nutrient_types.py
  // ---------------------------------------------------------------------

  /** A product after the first script: a product with a type keeps it, one without gets the guessed type. */
  function Typed(p: Product): Product
  {
    if p.nutrientType.Some? then p else p.(nutrientType := Some(Classify(p.name)))
  }

  function TypeAll(ps: seq<Product>): (r: seq<Product>)
    ensures |r| == |ps|
  {
    if ps == [] then [] else [Typed(ps[0])] + TypeAll(ps[1..])
  }

  /** How many products have no type yet. */
  function Untyped(ps: seq<Product>): (n: nat)
    ensures n <= |ps|
  {
    if ps == [] then 0 else (if ps[0].nutrientType.None? then 1 else 0) + Untyped(ps[1..])
  }

  /**
   * After the first script every product has a type, the types it already had
   * are kept, the new ones come from the name, and names are untouched.
   */
  lemma {:induction false} TypeAllRules(ps: seq<Product>)
    ensures forall i :: 0 <= i < |ps| ==>
      && TypeAll(ps)[i].name == ps[i].name
      && TypeAll(ps)[i].nutrientType.Some?
      && (ps[i].nutrientType.Some? ==> TypeAll(ps)[i] == ps[i])
      && (ps[i].nutrientType.None? ==> TypeAll(ps)[i].nutrientType == Some(Classify(ps[i].name)))
  {
    if ps != [] {
      TypeAllRules(ps[1..]);
      assert forall i :: 1 <= i < |ps| ==> TypeAll(ps)[i] == TypeAll(ps[1..])[i - 1];
    }
  }

  /** Running the first script again changes nothing and counts nothing. */
  lemma {:induction false} TypeAllIdempotent(ps: seq<Product>)
    ensures TypeAll(TypeAll(ps)) == TypeAll(ps)
    ensures Untyped(TypeAll(ps)) == 0
  {
    if ps != [] {
      TypeAllIdempotent(ps[1..]);
      assert TypeAll(ps)[1..] == TypeAll(ps[1..]);
    }
  }

  lemma TypeAllStep(ps: seq<Product>, i: int)
    requires 0 <= i < |ps|
    ensures TypeAll(ps[..i + 1]) == TypeAll(ps[..i]) + [Typed(ps[i])]
    ensures Untyped(ps[..i + 1]) == Untyped(ps[..i]) + (if ps[i].nutrientType.None? then 1 else 0)
  {
    AppendOne(ps[..i], ps[i]);
    assert ps[..i + 1] == ps[..i] + [ps[i]];
  }

  lemma {:induction false} AppendOne(ps: seq<Product>, p: Product)
    ensures TypeAll(ps + [p]) == TypeAll(ps) + [Typed(p)]
    ensures Untyped(ps + [p]) == Untyped(ps) + (if p.nutrientType.None? then 1 else 0)
  {
    if ps == [] {
      assert [] + [p] == [p];
    } else {
      AppendOne(ps[1..], p);
      assert (ps + [p])[1..] == ps[1..] + [p];
    }
  }

  /** What the first script reports: nothing done, or how many products it typed and whether it committed. */
  datatype TypeRun = ColumnMissing | NoProducts | Updated(updates: nat, committed: bool)

  /**
   * `migrate_nutrient_types`: the products are rows of the table, updated in
   * place one at a time. An empty table is reported before any column is read;
   * nothing happens then, nor when the first product's `nutrient_type` cannot be
   * read. The session is committed only when something was typed.
   */
  method MigrateNutrientTypes(columnPresent: bool, products: array<Product>) returns (run: TypeRun)
    modifies products
    ensures products.Length == 0 ==> run == NoProducts
    ensures !columnPresent && products.Length > 0 ==> run == ColumnMissing && products[..] == old(products[..])
    ensures columnPresent && products.Length > 0 ==>
      && products[..] == TypeAll(old(products[..]))
      && run == Updated(Untyped(old(products[..])), Untyped(old(products[..])) > 0)
  {
    if products.Length == 0 {
      return NoProducts;
    }
    if !columnPresent {
      return ColumnMissing;
    }
    ghost var before := products[..];
    var updates := 0;
    var i := 0;
    while i < products.Length
      invariant 0 <= i <= products.Length
      invariant products[..i] == TypeAll(before[..i])
      invariant products[i..] == before[i..]
      invariant updates == Untyped(before[..i])
    {
      TypeAllStep(before, i);
      var product := products[i];
      assert product == before[i];
      if product.nutrientType.None? {
        products[i] := product.(nutrientType := Some(Classify(product.name)));
        updates := updates + 1;
      }
      assert products[..i + 1] == products[..i] + [products[i]];
      i := i + 1;
    }
    assert before[..i] == before;
    run := Updated(updates, updates > 0);
  }

  // ---------------------------------------------------------------------
  // migrate_db_nutrient_type.py
  // ---------------------------------------------------------------------

  /** Every row with the type guessed from its name, whatever it had before. */
  function Retyped(ps: seq<Product>): (r: seq<Product>)
    ensures |r| == |ps|
  {
    if ps == [] then [] else [ps[0].(nutrientType := Some(Classify(ps[0].name)))] + Retyped(ps[1..])
  }

  /** After the second script each row carries the type of its name; names are untouched. */
  lemma {:induction false} RetypedRules(ps: seq<Product>)
    ensures forall i :: 0 <= i < |ps| ==> Retyped(ps)[i] == Product(ps[i].name, Some(Classify(ps[i].name)))
  {
    if ps != [] {
      RetypedRules(ps[1..]);
      assert forall i :: 1 <= i < |ps| ==> Retyped(ps)[i] == Retyped(ps[1..])[i - 1];
    }
  }

  /** On products that have no type yet the two scripts agree. */
  lemma {:induction false} ScriptsAgreeOnUntyped(ps: seq<Product>)
    requires forall i :: 0 <= i < |ps| ==> ps[i].nutrientType.None?
    ensures Retyped(ps) == TypeAll(ps)
    ensures Untyped(ps) == |ps|
  {
    if ps != [] {
      ScriptsAgreeOnUntyped(ps[1..]);
    }
  }

  lemma RetypedStep(ps: seq<Product>, i: int)
    requires 0 <= i < |ps|
    ensures Retyped(ps[..i + 1]) == Retyped(ps[..i]) + [ps[i].(nutrientType := Some(Classify(ps[i].name)))]
  {
    RetypedAppend(ps[..i], ps[i]);
    assert ps[..i + 1] == ps[..i] + [ps[i]];
  }

  lemma {:induction false} RetypedAppend(ps: seq<Product>, p: Product)
    ensures Retyped(ps + [p]) == Retyped(ps) + [p.(nutrientType := Some(Classify(p.name)))]
  {
    if ps == [] {
      assert [] + [p] == [p];
    } else {
      RetypedAppend(ps[1..], p);
      assert (ps + [p])[1..] == ps[1..] + [p];
    }
  }

  /**
   * `migrate_db`: when the table lacks the `nutrient_type` column, add it and
   * update every row, counting each (`None` when the column was already there
   * and nothing is touched).
   */
  method MigrateDb(columns: set<string>, products: array<Product>) returns (columnsAfter: set<string>, updates: Option<nat>)
    modifies products
    ensures "nutrient_type" in columns ==> columnsAfter == columns && updates.None? && products[..] == old(products[..])
    ensures "nutrient_type" !in columns ==>
      && columnsAfter == columns + {"nutrient_type"}
      && products[..] == Retyped(old(products[..]))
      && updates == Some(products.Length)
  {
    if "nutrient_type" in columns {
      return columns, None;
    }
    columnsAfter := columns + {"nutrient_type"};
    ghost var before := products[..];
    var count := 0;
    var i := 0;
    while i < products.Length
      invariant 0 <= i <= products.Length
      invariant products[..i] == Retyped(before[..i])
      invariant products[i..] == before[i..]
      invariant count == i
    {
      RetypedStep(before, i);
      var product := products[i];
      assert product == before[i];
      var nutrientType := "other";
      var l := Lower(product.name);
      if IsCalMag(l) {
        nutrientType := "calmag";
      } else if IsMicro(l) {
        nutrientType := "micro";
      } else if IsGrow(l) {
        nutrientType := "grow";
      } else if IsBloom(l) {
        nutrientType := "bloom";
      }
      products[i] := product.(nutrientType := Some(nutrientType));
      count := count + 1;
      assert products[..i + 1] == products[..i] + [products[i]];
      i := i + 1;
    }
    assert before[..i] == before;
    updates := Some(count);
  }
}
