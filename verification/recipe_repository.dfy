/**
 * Reading a recipe from storage in the recipe manager: the row's columns
 * become the recipe's header, and the dough column, a JSON object of
 * ingredient amounts plus an optional `percentVariation`, becomes the dough,
 * its ingredients sorted by amount, largest first, ties by name.
 */
module RecipeRepository {
  import opened Wrappers
  import opened RecipeDomain
  import Sequences

  /** The key of the dough object that holds the percent variation rather than an ingredient. */
  const PercentVariationKey: string := "percentVariation"

  /** The columns of the selected row; the dough column is still JSON text. */
  datatype Row = Row(id: int, uuid: string, name: string, description: string, author: string, doughJson: string)

  /** Go's `<` on strings: byte-wise on UTF-8, that is code point order; a proper prefix comes first. */
  predicate LexLess(a: string, b: string) {
    if |a| == 0 then |b| > 0
    else |b| > 0 && (a[0] < b[0] || (a[0] == b[0] && LexLess(a[1..], b[1..])))
  }

  lemma {:induction false} LexLessIrreflexive(a: string)
    ensures !LexLess(a, a)
  {
    if |a| > 0 {
      LexLessIrreflexive(a[1..]);
    }
  }

  lemma {:induction false} LexLessAsymmetric(a: string, b: string)
    requires LexLess(a, b)
    ensures !LexLess(b, a)
  {
    if |a| > 0 && a[0] == b[0] {
      LexLessAsymmetric(a[1..], b[1..]);
    }
  }

  lemma {:induction false} LexLessTransitive(a: string, b: string, c: string)
    requires LexLess(a, b) && LexLess(b, c)
    ensures LexLess(a, c)
  {
    if |a| > 0 && a[0] == b[0] && b[0] == c[0] {
      LexLessTransitive(a[1..], b[1..], c[1..]);
    }
  }

  /** Two different strings are ordered one way or the other. */
  lemma {:induction false} LexLessTotal(a: string, b: string)
    requires a != b
    ensures LexLess(a, b) || LexLess(b, a)
  {
    if |a| > 0 && |b| > 0 && a[0] == b[0] {
      assert a == [a[0]] + a[1..] && b == [b[0]] + b[1..];
      LexLessTotal(a[1..], b[1..]);
    }
  }

  /** The comparator handed to the sort: -1 puts `a` first, 1 puts `b` first. */
  function Compare(a: Ingredient, b: Ingredient): int {
    if a.amount > b.amount then -1
    else if a.amount == b.amount && LexLess(a.name, b.name) then -1
    else 1
  }

  /** `a` goes before `b`: a larger amount, or the same amount and a smaller name. */
  predicate Before(a: Ingredient, b: Ingredient) {
    a.amount > b.amount || (a.amount == b.amount && LexLess(a.name, b.name))
  }

  /** The comparator puts `a` first exactly when `a` goes before `b`, and never answers 0. */
  lemma CompareIsBefore(a: Ingredient, b: Ingredient)
    ensures Compare(a, b) == -1 <==> Before(a, b)
    ensures Compare(a, b) == 1 <==> !Before(a, b)
  {
  }

  lemma BeforeAsymmetric(a: Ingredient, b: Ingredient)
    requires Before(a, b)
    ensures !Before(b, a)
  {
    if a.amount == b.amount {
      LexLessAsymmetric(a.name, b.name);
    }
  }

  lemma BeforeTransitive(a: Ingredient, b: Ingredient, c: Ingredient)
    requires Before(a, b) && Before(b, c)
    ensures Before(a, c)
  {
    if a.amount == b.amount && b.amount == c.amount {
      LexLessTransitive(a.name, b.name, c.name);
    }
  }

  /** Two different ingredients are ordered one way or the other: the order is total. */
  lemma BeforeTotal(a: Ingredient, b: Ingredient)
    requires a != b
    ensures Before(a, b) || Before(b, a)
  {
    if a.amount == b.amount {
      LexLessTotal(a.name, b.name);
    }
  }

  /** Every ingredient goes before every later one; in particular none occurs twice. */
  predicate Sorted(s: seq<Ingredient>) {
    forall i, j :: 0 <= i < j < |s| ==> Before(s[i], s[j])
  }

  predicate Distinct<T(==)>(s: seq<T>) {
    forall i, j :: 0 <= i < j < |s| ==> s[i] != s[j]
  }

  /** `x` put into its place in `s`. */
  function Insert(x: Ingredient, s: seq<Ingredient>): (r: seq<Ingredient>)
    requires Sorted(s) && x !in s
    ensures Sorted(r)
    ensures multiset(r) == multiset(s) + multiset{x}
  {
    if |s| == 0 then [x]
    else if Before(x, s[0]) then
      InsertFirst(x, s);
      [x] + s
    else
      BeforeTotal(x, s[0]);
      var rest := Insert(x, s[1..]);
      assert s == [s[0]] + s[1..];
      InsertAfter(s[0], rest, s[1..], x);
      [s[0]] + rest
  }

  lemma InsertFirst(x: Ingredient, s: seq<Ingredient>)
    requires Sorted(s) && |s| > 0 && Before(x, s[0])
    ensures Sorted([x] + s)
  {
    forall j | 0 < j < |s|
      ensures Before(x, s[j])
    {
      BeforeTransitive(x, s[0], s[j]);
    }
  }

  lemma InsertAfter(first: Ingredient, rest: seq<Ingredient>, tail: seq<Ingredient>, x: Ingredient)
    requires Sorted(rest) && Before(first, x)
    requires forall j :: 0 <= j < |tail| ==> Before(first, tail[j])
    requires multiset(rest) == multiset(tail) + multiset{x}
    ensures Sorted([first] + rest)
  {
    forall j | 0 <= j < |rest|
      ensures Before(first, rest[j])
    {
      assert rest[j] in multiset(rest);
      if rest[j] != x {
        assert rest[j] in multiset(tail);
        var k :| 0 <= k < |tail| && tail[k] == rest[j];
      }
    }
  }

  /** The sort of `s` by `Before`: the same ingredients, each once, in order. */
  function Sort(s: seq<Ingredient>): (r: seq<Ingredient>)
    requires Distinct(s)
    ensures Sorted(r)
    ensures multiset(r) == multiset(s)
  {
    if |s| == 0 then []
    else
      var prefix := s[..|s| - 1];
      var x := s[|s| - 1];
      var sorted := Sort(prefix);
      assert x !in multiset(prefix);
      assert s == prefix + [x];
      Insert(x, sorted)
  }

  /** Two sorted sequences holding the same ingredients are the same sequence. */
  lemma {:induction false} SortedUnique(a: seq<Ingredient>, b: seq<Ingredient>)
    requires Sorted(a) && Sorted(b)
    requires forall x :: x in a <==> x in b
    ensures a == b
  {
    if |a| > 0 {
      NotEmpty(a, b);
    }
    if |b| > 0 {
      NotEmpty(b, a);
    }
    if |a| > 0 {
      assert b[0] in a && a[0] in b;
      if a[0] != b[0] {
        var i :| 0 <= i < |a| && a[i] == b[0];
        var j :| 0 <= j < |b| && b[j] == a[0];
        BeforeAsymmetric(a[0], b[0]);
      }
      assert a == [a[0]] + a[1..] && b == [b[0]] + b[1..];
      forall x
        ensures x in a[1..] <==> x in b[1..]
      {
        if x in a[1..] {
          BeforeIrreflexive(a[0], x, a);
          InTail(x, b);
        }
        if x in b[1..] {
          BeforeIrreflexive(b[0], x, b);
          InTail(x, a);
        }
      }
      SortedUnique(a[1..], b[1..]);
    }
  }

  lemma NotEmpty<T>(s: seq<T>, t: seq<T>)
    requires |s| > 0 && forall x :: x in s ==> x in t
    ensures |t| > 0
  {
    assert s[0] in t;
  }

  lemma InTail<T>(x: T, s: seq<T>)
    requires x in s && x != s[0]
    ensures x in s[1..]
  {
    var i :| 0 <= i < |s| && s[i] == x;
    assert s[1..][i - 1] == x;
  }

  /** A later element of a sorted sequence differs from its first. */
  lemma BeforeIrreflexive(first: Ingredient, x: Ingredient, s: seq<Ingredient>)
    requires Sorted(s) && |s| > 0 && s[0] == first && x in s[1..]
    ensures x != first
  {
    var i :| 1 <= i < |s| && s[i] == x;
    if x == first {
      BeforeAsymmetric(s[0], s[i]);
    }
  }

  /** The keys of the dough object in the order the map happens to be ranged over: each key once. */
  ghost predicate Enumerates(order: seq<string>, keys: set<string>) {
    Distinct(order) && (forall k :: k in order <==> k in keys)
  }

  /** The ingredient keys of a decoded dough object. */
  function IngredientKeys(dough: map<string, real>): set<string> {
    dough.Keys - {PercentVariationKey}
  }

  /** One ingredient per key, in the given order. */
  function Entries(dough: map<string, real>, order: seq<string>): (r: seq<Ingredient>)
    requires Enumerates(order, IngredientKeys(dough))
    ensures Distinct(r)
    ensures forall x :: x in r <==> x.name in IngredientKeys(dough) && x.amount == dough[x.name]
  {
    assert forall i :: 0 <= i < |order| ==> order[i] in IngredientKeys(dough);
    var r := Sequences.Map(order, (key: string) requires key in dough => Ingredient(key, dough[key]));
    assert forall x :: x in r ==> exists i :: 0 <= i < |order| && r[i] == x;
    assert forall x: Ingredient :: x.name in order && x.name in dough && x.amount == dough[x.name] ==>
      exists i :: 0 <= i < |order| && order[i] == x.name && r[i] == x;
    r
  }

  /** `ingredients` hold exactly the dough object's entries other than the percent variation. */
  ghost predicate DecodedFrom(ingredients: seq<Ingredient>, dough: map<string, real>) {
    forall x :: x in ingredients <==> x.name in IngredientKeys(dough) && x.amount == dough[x.name]
  }

  /** The percent variation of a decoded dough object; a missing key reads as 0. */
  function PercentVariationOf(dough: map<string, real>): real {
    if PercentVariationKey in dough then dough[PercentVariationKey] else 0.0
  }

  /**
   * `GetRecipeByUuid`. `scanned` is the query's outcome, `decoded` that of
   * decoding the dough column, and `order` the order the decoded map is
   * ranged over. A failure of either is returned as it is; otherwise the
   * recipe has the row's header, the percent variation of the object, and its
   * other entries as ingredients, sorted. The topping is left empty.
   */
  function GetRecipeByUuid<E>(scanned: Result<Row, E>, decoded: Result<map<string, real>, E>, order: seq<string>)
    : (r: Result<Recipe, E>)
    requires scanned.Success? && decoded.Success? ==> Enumerates(order, IngredientKeys(decoded.value))
    ensures scanned.Failure? ==> r == Failure(scanned.error)
    ensures scanned.Success? && decoded.Failure? ==> r == Failure(decoded.error)
    ensures r.Success? <==> scanned.Success? && decoded.Success?
    ensures r.Success? ==>
      var row := scanned.value;
      var recipe := r.value;
      && recipe.id == row.id && recipe.uuid == row.uuid && recipe.name == row.name
      && recipe.description == row.description && recipe.author == row.author
      && recipe.dough.name == ""
      && recipe.dough.percentVariation == PercentVariationOf(decoded.value)
      && DecodedFrom(recipe.dough.ingredients, decoded.value)
      && Sorted(recipe.dough.ingredients)
      && recipe.topping == Topping("", 0.0, [])
  {
    match scanned
    case Failure(e) => Failure(e)
    case Success(row) =>
      match decoded
      case Failure(e) => Failure(e)
      case Success(dough) =>
        var ingredients := Sort(Entries(dough, order));
        assert forall x :: x in ingredients <==> x in multiset(Entries(dough, order));
        var d := Dough("", PercentVariationOf(dough), ingredients);
        Success(Recipe(row.id, row.uuid, row.name, row.description, row.author, d, Topping("", 0.0, []), Steps))
  }

  /** The ingredients, and so the whole recipe, do not depend on the order the map is ranged over. */
  lemma OrderDoesNotMatter<E>(scanned: Result<Row, E>, decoded: Result<map<string, real>, E>,
                              order: seq<string>, order': seq<string>)
    requires scanned.Success? && decoded.Success? ==> Enumerates(order, IngredientKeys(decoded.value))
    requires scanned.Success? && decoded.Success? ==> Enumerates(order', IngredientKeys(decoded.value))
    ensures GetRecipeByUuid(scanned, decoded, order) == GetRecipeByUuid(scanned, decoded, order')
  {
    if scanned.Success? && decoded.Success? {
      var a := GetRecipeByUuid(scanned, decoded, order).value.dough.ingredients;
      var b := GetRecipeByUuid(scanned, decoded, order').value.dough.ingredients;
      SortedUnique(a, b);
    }
  }

  /** The dough object alone determines the ingredient list: there is one sorted list of its entries. */
  lemma DecodedUnique(a: seq<Ingredient>, b: seq<Ingredient>, dough: map<string, real>)
    requires DecodedFrom(a, dough) && Sorted(a)
    requires DecodedFrom(b, dough) && Sorted(b)
    ensures a == b
  {
    assert forall x :: x in a <==> x in b;
    SortedUnique(a, b);
  }

  /** An example dough object with the lowercase keys the repository reads, and a negative percent variation. */
  const ExampleDough: map<string, real> :=
    map["percentVariation" := -10.0, "flour" := 60.0, "water" := 30.0, "salt" := 5.0, "evoOil" := 3.0, "yeast" := 2.0]

  /** Whatever order the map is ranged over, the example comes out largest first, without the percent variation. */
  lemma ExampleRow(row: Row, order: seq<string>)
    requires Enumerates(order, IngredientKeys(ExampleDough))
    ensures var r := GetRecipeByUuid<string>(Success(row), Success(ExampleDough), order);
      && r.Success?
      && r.value.dough == Dough("", -10.0, ExampleIngredients)
  {
    var dough := GetRecipeByUuid<string>(Success(row), Success(ExampleDough), order).value.dough;
    assert PercentVariationOf(ExampleDough) == -10.0;
    ExampleDecoded();
    DecodedUnique(dough.ingredients, ExampleIngredients, ExampleDough);
  }

  const ExampleIngredients: seq<Ingredient> := [
    Ingredient("flour", 60.0), Ingredient("water", 30.0), Ingredient("salt", 5.0),
    Ingredient("evoOil", 3.0), Ingredient("yeast", 2.0)]

  lemma ExampleDecoded()
    ensures DecodedFrom(ExampleIngredients, ExampleDough) && Sorted(ExampleIngredients)
  {
    ExampleKeys();
    forall x: Ingredient
      ensures x in ExampleIngredients <==> x.name in IngredientKeys(ExampleDough) && x.amount == ExampleDough[x.name]
    {
      if x.name in IngredientKeys(ExampleDough) && x.amount == ExampleDough[x.name] {
        assert x == Ingredient(x.name, ExampleDough[x.name]);
      }
    }
    ExampleSorted();
  }

  lemma ExampleKeys()
    ensures IngredientKeys(ExampleDough) == {"flour", "water", "salt", "evoOil", "yeast"}
  {
  }

  lemma ExampleSorted()
    ensures Sorted(ExampleIngredients)
  {
  }

  /** Equal amounts are ordered by name. */
  lemma TieBrokenByName(row: Row, order: seq<string>)
    requires Enumerates(order, {"b", "a"})
    ensures var r := GetRecipeByUuid<string>(Success(row), Success(map["b" := 1.0, "a" := 1.0]), order);
      r.Success? && r.value.dough == Dough("", 0.0, [Ingredient("a", 1.0), Ingredient("b", 1.0)])
  {
    var dough := map["b" := 1.0, "a" := 1.0];
    TieDecoded();
    assert IngredientKeys(dough) == {"b", "a"};
    var r := GetRecipeByUuid<string>(Success(row), Success(dough), order);
    DecodedUnique(r.value.dough.ingredients, [Ingredient("a", 1.0), Ingredient("b", 1.0)], dough);
  }

  lemma TieDecoded()
    ensures var expected := [Ingredient("a", 1.0), Ingredient("b", 1.0)];
      DecodedFrom(expected, map["b" := 1.0, "a" := 1.0]) && Sorted(expected)
  {
    assert LexLess("a", "b");
  }
}
