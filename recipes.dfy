/**
 * The nutrient recipe pages: create and delete a recipe, add and edit its
 * components, and choose the recipe used for nutrient dosing. Recipes and
 * components are tables keyed by row id; the chosen recipe is the
 * `active_recipe_id` setting.
 */
module Recipes {
  import opened Common
  import opened SettingsStore
  import opened PumpModel

  const ACTIVE_RECIPE_KEY := "active_recipe_id"

  /** A `nutrient_recipes` row; its id is its key in the table. */
  datatype Recipe = Recipe(name: string, description: Option<string>, active: bool)

  /** A `recipe_components` row; the component name is nullable. */
  datatype Part = Part(recipeId: int, pumpId: int, name: Option<string>, ratio: real)

  /** Both tables. */
  datatype Book = Book(recipes: map<int, Recipe>, parts: map<int, Part>)

  /** What a handler decides, in place of its flash message and redirect. */
  datatype Outcome =
    | NotFound              // `get_or_404` found no row
    | NameRequired
    | PumpRequired
    | NoSuchPump
    | PumpInRecipe(pumpName: string)
    | RatioNotPositive
    | ActiveKept
    | NoComponents
    | Crash                 // `int()` of the stored setting raised
    | Saved(id: int)

  /**
   * Every component belongs to a stored recipe, and no recipe lists one pump twice.
   */
  ghost predicate Consistent(b: Book)
  {
    && (forall k :: k in b.parts ==> b.parts[k].recipeId in b.recipes)
    && (forall j, k :: j in b.parts && k in b.parts && j != k && b.parts[j].recipeId == b.parts[k].recipeId
          ==> b.parts[j].pumpId != b.parts[k].pumpId)
  }

  /** Some component of the recipe doses from the pump. */
  predicate UsesPump(parts: map<int, Part>, recipeId: int, pumpId: int)
  {
    exists k :: k in parts && parts[k].recipeId == recipeId && parts[k].pumpId == pumpId
  }

  /** `recipe.components` is non-empty. */
  predicate HasParts(parts: map<int, Part>, recipeId: int)
  {
    exists k :: k in parts && parts[k].recipeId == recipeId
  }

  // ---------------------------------------------------------------------
  // add_recipe
  // ---------------------------------------------------------------------

  /** `add_recipe`: a name is required; the new recipe is created active. */
  function AddRecipeSpec(b: Book, name: Option<string>, description: Option<string>, newId: int): (Outcome, Book)
  {
    if !Filled(name) then (NameRequired, b)
    else (Saved(newId), b.(recipes := b.recipes[newId := Recipe(name.value, description, true)]))
  }

  lemma AddRecipeRules(b: Book, name: Option<string>, description: Option<string>, newId: int)
    requires Consistent(b) && newId !in b.recipes
    ensures var (out, b') := AddRecipeSpec(b, name, description, newId);
      && (out.Saved? <==> Filled(name))
      && (out.Saved? ==> out.id == newId && b'.recipes.Keys == b.recipes.Keys + {newId}
                         && b'.recipes[newId] == Recipe(name.value, description, true))
      && (!out.Saved? ==> out == NameRequired && b' == b)
      && (forall k :: k in b.recipes ==> b'.recipes[k] == b.recipes[k])
      && b'.parts == b.parts && Consistent(b')
  {
  }

  // ---------------------------------------------------------------------
  // add_component
  // ---------------------------------------------------------------------

  /**
   * `add_component`: the recipe must exist, a non-zero pump id is required and
   * must name a pump, and the pump must not already be in the recipe. The name
   * defaults to the pump's name and the ratio to 1.0; the ratio's sign is not checked.
   */
  function AddPartSpec(b: Book, pumps: seq<Pump>, recipeId: int, pumpId: Option<int>,
                       name: Option<string>, ratio: Option<real>, newId: int): (Outcome, Book)
  {
    if recipeId !in b.recipes then (NotFound, b)
    else if pumpId.None? || pumpId.value == 0 then (PumpRequired, b)
    else match Find(pumps, pumpId.value)
      case None => (NoSuchPump, b)
      case Some(p) =>
        if UsesPump(b.parts, recipeId, pumpId.value) then (PumpInRecipe(p.name), b)
        else
          var part := Part(recipeId, pumpId.value, if Filled(name) then name else Some(p.name), ratio.GetOr(1.0));
          (Saved(newId), b.(parts := b.parts[newId := part]))
  }

  lemma AddPartRules(b: Book, pumps: seq<Pump>, recipeId: int, pumpId: Option<int>,
                     name: Option<string>, ratio: Option<real>, newId: int)
    ensures var (out, b') := AddPartSpec(b, pumps, recipeId, pumpId, name, ratio, newId);
      && (out.Saved? <==> recipeId in b.recipes && pumpId.Some? && pumpId.value != 0
                          && Find(pumps, pumpId.value).Some? && !UsesPump(b.parts, recipeId, pumpId.value))
      && (recipeId !in b.recipes ==> out == NotFound)
      && (!out.Saved? ==> b' == b)
      && (out.Saved? ==>
            var pump := Find(pumps, pumpId.value).value;
            && out.id == newId && b'.recipes == b.recipes && b'.parts.Keys == b.parts.Keys + {newId}
            && b'.parts[newId].recipeId == recipeId && b'.parts[newId].pumpId == pump.id
            && b'.parts[newId].name == (if Filled(name) then name else Some(pump.name))
            && b'.parts[newId].ratio == (if ratio.Some? then ratio.value else 1.0)
            && forall k :: k in b.parts && k != newId ==> b'.parts[k] == b.parts[k])
  {
  }

  /** Adding a component keeps the tables consistent: the pump was not yet in the recipe. */
  lemma AddPartKeepsConsistent(b: Book, pumps: seq<Pump>, recipeId: int, pumpId: Option<int>,
                               name: Option<string>, ratio: Option<real>, newId: int)
    requires Consistent(b) && newId !in b.parts
    ensures Consistent(AddPartSpec(b, pumps, recipeId, pumpId, name, ratio, newId).1)
  {
    var (out, b') := AddPartSpec(b, pumps, recipeId, pumpId, name, ratio, newId);
    if out.Saved? {
      forall j, k | j in b'.parts && k in b'.parts && j != k && b'.parts[j].recipeId == b'.parts[k].recipeId
        ensures b'.parts[j].pumpId != b'.parts[k].pumpId
      {
        if j == newId {
          assert !(k in b.parts && b.parts[k].recipeId == recipeId && b.parts[k].pumpId == pumpId.value);
        } else if k == newId {
          assert !(j in b.parts && b.parts[j].recipeId == recipeId && b.parts[j].pumpId == pumpId.value);
        }
      }
    }
  }

  // ---------------------------------------------------------------------
  // edit_component
  // ---------------------------------------------------------------------

  /** `edit_component`: the ratio must be given and positive; the name is overwritten, possibly with none. */
  function EditPartSpec(b: Book, partId: int, name: Option<string>, ratio: Option<real>): (Outcome, Book)
  {
    if partId !in b.parts then (NotFound, b)
    else if ratio.None? || ratio.value <= 0.0 then (RatioNotPositive, b)
    else (Saved(partId), b.(parts := b.parts[partId := b.parts[partId].(name := name, ratio := ratio.value)]))
  }

  lemma EditPartRules(b: Book, partId: int, name: Option<string>, ratio: Option<real>)
    requires Consistent(b)
    ensures var (out, b') := EditPartSpec(b, partId, name, ratio);
      && (out.Saved? <==> partId in b.parts && ratio.Some? && ratio.value > 0.0)
      && (partId in b.parts && !out.Saved? ==> out == RatioNotPositive)
      && (!out.Saved? ==> b' == b)
      && (out.Saved? ==>
            && b'.parts.Keys == b.parts.Keys && b'.recipes == b.recipes
            && b'.parts[partId].ratio > 0.0 && b'.parts[partId].name == name
            && b'.parts[partId].recipeId == b.parts[partId].recipeId
            && b'.parts[partId].pumpId == b.parts[partId].pumpId
            && forall k :: k in b.parts && k != partId ==> b'.parts[k] == b.parts[k])
      && Consistent(b')
  {
  }

  /**
   * The two component forms disagree on the ratio: a ratio that is zero or negative
   * is stored by `add_component` and refused by `edit_component` on that same component.
   */
  lemma AddAcceptsWhatEditRefuses(b: Book, pumps: seq<Pump>, recipeId: int, pumpId: int, r: real, newId: int)
    requires recipeId in b.recipes && pumpId != 0 && Find(pumps, pumpId).Some? && !UsesPump(b.parts, recipeId, pumpId)
    requires r <= 0.0
    ensures var (out, b') := AddPartSpec(b, pumps, recipeId, Some(pumpId), None, Some(r), newId);
      && out == Saved(newId) && b'.parts[newId].ratio == r
      && EditPartSpec(b', newId, b'.parts[newId].name, Some(r)) == (RatioNotPositive, b')
  {
  }

  // ---------------------------------------------------------------------
  // The active recipe
  // ---------------------------------------------------------------------

  /** What `int(Settings.get('active_recipe_id'))` yields once the value is truthy. */
  datatype ActiveRef = Unset | Points(id: int) | Unreadable

  /**
   * The active recipe setting: unset when absent or falsy; a number is truncated,
   * `True` is 1; a text that did not decode as a number makes `int()` raise.
   */
  function ActiveRecipe(values: map<string, Value>): (r: ActiveRef)
    ensures r.Unset? <==> ACTIVE_RECIPE_KEY !in values || !Truthy(values[ACTIVE_RECIPE_KEY])
  {
    if ACTIVE_RECIPE_KEY !in values || !Truthy(values[ACTIVE_RECIPE_KEY]) then Unset
    else match values[ACTIVE_RECIPE_KEY]
      case Num(n) => Points(Trunc(n))
      case Flag(_) => Points(1)
      case Text(_) => Unreadable
  }

  /** The active recipe setting, when it names one, names a stored recipe. */
  ghost predicate ActiveExists(b: Book, values: map<string, Value>)
  {
    ActiveRecipe(values).Points? ==> ActiveRecipe(values).id in b.recipes
  }

  // ---------------------------------------------------------------------
  // delete_recipe
  // ---------------------------------------------------------------------

  /** `delete_recipe`: the active recipe is kept; deleting a recipe deletes its components. */
  function DeleteRecipeSpec(b: Book, values: map<string, Value>, recipeId: int): (Outcome, Book)
  {
    if recipeId !in b.recipes then (NotFound, b)
    else match ActiveRecipe(values)
      case Unreadable => (Crash, b)
      case Points(a) =>
        if a == recipeId then (ActiveKept, b) else (Saved(recipeId), Dropped(b, recipeId))
      case Unset => (Saved(recipeId), Dropped(b, recipeId))
  }

  /** The tables without one recipe and its components. */
  function Dropped(b: Book, recipeId: int): (r: Book)
  {
    Book(b.recipes - {recipeId}, map k | k in b.parts && b.parts[k].recipeId != recipeId :: b.parts[k])
  }

  lemma DeleteRecipeRules(b: Book, values: map<string, Value>, recipeId: int)
    requires Consistent(b)
    ensures var (out, b') := DeleteRecipeSpec(b, values, recipeId);
      && (out.Saved? <==> recipeId in b.recipes && ActiveRecipe(values) != Points(recipeId) && !ActiveRecipe(values).Unreadable?)
      && (recipeId in b.recipes && ActiveRecipe(values) == Points(recipeId) ==> out == ActiveKept)
      && (!out.Saved? ==> b' == b)
      && (out.Saved? ==>
            && b'.recipes.Keys == b.recipes.Keys - {recipeId}
            && (forall k :: k in b'.recipes ==> b'.recipes[k] == b.recipes[k])
            && (forall k :: k in b'.parts <==> k in b.parts && b.parts[k].recipeId != recipeId)
            && (forall k :: k in b'.parts ==> b'.parts[k] == b.parts[k]))
      && Consistent(b')
  {
  }

  /** A delete request never removes the recipe the active setting names. */
  lemma DeleteKeepsActive(b: Book, values: map<string, Value>, recipeId: int)
    requires ActiveExists(b, values)
    ensures ActiveExists(DeleteRecipeSpec(b, values, recipeId).1, values)
  {
  }

  // ---------------------------------------------------------------------
  // set_active_recipe
  // ---------------------------------------------------------------------

  /** `set_active_recipe`: a recipe without components cannot be chosen. */
  function SetActiveSpec(b: Book, values: map<string, Value>, recipeId: int): (Outcome, map<string, Value>)
  {
    if recipeId !in b.recipes then (NotFound, values)
    else if !HasParts(b.parts, recipeId) then (NoComponents, values)
    else (Saved(recipeId), values[ACTIVE_RECIPE_KEY := Num(recipeId as real)])
  }

  lemma SetActiveRules(b: Book, values: map<string, Value>, recipeId: int)
    requires ActiveExists(b, values)
    ensures var (out, values') := SetActiveSpec(b, values, recipeId);
      && (out.Saved? <==> recipeId in b.recipes && HasParts(b.parts, recipeId))
      && (recipeId in b.recipes && !HasParts(b.parts, recipeId) ==> out == NoComponents)
      && (!out.Saved? ==> values' == values)
      && (out.Saved? ==> ActiveRecipe(values') == (if recipeId == 0 then Unset else Points(recipeId))
                         && forall k :: k in values && k != ACTIVE_RECIPE_KEY ==> k in values' && values'[k] == values[k])
      && ActiveExists(b, values')
  {
    var (out, values') := SetActiveSpec(b, values, recipeId);
    if out.Saved? && recipeId != 0 {
      assert Trunc(recipeId as real) == recipeId;
    }
  }

  /** Once a recipe is chosen, deleting it is refused and the tables stay as they were. */
  lemma ChosenRecipeIsKept(b: Book, values: map<string, Value>, recipeId: int)
    requires recipeId != 0 && SetActiveSpec(b, values, recipeId).0.Saved?
    ensures DeleteRecipeSpec(b, SetActiveSpec(b, values, recipeId).1, recipeId) == (ActiveKept, b)
  {
    assert Trunc(recipeId as real) == recipeId;
  }

  /** The recipe and component tables, updated in place by the handlers. */
  class RecipeBook {
    var recipes: map<int, Recipe>
    var parts: map<int, Part>

    function Contents(): Book
      reads this
    {
      Book(recipes, parts)
    }

    ghost predicate Valid()
      reads this
    {
      Consistent(Contents())
    }

    constructor ()
      ensures recipes == map[] && parts == map[] && Valid()
    {
      recipes := map[];
      parts := map[];
    }

    /** `POST /recipes/add`; `newId` is the row id the database assigns. */
    method AddRecipe(name: Option<string>, description: Option<string>, newId: int) returns (out: Outcome)
      requires Valid() && newId !in recipes
      modifies this
      ensures Valid()
      ensures (out, Contents()) == AddRecipeSpec(old(Contents()), name, description, newId)
    {
      AddRecipeRules(Contents(), name, description, newId);
      if !Filled(name) {
        return NameRequired;
      }
      recipes := recipes[newId := Recipe(name.value, description, true)];
      out := Saved(newId);
    }

    /** `POST /recipes/component/add/<recipe_id>` against the pumps table. */
    method AddComponent(table: PumpTable, recipeId: int, pumpId: Option<int>, name: Option<string>,
                        ratio: Option<real>, newId: int) returns (out: Outcome)
      requires Valid() && newId !in parts
      modifies this
      ensures Valid()
      ensures (out, Contents()) == AddPartSpec(old(Contents()), table.rows, recipeId, pumpId, name, ratio, newId)
    {
      AddPartKeepsConsistent(Contents(), table.rows, recipeId, pumpId, name, ratio, newId);
      if recipeId !in recipes {
        return NotFound;
      }
      if pumpId.None? || pumpId.value == 0 {
        return PumpRequired;
      }
      var pump := Find(table.rows, pumpId.value);
      if pump.None? {
        return NoSuchPump;
      }
      if UsesPump(parts, recipeId, pumpId.value) {
        return PumpInRecipe(pump.value.name);
      }
      var partName := if Filled(name) then name else Some(pump.value.name);
      parts := parts[newId := Part(recipeId, pumpId.value, partName, ratio.GetOr(1.0))];
      out := Saved(newId);
    }

    /** `POST /recipes/component/edit/<component_id>`. */
    method EditComponent(partId: int, name: Option<string>, ratio: Option<real>) returns (out: Outcome)
      requires Valid()
      modifies this
      ensures Valid()
      ensures (out, Contents()) == EditPartSpec(old(Contents()), partId, name, ratio)
    {
      EditPartRules(Contents(), partId, name, ratio);
      if partId !in parts {
        return NotFound;
      }
      if ratio.None? || ratio.value <= 0.0 {
        return RatioNotPositive;
      }
      parts := parts[partId := parts[partId].(name := name, ratio := ratio.value)];
      out := Saved(partId);
    }

    /** `POST /recipes/delete/<recipe_id>`, reading the active recipe from the settings. */
    method DeleteRecipe(store: Store, recipeId: int) returns (out: Outcome)
      requires Valid()
      modifies this
      ensures Valid()
      ensures (out, Contents()) == DeleteRecipeSpec(old(Contents()), store.values, recipeId)
    {
      DeleteRecipeRules(Contents(), store.values, recipeId);
      if recipeId !in recipes {
        return NotFound;
      }
      var active := ActiveRecipe(store.values);
      if active.Unreadable? {
        return Crash;
      }
      if active == Points(recipeId) {
        return ActiveKept;
      }
      recipes := recipes - {recipeId};
      parts := map k | k in parts && parts[k].recipeId != recipeId :: parts[k];
      out := Saved(recipeId);
    }

    /** `POST /recipes/set-active/<recipe_id>`: writes the setting. */
    method SetActiveRecipe(store: Store, recipeId: int) returns (out: Outcome)
      modifies store
      ensures (out, store.values) == SetActiveSpec(Contents(), old(store.values), recipeId)
      ensures store.profiles == old(store.profiles) && store.incompatibilities == old(store.incompatibilities)
    {
      if recipeId !in recipes {
        return NotFound;
      }
      if !HasParts(parts, recipeId) {
        return NoComponents;
      }
      store.Set(ACTIVE_RECIPE_KEY, Num(recipeId as real));
      out := Saved(recipeId);
    }
  }
}
