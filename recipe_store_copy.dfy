/** The second copy of the recipe store (components/recipeStore.js). Its four
    actions are written out again with other parameter names; each has the
    same effect on the list as in the first copy. */
module RecipeStoreCopy {
  import opened Seqs
  import RecipeStore

  class Store {
    var recipes: seq<RecipeStore.Recipe>

    constructor ()
      ensures recipes == []
    {
      recipes := [];
    }

    method AddRecipe(newRecipe: RecipeStore.Recipe)
      modifies this
      ensures recipes == old(recipes) + [newRecipe]
    {
      recipes := recipes + [newRecipe];
    }

    method SetRecipes(recipes: seq<RecipeStore.Recipe>)
      modifies this
      ensures this.recipes == recipes
    {
      this.recipes := recipes;
    }

    /** `deleteRecipe: (recipes) => ...filter(item => item !== recipes)`. */
    method DeleteRecipe(recipes: RecipeStore.Recipe)
      modifies this
      ensures this.recipes == RecipeStore.Without(old(this.recipes), recipes)
    {
      this.recipes := Filter(this.recipes, (item: RecipeStore.Recipe) => item != recipes);
    }

    /** `updateRecipe: (oldRecipes, newRecipe) => [...filter(item => item !== oldRecipes), newRecipe]`. */
    method UpdateRecipe(oldRecipes: RecipeStore.Recipe, newRecipe: RecipeStore.Recipe)
      modifies this
      ensures recipes == RecipeStore.Updated(old(recipes), oldRecipes, newRecipe)
    {
      recipes := Filter(recipes, (item: RecipeStore.Recipe) => item != oldRecipes) + [newRecipe];
    }
  }

  /** One call of a store action, with its arguments. */
  datatype Action =
    | Add(recipe: RecipeStore.Recipe)
    | Set(list: seq<RecipeStore.Recipe>)
    | Delete(recipe: RecipeStore.Recipe)
    | Update(oldRecipe: RecipeStore.Recipe, newRecipe: RecipeStore.Recipe)

  /** The list a store holds after one action, as the first copy defines it. */
  function Apply(recipes: seq<RecipeStore.Recipe>, action: Action): seq<RecipeStore.Recipe> {
    match action
    case Add(r) => recipes + [r]
    case Set(list) => list
    case Delete(r) => RecipeStore.Without(recipes, r)
    case Update(o, n) => RecipeStore.Updated(recipes, o, n)
  }

  /** The list after the actions, applied first to last. */
  function Replay(recipes: seq<RecipeStore.Recipe>, actions: seq<Action>): seq<RecipeStore.Recipe>
    decreases |actions|
  {
    if actions == [] then recipes
    else Replay(Apply(recipes, actions[0]), actions[1..])
  }

  /** Replaying a longer run is replaying its prefix, then the last action. */
  lemma {:induction false} ReplaySnoc(recipes: seq<RecipeStore.Recipe>, actions: seq<Action>, last: Action)
    ensures Replay(recipes, actions + [last]) == Apply(Replay(recipes, actions), last)
    decreases |actions|
  {
    if actions == [] {
      assert actions + [last] == [last];
    } else {
      assert (actions + [last])[1..] == actions[1..] + [last];
      ReplaySnoc(Apply(recipes, actions[0]), actions[1..], last);
    }
  }

  /** The two stores, started from the same list and given the same actions
      in the same order, hold the same list after every action. */
  method SameEffect(a: RecipeStore.Store, b: Store, actions: seq<Action>)
    requires a.recipes == b.recipes
    modifies a, b
    ensures a.recipes == b.recipes == Replay(old(a.recipes), actions)
  {
    var i := 0;
    while i < |actions|
      invariant 0 <= i <= |actions|
      invariant a.recipes == b.recipes == Replay(old(a.recipes), actions[..i])
    {
      ReplaySnoc(old(a.recipes), actions[..i], actions[i]);
      assert actions[..i + 1] == actions[..i] + [actions[i]];
      match actions[i] {
        case Add(r) =>
          a.AddRecipe(r);
          b.AddRecipe(r);
        case Set(list) =>
          a.SetRecipes(list);
          b.SetRecipes(list);
        case Delete(r) =>
          a.DeleteRecipe(r);
          b.DeleteRecipe(r);
        case Update(o, n) =>
          a.UpdateRecipe(o, n);
          b.UpdateRecipe(o, n);
      }
      i := i + 1;
    }
    assert actions[..i] == actions;
  }
}
