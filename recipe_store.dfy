/** The client-side recipe store of the recipe-sharing app (store/recipeStore.js):
    one list of recipe objects that every action replaces. Recipes are
    compared by object identity (`!==`), so they are modelled as objects. */
module RecipeStore {
  import opened Seqs

  /** A recipe object; the store only ever compares recipes by identity. */
  class Recipe {
    var id: int
    var title: string
    var description: string

    constructor (id: int, title: string, description: string)
      ensures this.id == id && this.title == title && this.description == description
    {
      this.id := id;
      this.title := title;
      this.description := description;
    }
  }

  /** `recipes.filter(item => item !== recipe)`. */
  function Without(recipes: seq<Recipe>, recipe: Recipe): seq<Recipe> {
    Filter(recipes, (item: Recipe) => item != recipe)
  }

  /** `[...recipes.filter(item => item !== oldRecipe), newRecipe]`. */
  function Updated(recipes: seq<Recipe>, oldRecipe: Recipe, newRecipe: Recipe): seq<Recipe> {
    Without(recipes, oldRecipe) + [newRecipe]
  }

  /** Deleting removes exactly the occurrences of that object: the result is
      shorter by their number, holds no copy of it, keeps every other recipe
      in order, and equals the list when the recipe is absent. */
  lemma {:induction false} WithoutProperties(recipes: seq<Recipe>, recipe: Recipe)
    ensures |Without(recipes, recipe)| == |recipes| - multiset(recipes)[recipe]
    ensures recipe !in Without(recipes, recipe)
    ensures multiset(Without(recipes, recipe)) == multiset(recipes)[recipe := 0]
    ensures recipe !in recipes ==> Without(recipes, recipe) == recipes
  {
    if recipes != [] {
      WithoutProperties(recipes[1..], recipe);
      assert recipes == [recipes[0]] + recipes[1..];
    }
  }

  /** Deleting keeps the other recipes in their order. */
  lemma WithoutKeepsOrder(recipes: seq<Recipe>, recipe: Recipe)
    ensures IsSubsequence(Without(recipes, recipe), recipes)
  {
    FilterIsSubsequence(recipes, (item: Recipe) => item != recipe);
  }

  /** Updating moves the new recipe to the end; the length is kept when the
      old recipe occurred once; when it was absent updating is adding. */
  lemma UpdatedProperties(recipes: seq<Recipe>, oldRecipe: Recipe, newRecipe: Recipe)
    ensures var r := Updated(recipes, oldRecipe, newRecipe);
            |r| > 0 && r[|r| - 1] == newRecipe
            && (multiset(recipes)[oldRecipe] == 1 ==> |r| == |recipes|)
            && (oldRecipe !in recipes ==> r == recipes + [newRecipe])
  {
    WithoutProperties(recipes, oldRecipe);
  }

  class Store {
    var recipes: seq<Recipe>

    /** The store starts empty. */
    constructor ()
      ensures recipes == []
    {
      recipes := [];
    }

    /** `addRecipe`: append at the end. */
    method AddRecipe(newRecipe: Recipe)
      modifies this
      ensures recipes == old(recipes) + [newRecipe]
    {
      recipes := recipes + [newRecipe];
    }

    /** `setRecipes`: replace the whole list. */
    method SetRecipes(recipes: seq<Recipe>)
      modifies this
      ensures this.recipes == recipes
    {
      this.recipes := recipes;
    }

    /** `deleteRecipe`: drop every occurrence of that object. */
    method DeleteRecipe(recipe: Recipe)
      modifies this
      ensures recipes == Without(old(recipes), recipe)
    {
      recipes := Without(recipes, recipe);
    }

    /** `updateRecipe`: drop the old object, append the new one. */
    method UpdateRecipe(oldRecipe: Recipe, newRecipe: Recipe)
      modifies this
      ensures recipes == Updated(old(recipes), oldRecipe, newRecipe)
    {
      recipes := Updated(recipes, oldRecipe, newRecipe);
    }
  }
}
