/** The recipe home page: the loaded recipes, the search box, the category
    buttons and the filtered list the page shows. */
module HomePage {
  import opened Text
  import opened Seqs

  /** The properties of a recipe the page filters on. */
  datatype Recipe = Recipe(id: int, title: string, summary: string, category: string)

  const AllCategories := "All"

  /** The search term occurs, ignoring case, in the title, the summary or the category. */
  predicate SearchMatches(r: Recipe, searchTerm: string) {
    var t := Lower(searchTerm);
    Contains(Lower(r.title), t) || Contains(Lower(r.summary), t) || Contains(Lower(r.category), t)
  }

  /** The filter effect: a non-empty search term keeps the matching recipes,
      then a category other than "All" keeps the recipes of that category. */
  function FilterRecipes(recipes: seq<Recipe>, searchTerm: string, selectedCategory: string): seq<Recipe> {
    var searched := if searchTerm != "" then Filter(recipes, (r: Recipe) => SearchMatches(r, searchTerm)) else recipes;
    if selectedCategory != AllCategories then Filter(searched, (r: Recipe) => r.category == selectedCategory)
    else searched
  }

  /** Whether a recipe passes both filters. */
  predicate Shown(r: Recipe, searchTerm: string, selectedCategory: string) {
    (searchTerm == "" || SearchMatches(r, searchTerm))
    && (selectedCategory == AllCategories || r.category == selectedCategory)
  }

  /** The page shows exactly the loaded recipes that pass both filters, in
      their loaded order. */
  lemma FilterRecipesSpec(recipes: seq<Recipe>, searchTerm: string, selectedCategory: string)
    ensures var shown := FilterRecipes(recipes, searchTerm, selectedCategory);
            (forall i :: 0 <= i < |shown| ==> shown[i] in recipes && Shown(shown[i], searchTerm, selectedCategory))
            && (forall i :: 0 <= i < |recipes| && Shown(recipes[i], searchTerm, selectedCategory) ==> recipes[i] in shown)
            && IsSubsequence(shown, recipes)
  {
    TwoStages(recipes, (r: Recipe) => SearchMatches(r, searchTerm), (r: Recipe) => r.category == selectedCategory,
              searchTerm != "", selectedCategory != AllCategories);
  }

  /** An optional filter by `p` followed by an optional filter by `q` keeps
      exactly the elements that pass the filters applied, in order. */
  lemma TwoStages<T>(s: seq<T>, p: T -> bool, q: T -> bool, useP: bool, useQ: bool)
    ensures var a := if useP then Filter(s, p) else s;
            var r := if useQ then Filter(a, q) else a;
            (forall i :: 0 <= i < |r| ==> r[i] in s && (useP ==> p(r[i])) && (useQ ==> q(r[i])))
            && (forall i :: 0 <= i < |s| && (useP ==> p(s[i])) && (useQ ==> q(s[i])) ==> s[i] in r)
            && IsSubsequence(r, s)
  {
    var a := if useP then Filter(s, p) else s;
    if useP && useQ {
      var both := x => p(x) && q(x);
      FilterFilter(s, p, q, both);
      FilterIsSubsequence(s, both);
    } else if useP {
      FilterIsSubsequence(s, p);
    } else if useQ {
      FilterIsSubsequence(s, q);
    } else {
      ReflexiveSubsequence(s);
    }
  }

  lemma {:induction false} ReflexiveSubsequence<T>(s: seq<T>)
    ensures IsSubsequence(s, s)
  {
    if s != [] {
      ReflexiveSubsequence(s[1..]);
    }
  }

  /** With no search term and "All" selected every loaded recipe is shown;
      a search term that only differs in case gives the same list. */
  lemma FilterIgnoresCase(recipes: seq<Recipe>, searchTerm: string, selectedCategory: string)
    ensures FilterRecipes(recipes, "", AllCategories) == recipes
    ensures FilterRecipes(recipes, Lower(searchTerm), selectedCategory) == FilterRecipes(recipes, searchTerm, selectedCategory)
  {
    LowerIdempotent(searchTerm);
    FilterSame(recipes, (r: Recipe) => SearchMatches(r, Lower(searchTerm)), (r: Recipe) => SearchMatches(r, searchTerm));
  }

  /** The category of each recipe, in order. */
  function CategoriesOf(recipes: seq<Recipe>): (c: seq<string>)
    ensures |c| == |recipes| && forall i :: 0 <= i < |recipes| ==> c[i] == recipes[i].category
  {
    seq(|recipes|, i requires 0 <= i < |recipes| => recipes[i].category)
  }

  /** The category buttons: "All", then each category of the loaded recipes
      once, in the order of its first recipe. */
  function Categories(recipes: seq<Recipe>): seq<string> {
    [AllCategories] + Unique(CategoriesOf(recipes))
  }

  /** The buttons start with "All"; after it every category of a loaded
      recipe appears exactly once, nothing else appears, and the order is
      that of first appearance. */
  lemma CategoriesSpec(recipes: seq<Recipe>)
    ensures var c := Categories(recipes);
            c[0] == AllCategories && Distinct(c[1..])
            && (forall i :: 0 <= i < |recipes| ==> recipes[i].category in c[1..])
            && (forall j :: 1 <= j < |c| ==> exists i :: 0 <= i < |recipes| && recipes[i].category == c[j])
            && (forall i, j :: 1 <= i < j < |c| ==> IndexOf(CategoriesOf(recipes), c[i]) < IndexOf(CategoriesOf(recipes), c[j]))
  {
    var names := CategoriesOf(recipes);
    var c := Categories(recipes);
    assert c[1..] == Unique(names);
    UniqueOrder(names);
    forall j | 1 <= j < |c|
      ensures exists i :: 0 <= i < |recipes| && recipes[i].category == c[j]
    {
      assert c[j] == Unique(names)[j - 1];
      var i := IndexOf(names, c[j]);
      assert recipes[i].category == c[j];
    }
    forall i, j | 1 <= i < j < |c|
      ensures IndexOf(names, c[i]) < IndexOf(names, c[j])
    {
      assert c[i] == Unique(names)[i - 1] && c[j] == Unique(names)[j - 1];
    }
  }

  /** A category button after the first, pressed with an empty search box,
      shows at least one recipe, each of that category. A recipe whose
      category is itself "All" gives a second "All" button, which shows
      every recipe. */
  lemma CategoryButtonShowsRecipes(recipes: seq<Recipe>, j: nat)
    requires 1 <= j < |Categories(recipes)|
    ensures var shown := FilterRecipes(recipes, "", Categories(recipes)[j]);
            shown != []
            && (Categories(recipes)[j] != AllCategories ==>
                  forall i :: 0 <= i < |shown| ==> shown[i].category == Categories(recipes)[j])
  {
    var names := CategoriesOf(recipes);
    var c := Categories(recipes)[j];
    assert c == Unique(names)[j - 1];
    var i := IndexOf(names, c);
    assert recipes[i].category == c;
    if c != AllCategories {
      var shown := Filter(recipes, (r: Recipe) => r.category == c);
      assert recipes[i] in shown;
    }
  }

  class HomePageState {
    var recipes: seq<Recipe>
    var filteredRecipes: seq<Recipe>
    var searchTerm: string
    var selectedCategory: string

    /** The shown list is what the filter effect computes from the rest of the state. */
    predicate Valid()
      reads this
    {
      filteredRecipes == FilterRecipes(recipes, searchTerm, selectedCategory)
    }

    constructor ()
      ensures recipes == [] && searchTerm == "" && selectedCategory == AllCategories
      ensures Valid()
    {
      recipes := [];
      filteredRecipes := [];
      searchTerm := "";
      selectedCategory := AllCategories;
    }

    /** The filter effect, run after every change of its three inputs. */
    method ApplyFilters()
      modifies this
      ensures recipes == old(recipes) && searchTerm == old(searchTerm) && selectedCategory == old(selectedCategory)
      ensures Valid()
    {
      var term, category := searchTerm, selectedCategory;
      var results := recipes;
      if term != "" {
        results := Filter(results, (r: Recipe) => SearchMatches(r, term));
      }
      if category != AllCategories {
        results := Filter(results, (r: Recipe) => r.category == category);
      }
      filteredRecipes := results;
    }

    /** The load effect: the fetched list becomes both the recipes and the shown list. */
    method LoadRecipes(data: seq<Recipe>)
      modifies this
      ensures recipes == data && searchTerm == old(searchTerm) && selectedCategory == old(selectedCategory)
      ensures Valid()
    {
      recipes := data;
      filteredRecipes := data;
      ApplyFilters();
    }

    /** Typing in the search box. */
    method SetSearchTerm(term: string)
      modifies this
      ensures searchTerm == term && recipes == old(recipes) && selectedCategory == old(selectedCategory)
      ensures Valid()
    {
      searchTerm := term;
      ApplyFilters();
    }

    /** Pressing a category button. */
    method SetSelectedCategory(category: string)
      modifies this
      ensures selectedCategory == category && recipes == old(recipes) && searchTerm == old(searchTerm)
      ensures Valid()
    {
      selectedCategory := category;
      ApplyFilters();
    }

    /** "Clear Filters": empty search, "All" selected, every recipe shown. */
    method ClearFilters()
      modifies this
      ensures searchTerm == "" && selectedCategory == AllCategories && recipes == old(recipes)
      ensures filteredRecipes == recipes
      ensures Valid()
    {
      searchTerm := "";
      selectedCategory := AllCategories;
      ApplyFilters();
      FilterIgnoresCase(recipes, "", AllCategories);
    }
  }
}
