/** The recipe page of the recipe-sharing platform: the recipe picked from
    the loaded list by the route id, its similar recipes, the bookmark and
    the review form. */
module RecipeDetail {
  import opened Text
  import opened Seqs

  datatype Review = Review(id: int, user: string, rating: int, comment: string, date: string)

  /** The properties of a loaded recipe the page's logic uses; a missing
      `similarRecipes` list is `None`. */
  datatype DetailRecipe = DetailRecipe(id: int, servings: int, similarRecipes: Option<seq<int>>, reviews: seq<Review>)

  const DefaultServings := 4
  const ReviewAuthor := "You"

  /** `data.find(r => r.id === parseInt(id))`: the first recipe with that
      id; `NaN` equals no id. */
  function FindRecipe(data: seq<DetailRecipe>, param: string): (found: Option<DetailRecipe>)
    ensures found.Some? <==> ParseInt(param).Some? && exists i :: 0 <= i < |data| && data[i].id == ParseInt(param).value
    ensures found.Some? ==> var k := FirstWithId(data, found.value.id);
                            k < |data| && data[k] == found.value && found.value.id == ParseInt(param).value
  {
    match ParseInt(param)
    case None => None
    case Some(n) =>
      var k := FirstWithId(data, n);
      if k < |data| then Some(data[k]) else None
  }

  /** The position of the first recipe whose id is `n`, or `|data|` when
      there is none. */
  function FirstWithId(data: seq<DetailRecipe>, n: int): (k: nat)
    ensures k <= |data|
    ensures k < |data| ==> data[k].id == n
    ensures forall j :: 0 <= j < k ==> data[j].id != n
  {
    if data == [] || data[0].id == n then 0
    else 1 + FirstWithId(data[1..], n)
  }

  /** The recipe a printed id leads to is the first one with that id. */
  lemma FindPrintedId(data: seq<DetailRecipe>, k: nat)
    requires k < |data|
    ensures var found := FindRecipe(data, IntToString(data[k].id));
            found.Some? && found.value.id == data[k].id
  {
    ParseIntToString(data[k].id);
  }

  /** `getSimilarRecipes()`: nothing without a recipe, without a
      `similarRecipes` list or without loaded recipes; otherwise the loaded
      recipes whose id the list names, in loaded order. */
  function SimilarRecipes(recipe: Option<DetailRecipe>, allRecipes: seq<DetailRecipe>): (r: seq<DetailRecipe>)
    ensures recipe.None? || recipe.value.similarRecipes.None? || allRecipes == [] ==> r == []
    ensures forall i :: 0 <= i < |r| ==> r[i] in allRecipes && r[i].id in recipe.value.similarRecipes.value
    ensures IsSubsequence(r, allRecipes)
  {
    if recipe.None? || recipe.value.similarRecipes.None? || |allRecipes| == 0 then []
    else
      var ids := recipe.value.similarRecipes.value;
      FilterIsSubsequence(allRecipes, (r: DetailRecipe) => r.id in ids);
      Filter(allRecipes, (r: DetailRecipe) => r.id in ids)
  }

  /** Every loaded recipe whose id is listed is among the similar recipes. */
  lemma SimilarRecipesComplete(recipe: DetailRecipe, allRecipes: seq<DetailRecipe>, k: nat)
    requires recipe.similarRecipes.Some? && k < |allRecipes| && allRecipes[k].id in recipe.similarRecipes.value
    ensures allRecipes[k] in SimilarRecipes(Some(recipe), allRecipes)
  {
  }

  /** `reviewText.trim() && userRating > 0`. */
  predicate ReviewAccepted(reviewText: string, userRating: int) {
    !IsBlank(reviewText) && userRating > 0
  }

  /** `disabled={!reviewText.trim() || userRating === 0}`. */
  predicate SubmitDisabled(reviewText: string, userRating: int) {
    Trim(reviewText) == "" || userRating == 0
  }

  /** With a rating from the stars (0 to 5) the button is disabled exactly
      when the review would be rejected. */
  lemma DisabledIffRejected(reviewText: string, userRating: int)
    requires 0 <= userRating <= 5
    ensures SubmitDisabled(reviewText, userRating) <==> !ReviewAccepted(reviewText, userRating)
  {
    TrimmedEmptyIffBlank(reviewText);
  }

  class RecipeDetailPage {
    var recipe: Option<DetailRecipe>
    var allRecipes: seq<DetailRecipe>
    var servings: int
    var isBookmarked: bool
    var userRating: int
    var reviewText: string

    /** The rating is 0 (none chosen) or a star from 1 to 5. */
    predicate Valid()
      reads this
    {
      0 <= userRating <= 5
    }

    constructor ()
      ensures recipe.None? && allRecipes == [] && servings == DefaultServings
      ensures !isBookmarked && userRating == 0 && reviewText == ""
      ensures Valid()
    {
      recipe := None;
      allRecipes := [];
      servings := DefaultServings;
      isBookmarked := false;
      userRating := 0;
      reviewText := "";
    }

    /** The load effect: keep the list, pick the recipe, take its servings. */
    method LoadRecipe(data: seq<DetailRecipe>, param: string)
      requires Valid()
      modifies this
      ensures allRecipes == data && recipe == FindRecipe(data, param)
      ensures servings == if recipe.Some? then recipe.value.servings else old(servings)
      ensures isBookmarked == old(isBookmarked) && userRating == old(userRating) && reviewText == old(reviewText)
      ensures Valid()
    {
      allRecipes := data;
      recipe := FindRecipe(data, param);
      if recipe.Some? {
        servings := recipe.value.servings;
      }
    }

    /** `handleBookmark`. */
    method HandleBookmark()
      modifies this
      ensures isBookmarked == !old(isBookmarked)
      ensures recipe == old(recipe) && userRating == old(userRating) && reviewText == old(reviewText)
      ensures allRecipes == old(allRecipes) && servings == old(servings)
    {
      isBookmarked := !isBookmarked;
    }

    /** A star button. */
    method SetUserRating(star: int)
      requires 1 <= star <= 5
      modifies this
      ensures userRating == star && recipe == old(recipe) && reviewText == old(reviewText)
      ensures isBookmarked == old(isBookmarked) && allRecipes == old(allRecipes) && servings == old(servings)
      ensures Valid()
    {
      userRating := star;
    }

    method SetReviewText(text: string)
      requires Valid()
      modifies this
      ensures reviewText == text && recipe == old(recipe) && userRating == old(userRating)
      ensures isBookmarked == old(isBookmarked) && allRecipes == old(allRecipes) && servings == old(servings)
      ensures Valid()
    {
      reviewText := text;
    }

    /** `handleSubmitReview`: an accepted review is appended last with the
        chosen rating and text, and the form is cleared; a rejected one
        changes nothing. `now` and `today` stand for the clock. */
    method HandleSubmitReview(now: int, today: string)
      requires recipe.Some? && Valid()
      modifies this
      ensures !ReviewAccepted(old(reviewText), old(userRating)) ==>
                recipe == old(recipe) && reviewText == old(reviewText) && userRating == old(userRating)
      ensures ReviewAccepted(old(reviewText), old(userRating)) ==>
                recipe == Some(old(recipe).value.(reviews := old(recipe).value.reviews
                                     + [Review(now, ReviewAuthor, old(userRating), old(reviewText), today)]))
                && reviewText == "" && userRating == 0
      ensures recipe.Some? && |recipe.value.reviews| <= |old(recipe).value.reviews| + 1
      ensures isBookmarked == old(isBookmarked) && allRecipes == old(allRecipes) && servings == old(servings)
      ensures Valid()
    {
      if ReviewAccepted(reviewText, userRating) {
        var newReview := Review(now, ReviewAuthor, userRating, reviewText, today);
        var prev := recipe.value;
        recipe := Some(prev.(reviews := prev.reviews + [newReview]));
        reviewText := "";
        userRating := 0;
      }
    }
  }
}
