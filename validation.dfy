/** The recipe form rules of the recipe-sharing platform
    (components/utils/validation.js): a map from the form's field names to
    error messages, and the total cooking time. */
module Validation {
  import opened Text
  import opened Seqs

  /** The form object as `validateRecipeForm` receives it. Every property may
      be missing (`None`); a list entry may be `null`/`undefined` (`None`). */
  datatype RecipeInput = RecipeInput(
    title: Option<string>,
    summary: Option<string>,
    category: Option<string>,
    cookTime: Option<string>,
    ingredients: Option<seq<Option<string>>>,
    instructions: Option<seq<Option<string>>>,
    image: Option<string>)

  /** The property names of the recipe form object. */
  datatype Field = Title | Summary | Image | CookTime | PrepTime | TotalTime | Difficulty
                 | Category | Servings | Calories | Ingredients | Instructions | Tags

  /** The message each rule produces. */
  function Message(k: Field): string {
    match k
    case Title => "Recipe title is required"
    case Summary => "Summary is required"
    case Category => "Category is required"
    case CookTime => "Cook time is required"
    case Ingredients => "At least 2 ingredients are required"
    case Instructions => "At least 2 preparation steps are required"
    case Image => "Please enter a valid image URL"
    case _ => ""
  }

  /** Every key the rules can produce. */
  const RuleKeys: set<Field> := {Title, Summary, Category, CookTime, Ingredients, Instructions, Image}

  /** `x?.trim()` is truthy: present and not blank. */
  predicate HasText(x: Option<string>) {
    x.Some? && !IsBlank(x.value)
  }

  /** A string property is truthy: present and not empty. */
  predicate Filled(x: Option<string>) {
    x.Some? && x.value != ""
  }

  /** `list?.filter(x => x?.trim()) || []`. */
  function NonBlankEntries(list: Option<seq<Option<string>>>): (r: seq<Option<string>>)
    ensures list.None? ==> r == []
    ensures forall i :: 0 <= i < |r| ==> HasText(r[i])
    ensures list.Some? ==> IsSubsequence(r, list.value)
  {
    if list.None? then []
    else
      FilterIsSubsequence(list.value, HasText);
      Filter(list.value, HasText)
  }

  /** How many entries of the list have text. */
  function CountWithText(list: seq<Option<string>>): nat {
    if list == [] then 0
    else (if HasText(list[0]) then 1 else 0) + CountWithText(list[1..])
  }

  /** The count is the length of the filtered list. */
  lemma {:induction false} CountIsFilteredLength(list: seq<Option<string>>)
    ensures CountWithText(list) == |NonBlankEntries(Some(list))|
  {
    if list != [] {
      CountIsFilteredLength(list[1..]);
    }
  }

  /** Fewer than two entries of the list have text; a missing list counts as none. */
  predicate TooFew(list: Option<seq<Option<string>>>) {
    list.None? || CountWithText(list.value) < 2
  }

  /** Whether the rule for key `k` fails on the form. */
  predicate Fails(f: RecipeInput, k: Field, isValidUrl: string -> bool) {
    match k
    case Title => !HasText(f.title)
    case Summary => !HasText(f.summary)
    case Category => !Filled(f.category)
    case CookTime => !Filled(f.cookTime)
    case Ingredients => TooFew(f.ingredients)
    case Instructions => TooFew(f.instructions)
    case Image => Filled(f.image) && !isValidUrl(f.image.value)
    case _ => false
  }

  /** `validateRecipeForm(formData)`: every failing rule adds its own key
      with its message; `isValidUrl` is the URL check, whose parser is not
      part of this model. */
  function ValidateRecipeForm(f: RecipeInput, isValidUrl: string -> bool): (errors: map<Field, string>)
    ensures errors.Keys <= RuleKeys
    ensures Title in errors <==> !HasText(f.title)
    ensures Summary in errors <==> !HasText(f.summary)
    ensures Category in errors <==> !Filled(f.category)
    ensures CookTime in errors <==> !Filled(f.cookTime)
    ensures Ingredients in errors <==> TooFew(f.ingredients)
    ensures Instructions in errors <==> TooFew(f.instructions)
    ensures Image in errors <==> Filled(f.image) && !isValidUrl(f.image.value)
    ensures forall k :: k in errors ==> errors[k] == Message(k)
  {
    map k | k in RuleKeys && Fails(f, k, isValidUrl) :: Message(k)
  }

  /** A form passes every rule. */
  predicate Passes(f: RecipeInput, isValidUrl: string -> bool) {
    HasText(f.title) && HasText(f.summary) && Filled(f.category) && Filled(f.cookTime)
    && !TooFew(f.ingredients) && !TooFew(f.instructions)
    && (Filled(f.image) ==> isValidUrl(f.image.value))
  }

  /** No error at all exactly when every rule passes; an empty or missing
      image never produces an error, whatever the URL check says. */
  lemma NoErrorsIffPasses(f: RecipeInput, isValidUrl: string -> bool)
    ensures ValidateRecipeForm(f, isValidUrl) == map[] <==> Passes(f, isValidUrl)
    ensures !Filled(f.image) ==> Image !in ValidateRecipeForm(f, isValidUrl)
  {
    var errors := ValidateRecipeForm(f, isValidUrl);
    if !Passes(f, isValidUrl) {
      if !HasText(f.title) { assert Title in errors; }
      else if !HasText(f.summary) { assert Summary in errors; }
      else if !Filled(f.category) { assert Category in errors; }
      else if !Filled(f.cookTime) { assert CookTime in errors; }
      else if TooFew(f.ingredients) { assert Ingredients in errors; }
      else if TooFew(f.instructions) { assert Instructions in errors; }
      else { assert Image in errors; }
    }
  }

  /** Each rule looks at its own field only: changing the title leaves every
      other key of the result as it was. */
  lemma TitleIndependent(f: RecipeInput, t: Option<string>, isValidUrl: string -> bool)
    ensures var a := ValidateRecipeForm(f, isValidUrl);
            var b := ValidateRecipeForm(f.(title := t), isValidUrl);
            forall k :: k != Title ==> (k in a <==> k in b) && (k in a ==> a[k] == b[k])
  {
  }

  /** `calculateTotalTime(prepTime, cookTime)`: `(parseInt(p) || 0) + (parseInt(c) || 0)`. */
  function CalculateTotalTime(prepTime: string, cookTime: string): (total: int)
    ensures ParseInt(prepTime).None? ==> total == ParseIntOr0(cookTime)
    ensures ParseInt(cookTime).None? ==> total == ParseIntOr0(prepTime)
  {
    ParseIntOr0(prepTime) + ParseIntOr0(cookTime)
  }

  /** The total does not depend on the order of its two arguments. */
  lemma TotalTimeSymmetric(a: string, b: string)
    ensures CalculateTotalTime(a, b) == CalculateTotalTime(b, a)
  {
  }

  /** Two numbers written out in decimal add up. */
  lemma TotalTimeOfNumbers(p: int, c: int)
    ensures CalculateTotalTime(IntToString(p), IntToString(c)) == p + c
  {
    ParseIntToString(p);
    ParseIntToString(c);
  }

  /** Unparsable or empty inputs count as zero. */
  lemma TotalTimeOfBlanks(p: string)
    ensures CalculateTotalTime("", p) == ParseIntOr0(p) && CalculateTotalTime("", "") == 0
  {
  }
}
