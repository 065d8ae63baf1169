/** The "Share Your Recipe" form of the recipe-sharing platform: the form
    object with its list editors, the error and touched maps, the tag input,
    validation and submission. */
module AddRecipeForm {
  import opened Text
  import opened Seqs
  import opened Validation

  /** A property that starts as a number and becomes the typed text. */
  datatype Scalar = Num(n: int) | Str(s: string)

  datatype FormData = FormData(
    title: string,
    summary: string,
    image: string,
    cookTime: string,
    prepTime: string,
    totalTime: string,
    difficulty: string,
    category: string,
    servings: Scalar,
    calories: string,
    ingredients: seq<string>,
    instructions: seq<string>,
    tags: seq<string>)

  /** Two blank ingredients, three blank steps, no tags, 'Easy', 4 servings. */
  const InitialForm := FormData("", "", "", "", "", "", "Easy", "", Num(4), "",
                                ["", ""], ["", "", ""], [])

  /** The fields `handleInputChange` is called with: every property except the lists. */
  predicate IsInputField(field: Field) {
    field !in {Ingredients, Instructions, Tags}
  }

  /** `{ ...prev, [field]: value }`. */
  function SetField(f: FormData, field: Field, value: string): (g: FormData)
    requires IsInputField(field)
    ensures g.ingredients == f.ingredients && g.instructions == f.instructions && g.tags == f.tags
    ensures g.title == (if field == Title then value else f.title)
    ensures g.summary == (if field == Summary then value else f.summary)
    ensures g.image == (if field == Image then value else f.image)
    ensures g.cookTime == (if field == CookTime then value else f.cookTime)
    ensures g.prepTime == (if field == PrepTime then value else f.prepTime)
    ensures g.totalTime == (if field == TotalTime then value else f.totalTime)
    ensures g.difficulty == (if field == Difficulty then value else f.difficulty)
    ensures g.category == (if field == Category then value else f.category)
    ensures g.servings == (if field == Servings then Str(value) else f.servings)
    ensures g.calories == (if field == Calories then value else f.calories)
  {
    match field
    case Title => f.(title := value)
    case Summary => f.(summary := value)
    case Image => f.(image := value)
    case CookTime => f.(cookTime := value)
    case PrepTime => f.(prepTime := value)
    case TotalTime => f.(totalTime := value)
    case Difficulty => f.(difficulty := value)
    case Category => f.(category := value)
    case Servings => f.(servings := Str(value))
    case Calories => f.(calories := value)
  }

  /** A list entry with text after trimming. */
  predicate NotBlank(s: string) {
    !IsBlank(s)
  }

  /** The list as `validateRecipeForm` sees it: every entry present. */
  function Present(list: seq<string>): (r: seq<Option<string>>)
    ensures |r| == |list| && forall i :: 0 <= i < |r| ==> r[i] == Some(list[i])
  {
    seq(|list|, i requires 0 <= i < |list| => Some(list[i]))
  }

  /** The form as the object given to the shared rules. */
  function AsInput(f: FormData): RecipeInput {
    RecipeInput(Some(f.title), Some(f.summary), Some(f.category), Some(f.cookTime),
                Some(Present(f.ingredients)), Some(Present(f.instructions)), Some(f.image))
  }

  /** Counting the entries with text of the form's own list agrees with the
      shared rules' count. */
  lemma {:induction false} CountPresent(list: seq<string>)
    ensures |Filter(list, NotBlank)| == CountWithText(Present(list))
  {
    if list != [] {
      CountPresent(list[1..]);
      assert Present(list)[1..] == Present(list[1..]);
    }
  }

  /** Tags hold no blank entry and no entry twice. */
  predicate TagsOk(tags: seq<string>) {
    Distinct(tags) && forall i :: 0 <= i < |tags| ==> NotBlank(tags[i])
  }

  /** Appending a new tag with text keeps the tags clean. */
  lemma AddTagKeepsOk(tags: seq<string>, t: string)
    requires TagsOk(tags) && NotBlank(t) && t !in tags
    ensures TagsOk(tags + [t])
  {
    var r := tags + [t];
    forall i, j | 0 <= i < j < |r|
      ensures r[i] != r[j]
    {
      if j == |tags| {
        assert r[i] == tags[i];
      }
    }
  }

  /** `tagInput.trim() && !formData.tags.includes(tagInput.trim())`. */
  predicate TagAccepted(tags: seq<string>, input: string) {
    Trim(input) != "" && Trim(input) !in tags
  }

  /** The tags after `handleTagAdd`: the trimmed input appended when it is
      accepted. Clean tags stay clean. */
  function WithTag(tags: seq<string>, input: string): (r: seq<string>)
    ensures TagAccepted(tags, input) ==> r == tags + [Trim(input)]
    ensures !TagAccepted(tags, input) ==> r == tags
    ensures TagsOk(tags) ==> TagsOk(r)
  {
    if TagAccepted(tags, input) then
      TrimmedEmptyIffBlank(input);
      TrimKeepsText(input);
      if TagsOk(tags) then AddTagKeepsOk(tags, Trim(input)); tags + [Trim(input)]
      else tags + [Trim(input)]
    else tags
  }

  /** `errors.x && touched.x`: the message under a field is shown. */
  predicate ShowsError(errors: map<Field, string>, touched: set<Field>, field: Field) {
    field in errors && errors[field] != "" && field in touched
  }

  /** The fields marked touched on submit. */
  const SubmitFields: set<Field> := {Title, Summary, Category, CookTime, Ingredients, Instructions}

  /** The object logged as submitted (the nutrition block and avatar are left out). */
  datatype Submission = Submission(id: int, data: FormData, rating: int, author: string, calories: Scalar)

  /** The submitted data: the form with blank ingredients and steps dropped,
      a new id, rating 0 and author 'You'; `calories || 0`. */
  function SubmissionOf(f: FormData, now: int): (s: Submission)
    ensures s.id == now && s.rating == 0 && s.author == "You"
    ensures s.data == f.(ingredients := Filter(f.ingredients, NotBlank),
                         instructions := Filter(f.instructions, NotBlank))
    ensures s.calories == if f.calories == "" then Num(0) else Str(f.calories)
  {
    Submission(now,
               f.(ingredients := Filter(f.ingredients, NotBlank),
                  instructions := Filter(f.instructions, NotBlank)),
               0, "You", if f.calories == "" then Num(0) else Str(f.calories))
  }

  /** A recipe that passed the rules is submitted with at least two
      ingredients and two steps, none of them blank, in the order typed. */
  lemma SubmittedRecipeIsComplete(f: FormData, now: int, isValidUrl: string -> bool)
    requires Passes(AsInput(f), isValidUrl)
    ensures var d := SubmissionOf(f, now).data;
            |d.ingredients| >= 2 && |d.instructions| >= 2
            && (forall i :: 0 <= i < |d.ingredients| ==> NotBlank(d.ingredients[i]))
            && (forall i :: 0 <= i < |d.instructions| ==> NotBlank(d.instructions[i]))
            && IsSubsequence(d.ingredients, f.ingredients) && IsSubsequence(d.instructions, f.instructions)
  {
    CountPresent(f.ingredients);
    CountPresent(f.instructions);
    FilterIsSubsequence(f.ingredients, NotBlank);
    FilterIsSubsequence(f.instructions, NotBlank);
  }

  /** The form's own `calculateTotalTime`: cook time plus prep time, each
      `parseInt(...) || 0`. */
  function FormTotalTime(f: FormData): (total: int)
    ensures total == Validation.CalculateTotalTime(f.prepTime, f.cookTime)
  {
    TotalTimeSymmetric(f.cookTime, f.prepTime);
    ParseIntOr0(f.cookTime) + ParseIntOr0(f.prepTime)
  }

  class RecipeForm {
    var formData: FormData
    var errors: map<Field, string>
    var touched: set<Field>
    var tagInput: string

    /** The list editors never leave a list empty and tags stay clean. */
    predicate Valid()
      reads this
    {
      |formData.ingredients| >= 1 && |formData.instructions| >= 1 && TagsOk(formData.tags)
    }

    constructor ()
      ensures Valid()
      ensures formData == InitialForm && errors == map[] && touched == {} && tagInput == ""
    {
      formData := InitialForm;
      errors := map[];
      touched := {};
      tagInput := "";
    }

    /** `handleInputChange`: set the field, blank its shown error, mark it touched. */
    method HandleInputChange(field: Field, value: string)
      requires Valid() && IsInputField(field)
      modifies this
      ensures Valid()
      ensures formData == SetField(old(formData), field, value)
      ensures errors == if field in old(errors) && old(errors)[field] != "" then old(errors)[field := ""] else old(errors)
      ensures touched == old(touched) + {field} && tagInput == old(tagInput)
      ensures !ShowsError(errors, touched, field)
    {
      formData := SetField(formData, field, value);
      if field in errors && errors[field] != "" {
        errors := errors[field := ""];
      }
      touched := touched + {field};
    }

    /** `handleIngredientChange`: only entry `index` changes. */
    method HandleIngredientChange(index: nat, value: string)
      requires Valid() && index < |formData.ingredients|
      modifies this
      ensures Valid()
      ensures formData == old(formData).(ingredients := old(formData).ingredients[index := value])
      ensures errors == old(errors) && touched == old(touched) && tagInput == old(tagInput)
    {
      formData := formData.(ingredients := formData.ingredients[index := value]);
    }

    /** `addIngredientField`: one blank entry at the end. */
    method AddIngredientField()
      requires Valid()
      modifies this
      ensures Valid()
      ensures formData == old(formData).(ingredients := old(formData).ingredients + [""])
      ensures errors == old(errors) && touched == old(touched) && tagInput == old(tagInput)
    {
      formData := formData.(ingredients := formData.ingredients + [""]);
    }

    /** `removeIngredientField`: drop entry `index`, unless it is the only one. */
    method RemoveIngredientField(index: nat)
      requires Valid()
      modifies this
      ensures Valid()
      ensures old(|formData.ingredients|) > 1 ==>
                formData == old(formData).(ingredients := RemoveAt(old(formData).ingredients, index))
      ensures old(|formData.ingredients|) <= 1 ==> formData == old(formData)
      ensures errors == old(errors) && touched == old(touched) && tagInput == old(tagInput)
    {
      if |formData.ingredients| > 1 {
        formData := formData.(ingredients := RemoveAt(formData.ingredients, index));
      }
    }

    /** `handleInstructionChange`: only step `index` changes. */
    method HandleInstructionChange(index: nat, value: string)
      requires Valid() && index < |formData.instructions|
      modifies this
      ensures Valid()
      ensures formData == old(formData).(instructions := old(formData).instructions[index := value])
      ensures errors == old(errors) && touched == old(touched) && tagInput == old(tagInput)
    {
      formData := formData.(instructions := formData.instructions[index := value]);
    }

    /** `addInstructionField`: one blank step at the end. */
    method AddInstructionField()
      requires Valid()
      modifies this
      ensures Valid()
      ensures formData == old(formData).(instructions := old(formData).instructions + [""])
      ensures errors == old(errors) && touched == old(touched) && tagInput == old(tagInput)
    {
      formData := formData.(instructions := formData.instructions + [""]);
    }

    /** `removeInstructionField`: drop step `index`, unless it is the only one. */
    method RemoveInstructionField(index: nat)
      requires Valid()
      modifies this
      ensures Valid()
      ensures old(|formData.instructions|) > 1 ==>
                formData == old(formData).(instructions := RemoveAt(old(formData).instructions, index))
      ensures old(|formData.instructions|) <= 1 ==> formData == old(formData)
      ensures errors == old(errors) && touched == old(touched) && tagInput == old(tagInput)
    {
      if |formData.instructions| > 1 {
        formData := formData.(instructions := RemoveAt(formData.instructions, index));
      }
    }

    /** Typing in the tag input. */
    method SetTagInput(value: string)
      requires Valid()
      modifies this
      ensures Valid()
      ensures tagInput == value && formData == old(formData) && errors == old(errors) && touched == old(touched)
    {
      tagInput := value;
    }

    /** `handleTagAdd`: a new, non-blank trimmed tag goes at the end and the
        input clears; otherwise nothing changes. */
    method HandleTagAdd()
      requires Valid()
      modifies this
      ensures Valid()
      ensures formData == old(formData).(tags := WithTag(old(formData).tags, old(tagInput)))
      ensures tagInput == if TagAccepted(old(formData).tags, old(tagInput)) then "" else old(tagInput)
      ensures errors == old(errors) && touched == old(touched)
    {
      var accepted := TagAccepted(formData.tags, tagInput);
      formData := formData.(tags := WithTag(formData.tags, tagInput));
      if accepted {
        tagInput := "";
      }
    }

    /** `handleTagRemove`: that tag goes, the others keep their order. */
    method HandleTagRemove(tagToRemove: string)
      requires Valid()
      modifies this
      ensures Valid()
      ensures formData == old(formData).(tags := Filter(old(formData).tags, (tag: string) => tag != tagToRemove))
      ensures tagToRemove !in formData.tags
      ensures errors == old(errors) && touched == old(touched) && tagInput == old(tagInput)
    {
      FilterDistinct(formData.tags, (tag: string) => tag != tagToRemove);
      formData := formData.(tags := Filter(formData.tags, (tag: string) => tag != tagToRemove));
    }

    /** `validateForm`: the form's own copy of the rules of `validateRecipeForm`
        (the same seven checks on fields that are always present), so it is
        modelled by that function; it stores the errors and reports whether
        there were none. */
    method ValidateForm(isValidUrl: string -> bool) returns (valid: bool)
      requires Valid()
      modifies this
      ensures Valid()
      ensures errors == ValidateRecipeForm(AsInput(formData), isValidUrl)
      ensures valid <==> Passes(AsInput(formData), isValidUrl)
      ensures formData == old(formData) && touched == old(touched) && tagInput == old(tagInput)
    {
      var newErrors := ValidateRecipeForm(AsInput(formData), isValidUrl);
      NoErrorsIffPasses(AsInput(formData), isValidUrl);
      errors := newErrors;
      valid := |newErrors| == 0;
    }

    /** `handleSubmit`: mark the required fields touched and validate; a
        valid form is submitted with blank entries dropped, then form, errors
        and touched return to their initial values and the page goes home. */
    method HandleSubmit(now: int, isValidUrl: string -> bool) returns (submitted: Option<Submission>, navigateTo: Option<string>)
      requires Valid()
      modifies this
      ensures Valid()
      ensures Passes(AsInput(old(formData)), isValidUrl) ==>
                submitted == Some(SubmissionOf(old(formData), now)) && navigateTo == Some("/")
                && formData == InitialForm && errors == map[] && touched == {}
      ensures !Passes(AsInput(old(formData)), isValidUrl) ==>
                submitted == None && navigateTo == None && formData == old(formData)
                && errors == ValidateRecipeForm(AsInput(old(formData)), isValidUrl)
                && touched == old(touched) + SubmitFields
      ensures tagInput == old(tagInput)
    {
      touched := touched + SubmitFields;
      var valid := ValidateForm(isValidUrl);
      if !valid {
        return None, None;
      }
      submitted := Some(SubmissionOf(formData, now));
      formData := InitialForm;
      errors := map[];
      touched := {};
      navigateTo := Some("/");
    }
  }
}
