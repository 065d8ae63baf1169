# React tutorial apps — a Dafny model of their logic

This project models the logic of a collection of small React learning apps.
The markup, the styling and the network are not modelled.

- **Router demo** (`react-router-advanced`):
  - a mock session store (`AuthProvider`) that keeps its user in the browser's key-value store;
  - a route guard (`ProtectedRoute`) and the route table that decides which paths it wraps;
  - the login page;
  - the navigation bar;
  - the profile page;
  - the post list, with its search query in the URL;
  - a single post, reached through `/posts/:id`;
  - the catch-all "not found" page.
- **Query demo** (`react-query-demo`): a paginated post list with a five-button page window.
- **Todo app** (`react-todo`): add, toggle, delete and counts.
- **Recipe store** (`recipe-sharing-app`): a store whose actions replace its recipe list. Both copies are modelled.
- **Recipe platform** (`recipe-sharing-platform`):
  - the shared form rules (`validateRecipeForm`, `calculateTotalTime`);
  - the "Share Your Recipe" form;
  - the home page's search and category filter;
  - the recipe page: lookup, similar recipes, bookmark and reviews.
- **Registration form** (`form-handling-react`): the controlled registration form.

Each source file is one Dafny module, with two helper modules beside them:

- `Text` holds the JavaScript string operations the apps use, under an ASCII abstraction: `trim`, `toLowerCase`, `includes`, decimal `parseInt` and `Number` to string.
- `Seqs` holds the array operations: `filter`, `slice`, `new Set`, and the order-preserving subsequence relation.

How the source is represented:

- React state that handlers replace becomes a class. Its fields are the state, and the handlers are methods with `modifies` clauses.
- Derived values and pure helpers are functions.
- JavaScript objects that are spread-merged are maps. `{ ...a, ...b }` is the right-biased map union `a + b`.
- The clock (`Date.now()`, today's date) and the URL parser behind `isValidUrl` are parameters.
- Loaded data (`data.json`, the post and comment APIs) is an argument.

Two behaviours of the code that a reader may not expect are kept as written:

- After a login, the login page's `from` is never cleared. The location state keeps it, so the model keeps it too.
- The "Long"/"Short" label of a post card uses `> 100`, while the filter uses `>= 100`. The model keeps both as written, and `Posts.LabelAgainstFilter` states where they disagree.

## Model

| member | source | states |
|---|---|---|
| AuthContext.NameFromEmail | react-router-advanced/src/context/AuthContext.jsx:37 | the name is the prefix of the email before its first '@', or the whole email when it has none |
| AuthContext.IsAdmin | react-router-advanced/src/context/AuthContext.jsx:69-78 | admin exactly when a user is present and its role is 'admin'; being admin implies being authenticated |
| AuthContext.MockUserFields | react-router-advanced/src/context/AuthContext.jsx:34-40 | the logged-in user is admin iff the email contains "admin" (case-sensitive), keeps the email, and is named by the part before '@' |
| AuthContext.Merge | react-router-advanced/src/context/AuthContext.jsx:63 | `{...user, ...updates}`: the keys are the union; updated fields take the new value; every other field keeps its value |
| AuthContext.WithoutSession | react-router-advanced/src/context/AuthContext.jsx:58-59 | both session keys are removed and every other stored key is kept |
| AuthContext.WithoutSessionIdempotent | react-router-advanced/src/context/AuthContext.jsx:56-60 | logging out twice leaves the same storage as logging out once |
| AuthContext.LoginStorageRestores | react-router-advanced/src/context/AuthContext.jsx:18-27 | what a successful login stores is restored on the next mount, as the same user |
| AuthContext.LogoutStorageNotRestored | react-router-advanced/src/context/AuthContext.jsx:18-27 | after logout the next mount restores nobody |
| AuthContext.AuthProvider.constructor | react-router-advanced/src/context/AuthContext.jsx:14-15 | starts with no user and loading |
| AuthContext.AuthProvider.RestoreSession | react-router-advanced/src/context/AuthContext.jsx:18-27 | restores the stored user only when both the 'user' and 'token' keys hold values; loading ends in every case |
| AuthContext.AuthProvider.Login | react-router-advanced/src/context/AuthContext.jsx:29-54 | succeeds iff email and password are non-empty, then sets and stores the mock user and a token; otherwise rejects with "Invalid credentials" and changes nothing |
| AuthContext.AuthProvider.Logout | react-router-advanced/src/context/AuthContext.jsx:56-60 | no user; the storage without either session key |
| AuthContext.AuthProvider.UpdateProfile | react-router-advanced/src/context/AuthContext.jsx:62-67 | the old user merged with the updates becomes the session user and the stored user, and is returned |
| ProtectedRoute.Guard | react-router-advanced/src/components/ProtectedRoute.jsx:9-34 | loading gives pending; unauthenticated gives the login redirect with the current path; access denied iff admin is required and missing; render iff authenticated and admin is not required or present |
| ProtectedRoute.NavigationOf | react-router-advanced/src/components/ProtectedRoute.jsx:20-29 | the login redirect goes to "/login", remembers `from` and replaces the entry; access denied goes to "/", replaces the entry and remembers nothing |
| ProtectedRoute.GuardOrder | react-router-advanced/src/components/ProtectedRoute.jsx:5-34 | loading wins whatever admin rule applies; an unauthenticated visitor to an admin route is sent to log in, not denied; by default an authenticated user is let through |
| ProtectedRoute.RouteOutcome | react-router-advanced/src/App.jsx:42-76 | public routes render; guarded routes show the guard's outcome with their own admin flag |
| ProtectedRoute.OnlyAdminRouteRequiresAdmin | react-router-advanced/src/App.jsx:42-76 | only "/admin/*" asks for admin rights, and it is guarded |
| LoginPage.ResumeTarget | react-router-advanced/src/pages/Login.jsx:16 | the remembered `from` when present and non-empty, otherwise "/" |
| LoginPage.RedirectWhenAuthenticated | react-router-advanced/src/pages/Login.jsx:19-23 | navigates, replacing the entry, exactly when the session is authenticated |
| LoginPage.FailureText | react-router-advanced/src/pages/Login.jsx:34 | the error's message, or the fallback text when the message is empty |
| LoginPage.DemoEmail | react-router-advanced/src/pages/Login.jsx:41-50 | the admin account for type 'admin', the user account for any other type |
| LoginPage.SubtitleFor | react-router-advanced/src/pages/Login.jsx:63-67 | names the protected path exactly when `from` is not "/" |
| LoginPage.LoginForm.constructor | react-router-advanced/src/pages/Login.jsx:7-10 | empty fields, no error, not loading |
| LoginPage.LoginForm.SetEmail | react-router-advanced/src/pages/Login.jsx:101 | only the email changes |
| LoginPage.LoginForm.SetPassword | react-router-advanced/src/pages/Login.jsx:115 | only the password changes |
| LoginPage.LoginForm.HandleSubmit | react-router-advanced/src/pages/Login.jsx:25-38 | success iff both fields are non-empty; a failure shows "Invalid credentials" and leaves the session alone; loading ends either way |
| LoginPage.LoginForm.HandleDemoLogin | react-router-advanced/src/pages/Login.jsx:40-55 | fills in the demo account and logs in with it, always successfully |
| Navigation.AuthLinks | react-router-advanced/src/components/Navigation.jsx:24-30 | Login alone when logged out; Profile then Dashboard when logged in; the Admin link, flagged and last, iff authenticated and admin |
| Navigation.AuthLinksMatchGuard | react-router-advanced/src/components/Navigation.jsx:24-30 | the session's links offer the admin and dashboard sections exactly when the guard would render them |
| Navigation.NavigationBar.constructor | react-router-advanced/src/components/Navigation.jsx:10 | the menu starts closed |
| Navigation.NavigationBar.ToggleMenu | react-router-advanced/src/components/Navigation.jsx:46 | the menu flag flips |
| Navigation.NavigationBar.ClickLink | react-router-advanced/src/components/Navigation.jsx:67 | clicking a link closes the menu |
| Navigation.NavigationBar.HandleLogout | react-router-advanced/src/components/Navigation.jsx:12-16 | logs out, navigates to "/" and closes the menu |
| Profile.IsExternalProfile | react-router-advanced/src/components/Profile.jsx:249 | external iff a non-empty `userId` differs from the user's id as a string (a numeric id printed in decimal, a string id as it is); with nobody logged in any `userId` is external; a user without an id throws |
| Profile.OwnIdIsNotExternal | react-router-advanced/src/components/Profile.jsx:249 | one's own printed id is not external; an id that parses to another number is |
| Profile.ProfileTabs | react-router-advanced/src/components/Profile.jsx:251-255 | Details and Activity, then Settings only when not view-only |
| Profile.FieldOr | react-router-advanced/src/components/Profile.jsx:11-13 | the user's field when it is truthy, else the fallback |
| Profile.InitialDetails | react-router-advanced/src/components/Profile.jsx:10-14 | name and email default to '', bio to "No bio added yet." |
| Profile.WithDetail | react-router-advanced/src/components/Profile.jsx:16-21 | only the named field of the form changes |
| Profile.AsUpdates | react-router-advanced/src/components/Profile.jsx:25 | the updates object holds exactly the three form fields |
| Profile.SaveKeepsOtherFields | react-router-advanced/src/components/Profile.jsx:23-27 | saving changes name, email and bio and keeps every other field, the role included |
| Profile.Toggled | react-router-advanced/src/components/Profile.jsx:128-133 | only the named boolean setting flips |
| Profile.ToggleTwice | react-router-advanced/src/components/Profile.jsx:128-133 | toggling the same setting twice restores the settings |
| Profile.ProfileDetails.constructor | react-router-advanced/src/components/Profile.jsx:9-14 | not editing; the form starts from the user |
| Profile.ProfileDetails.ToggleEditing | react-router-advanced/src/components/Profile.jsx:34 | the Edit/Cancel button flips `isEditing` |
| Profile.ProfileDetails.HandleChange | react-router-advanced/src/components/Profile.jsx:16-21 | the form becomes the form with that field replaced |
| Profile.ProfileDetails.HandleSubmit | react-router-advanced/src/components/Profile.jsx:23-27 | the whole form is merged into the user and stored; editing ends |
| Profile.ProfileSettings.constructor | react-router-advanced/src/components/Profile.jsx:121-126 | notifications on, email updates on, dark mode off, language 'en' |
| Profile.ProfileSettings.HandleToggle | react-router-advanced/src/components/Profile.jsx:128-133 | the settings become the toggled settings |
| Profile.ProfileSettings.HandleSelect | react-router-advanced/src/components/Profile.jsx:135-140 | only the language changes |
| Posts.SearchParamsFor | react-router-advanced/src/pages/Posts.jsx:23-30 | empty text removes every parameter; any other text sets `search` alone |
| Posts.SearchRoundTrip | react-router-advanced/src/pages/Posts.jsx:15 | the query read back from the URL is the text typed |
| Posts.FilteredPostsSpec | react-router-advanced/src/pages/Posts.jsx:36-43 | the filtered list is an ordered subsequence holding exactly the posts that match the search (case-insensitive, title or body) and the length filter; an empty query with 'all' keeps every post |
| Posts.ShortLongPartition | react-router-advanced/src/pages/Posts.jsx:39-41 | under any query, the 'short' and 'long' counts add up to the 'all' count |
| Posts.ShownPosts | react-router-advanced/src/pages/Posts.jsx:122 | the first `min(20, n)` filtered posts, in order |
| Posts.Excerpt | react-router-advanced/src/pages/Posts.jsx:134-136 | a body of at most 100 code units is shown whole; a longer one as its first 100 followed by "..." |
| Posts.LabelAgainstFilter | react-router-advanced/src/pages/Posts.jsx:138-140 | the label says "Long" iff the 'long' filter keeps the post and the body is not exactly 100 long; at exactly 100 the two disagree |
| Posts.PostPath | react-router-advanced/src/pages/Posts.jsx:32-34 | a post's route starts with "/posts/" and has an id after it |
| Posts.PostPathParam | react-router-advanced/src/pages/Posts.jsx:32-34 | the `:id` part of a post's route parses back to the post's id |
| Posts.PostsPage.constructor | react-router-advanced/src/pages/Posts.jsx:13-16 | the URL parameters as given; filter 'all' |
| Posts.PostsPage.HandleSearch | react-router-advanced/src/pages/Posts.jsx:23-30 | the parameters are rewritten, and the query reads back as the typed text |
| Posts.PostsPage.SetFilter | react-router-advanced/src/pages/Posts.jsx:89-106 | only the filter changes |
| Posts.PostsPage.HandlePostClick | react-router-advanced/src/pages/Posts.jsx:32-34 | navigates to the post's route, whose id parses back to the post's id |
| PostDetail.EnabledForPrintedIds | react-router-advanced/src/pages/PostDetail.jsx:27-45 | a printed non-zero id enables both queries for that id; "0" and text without a leading number (`NaN`) disable them |
| PostDetail.ViewFor | react-router-advanced/src/pages/PostDetail.jsx:48-70 | loading shows the spinner; an error or a missing post shows "Post Not Found"; otherwise the loaded post |
| PostDetail.BackTarget | react-router-advanced/src/pages/PostDetail.jsx:65-76 | both the not-found view and the post view lead back to "/posts" |
| PostDetail.NeighbourLinks | react-router-advanced/src/pages/PostDetail.jsx:107-120 | an enabled Previous leads to the post before and an enabled Next to the post after; the new route parses back to that id and enables its queries; ids in 1..100 stay in 1..100 |
| PostDetail.ShownComments | react-router-advanced/src/pages/PostDetail.jsx:135 | the first `min(5, n)` comments, in order |
| NotFound.ShownAreOtherRoutes | react-router-advanced/src/pages/NotFound.jsx:9-10 | the current path is never suggested, and every suggestion is a common route |
| NotFound.CommonPathShowsTheOthers | react-router-advanced/src/pages/NotFound.jsx:10-46 | on a common path, all five other common routes are shown |
| NotFound.OtherPathShowsFirstFive | react-router-advanced/src/pages/NotFound.jsx:10-46 | on any other path, the first five common routes are shown, in their listed order |
| NotFound.Label | react-router-advanced/src/pages/NotFound.jsx:48 | "/" is labelled "Home"; any other route by its path |
| PostsComponent.TotalPages | react-query-demo/src/components/PostsComponent.jsx:35 | the least page count whose pages of 10 hold every post; zero exactly when there are no posts |
| PostsComponent.PageSlice | react-query-demo/src/components/PostsComponent.jsx:36-37 | at most 10 posts, in list order, starting at `(page-1)*10`; the full remainder on an existing page; none past the last page |
| PostsComponent.PostOnItsPage | react-query-demo/src/components/PostsComponent.jsx:35-37 | post `k` appears as entry `k % 10` of page `k / 10 + 1`, which exists, and on no other page |
| PostsComponent.PageWindow | react-query-demo/src/components/PostsComponent.jsx:201-211 | `min(5, totalPages)` consecutive pages, all within 1..totalPages, including the current page when it is in range |
| PostsComponent.PostList.constructor | react-query-demo/src/components/PostsComponent.jsx:16-17 | page 1 and nothing selected |
| PostsComponent.PostList.HandlePostSelect | react-query-demo/src/components/PostsComponent.jsx:40-42 | selecting the selected post clears the selection; any other post becomes selected |
| PostsComponent.PostList.ClickPrevious | react-query-demo/src/components/PostsComponent.jsx:190-197 | one page back, and no move on page 1, where the button is disabled; the page stays in range |
| PostsComponent.PostList.ClickNext | react-query-demo/src/components/PostsComponent.jsx:224-230 | one page on, and no move on the last page, where the button is disabled; the page stays in range |
| PostsComponent.PostList.ClickPageNumber | react-query-demo/src/components/PostsComponent.jsx:201-221 | moves to the page the button shows, which is in range |
| PostsComponent.PostList.ResetAndRefetch | react-query-demo/src/components/PostsComponent.jsx:126-129 | back to page 1 |
| TodoList.ToggledById | react-todo/src/components/TodoList.jsx:27-31 | same length, ids and texts; `completed` flips exactly on the todos with that id |
| TodoList.ToggleTwice | react-todo/src/components/TodoList.jsx:27-31 | toggling an id twice restores the list |
| TodoList.ToggleUnknown | react-todo/src/components/TodoList.jsx:27-31 | toggling an id that no todo has changes nothing |
| TodoList.DeleteProperties | react-todo/src/components/TodoList.jsx:33-35 | every todo with the id is removed and every other is kept, in order; an unknown id changes nothing |
| TodoList.StatsAddUp | react-todo/src/components/TodoList.jsx:82-84 | completed plus remaining equals the total |
| TodoList.TodoListState.constructor | react-todo/src/components/TodoList.jsx:5-11 | the three initial todos and empty input |
| TodoList.TodoListState.SetNewTodo | react-todo/src/components/TodoList.jsx:11 | only the typed text changes |
| TodoList.TodoListState.HandleAddTodo | react-todo/src/components/TodoList.jsx:13-25 | text that is blank after trimming changes nothing; otherwise exactly one todo with the trimmed text, not completed, is appended and the input cleared; no todo is ever blank |
| TodoList.TodoListState.HandleToggleTodo | react-todo/src/components/TodoList.jsx:27-31 | the list becomes the toggled list |
| TodoList.TodoListState.HandleDeleteTodo | react-todo/src/components/TodoList.jsx:33-35 | the list becomes the list without that id |
| RecipeStore.WithoutProperties | recipe-sharing-app/src/store/recipeStore.js:7 | every entry identical to the recipe is removed, and only those: the length drops by its count and the multiset is otherwise unchanged; an absent recipe changes nothing |
| RecipeStore.WithoutKeepsOrder | recipe-sharing-app/src/store/recipeStore.js:7 | the remaining entries keep their order |
| RecipeStore.UpdatedProperties | recipe-sharing-app/src/store/recipeStore.js:8 | the new recipe is last; the length is kept when the old recipe occurred once; an absent old recipe makes update the same as add |
| RecipeStore.Store.constructor | recipe-sharing-app/src/store/recipeStore.js:4 | the list starts empty |
| RecipeStore.Store.AddRecipe | recipe-sharing-app/src/store/recipeStore.js:5 | appends at the end |
| RecipeStore.Store.SetRecipes | recipe-sharing-app/src/store/recipeStore.js:6 | replaces the list |
| RecipeStore.Store.DeleteRecipe | recipe-sharing-app/src/store/recipeStore.js:7 | the list without the recipe |
| RecipeStore.Store.UpdateRecipe | recipe-sharing-app/src/store/recipeStore.js:8 | the list without the old recipe, then the new one |
| RecipeStoreCopy.Store.constructor | recipe-sharing-app/src/components/recipeStore.js:4 | the list starts empty |
| RecipeStoreCopy.Store.AddRecipe | recipe-sharing-app/src/components/recipeStore.js:5 | appends at the end |
| RecipeStoreCopy.Store.SetRecipes | recipe-sharing-app/src/components/recipeStore.js:6 | replaces the list |
| RecipeStoreCopy.Store.DeleteRecipe | recipe-sharing-app/src/components/recipeStore.js:7 | keeps the entries not identical to the argument |
| RecipeStoreCopy.Store.UpdateRecipe | recipe-sharing-app/src/components/recipeStore.js:8 | keeps the entries not identical to the old recipe, then appends the new one |
| RecipeStoreCopy.SameEffect | recipe-sharing-app/src/components/recipeStore.js:3-9 | both stores, started equal and given the same sequence of add, set, delete and update actions, end equal, each holding the list `Replay` computes with the first copy's `Without` and `Updated` |
| Validation.NonBlankEntries | recipe-sharing-platform/src/components/utils/validation.js:11-12 | only entries with text, in order, as a subsequence; a missing list gives none |
| Validation.CountIsFilteredLength | recipe-sharing-platform/src/components/utils/validation.js:11-14 | the counted entries are exactly those the filter keeps |
| Validation.ValidateRecipeForm | recipe-sharing-platform/src/components/utils/validation.js:1-28 | each key is present iff its own rule fails (blank title or summary, empty category or cook time, fewer than 2 ingredients or steps with text, a non-empty invalid image) and carries its message; no other key |
| Validation.NoErrorsIffPasses | recipe-sharing-platform/src/components/utils/validation.js:1-28 | no errors iff every rule passes; an empty image never errors |
| Validation.TitleIndependent | recipe-sharing-platform/src/components/utils/validation.js:5-25 | changing the title changes no other key of the result |
| Validation.CalculateTotalTime | recipe-sharing-platform/src/components/utils/validation.js:39-41 | an unparsable input contributes 0 |
| Validation.TotalTimeSymmetric | recipe-sharing-platform/src/components/utils/validation.js:39-41 | the total does not depend on the order of the arguments |
| Validation.TotalTimeOfNumbers | recipe-sharing-platform/src/components/utils/validation.js:39-41 | two printed integers add up |
| Validation.TotalTimeOfBlanks | recipe-sharing-platform/src/components/utils/validation.js:39-41 | empty inputs count as 0 |
| AddRecipeForm.SetField | recipe-sharing-platform/src/components/AddRecipeForm.jsx:48-51 | only the named field changes; the lists are kept |
| AddRecipeForm.Present | recipe-sharing-platform/src/components/AddRecipeForm.jsx:166 | every entry of the form's list is present |
| AddRecipeForm.CountPresent | recipe-sharing-platform/src/components/AddRecipeForm.jsx:166-175 | the form's filtered lists have the length the shared rules count |
| AddRecipeForm.AddTagKeepsOk | recipe-sharing-platform/src/components/AddRecipeForm.jsx:129-137 | appending a new tag with text keeps the tags clean and without repeats |
| AddRecipeForm.WithTag | recipe-sharing-platform/src/components/AddRecipeForm.jsx:129-137 | the trimmed input is appended iff it has text and is not already a tag; clean tags stay clean |
| AddRecipeForm.SubmissionOf | recipe-sharing-platform/src/components/AddRecipeForm.jsx:216-235 | the form with blank ingredients and steps dropped, the given id, rating 0, author 'You', calories or 0 |
| AddRecipeForm.SubmittedRecipeIsComplete | recipe-sharing-platform/src/components/AddRecipeForm.jsx:209-235 | a form that passes is submitted with at least two ingredients and two steps, none blank, in the order typed |
| AddRecipeForm.FormTotalTime | recipe-sharing-platform/src/components/AddRecipeForm.jsx:277-281 | the form's own total equals the shared `calculateTotalTime` |
| AddRecipeForm.RecipeForm.constructor | recipe-sharing-platform/src/components/AddRecipeForm.jsx:20-40 | the initial form, no errors, nothing touched, empty tag input |
| AddRecipeForm.RecipeForm.HandleInputChange | recipe-sharing-platform/src/components/AddRecipeForm.jsx:47-66 | only that field changes; a non-empty error of that field becomes '' and its key stays; the field is marked touched and no longer shows an error |
| AddRecipeForm.RecipeForm.HandleIngredientChange | recipe-sharing-platform/src/components/AddRecipeForm.jsx:69-76 | only that entry changes |
| AddRecipeForm.RecipeForm.AddIngredientField | recipe-sharing-platform/src/components/AddRecipeForm.jsx:79-84 | one blank entry at the end |
| AddRecipeForm.RecipeForm.RemoveIngredientField | recipe-sharing-platform/src/components/AddRecipeForm.jsx:87-96 | removes exactly that entry, only when there is more than one; the list never becomes empty |
| AddRecipeForm.RecipeForm.HandleInstructionChange | recipe-sharing-platform/src/components/AddRecipeForm.jsx:99-106 | only that step changes |
| AddRecipeForm.RecipeForm.AddInstructionField | recipe-sharing-platform/src/components/AddRecipeForm.jsx:109-114 | one blank step at the end |
| AddRecipeForm.RecipeForm.RemoveInstructionField | recipe-sharing-platform/src/components/AddRecipeForm.jsx:117-126 | removes exactly that step, only when there is more than one; the list never becomes empty |
| AddRecipeForm.RecipeForm.SetTagInput | recipe-sharing-platform/src/components/AddRecipeForm.jsx:38-42 | only the tag input changes |
| AddRecipeForm.RecipeForm.HandleTagAdd | recipe-sharing-platform/src/components/AddRecipeForm.jsx:129-137 | the tags become `WithTag`; the input is cleared exactly when the tag was accepted; tags stay clean |
| AddRecipeForm.RecipeForm.HandleTagRemove | recipe-sharing-platform/src/components/AddRecipeForm.jsx:140-145 | that tag is gone and the others keep their order |
| AddRecipeForm.RecipeForm.ValidateForm | recipe-sharing-platform/src/components/AddRecipeForm.jsx:156-184 | the errors stored are the shared rules' errors for the form, and the result is true iff every rule passes |
| AddRecipeForm.RecipeForm.HandleSubmit | recipe-sharing-platform/src/components/AddRecipeForm.jsx:197-274 | the required fields are marked touched; a valid form is submitted without blank entries, reset, and navigation goes to "/"; an invalid one keeps its data and shows the errors |
| HomePage.FilterRecipesSpec | recipe-sharing-platform/src/components/HomePage.jsx:33-51 | the shown recipes are an ordered subsequence holding exactly the loaded recipes that match the search term (ignoring case, in title, summary or category) when there is one, and the selected category unless it is "All" |
| HomePage.FilterIgnoresCase | recipe-sharing-platform/src/components/HomePage.jsx:37-48 | no search and "All" shows every recipe; a search term and its lower-case form give the same list |
| HomePage.CategoriesOf | recipe-sharing-platform/src/components/HomePage.jsx:54 | the category of each recipe, in order |
| HomePage.CategoriesSpec | recipe-sharing-platform/src/components/HomePage.jsx:54 | "All" first, then each recipe category exactly once and nothing else, in order of first appearance |
| HomePage.CategoryButtonShowsRecipes | recipe-sharing-platform/src/components/HomePage.jsx:46-54 | a category button after the first, with an empty search, shows at least one recipe, all of that category (a category named "All" shows every recipe) |
| HomePage.HomePageState.constructor | recipe-sharing-platform/src/components/HomePage.jsx:6-9 | no recipes, empty search, "All" selected; the shown list agrees with the filter |
| HomePage.HomePageState.ApplyFilters | recipe-sharing-platform/src/components/HomePage.jsx:33-51 | the shown list becomes the filter of the loaded list, and nothing else changes |
| HomePage.HomePageState.LoadRecipes | recipe-sharing-platform/src/components/HomePage.jsx:20-21 | the loaded list is kept and the shown list agrees with the filter |
| HomePage.HomePageState.SetSearchTerm | recipe-sharing-platform/src/components/HomePage.jsx:78 | the new term is kept and the shown list agrees with the filter |
| HomePage.HomePageState.SetSelectedCategory | recipe-sharing-platform/src/components/HomePage.jsx:130 | the new category is kept and the shown list agrees with the filter |
| HomePage.HomePageState.ClearFilters | recipe-sharing-platform/src/components/HomePage.jsx:173-176 | empty search, "All" selected, every loaded recipe shown |
| RecipeDetail.FindRecipe | recipe-sharing-platform/src/components/RecipeDetail.jsx:42 | a recipe is found iff the route id parses to a number some recipe has; it is the first recipe with that id |
| RecipeDetail.FirstWithId | recipe-sharing-platform/src/components/RecipeDetail.jsx:42 | the first position holding that id, or the length when there is none |
| RecipeDetail.FindPrintedId | recipe-sharing-platform/src/components/RecipeDetail.jsx:42 | the printed id of a loaded recipe finds a recipe with that id |
| RecipeDetail.SimilarRecipes | recipe-sharing-platform/src/components/RecipeDetail.jsx:76-79 | empty without a recipe, a similar list or loaded recipes; otherwise only loaded recipes whose id is listed, in loaded order |
| RecipeDetail.SimilarRecipesComplete | recipe-sharing-platform/src/components/RecipeDetail.jsx:76-79 | every loaded recipe whose id is listed is included |
| RecipeDetail.DisabledIffRejected | recipe-sharing-platform/src/components/RecipeDetail.jsx:467 | with a star rating (0 to 5) the submit button is disabled exactly when the review would be rejected |
| RecipeDetail.RecipeDetailPage.constructor | recipe-sharing-platform/src/components/RecipeDetail.jsx:23-30 | no recipe, 4 servings, not bookmarked, no rating, empty text |
| RecipeDetail.RecipeDetailPage.LoadRecipe | recipe-sharing-platform/src/components/RecipeDetail.jsx:39-48 | keeps the loaded list, picks the recipe by id, and takes its servings when one is found |
| RecipeDetail.RecipeDetailPage.HandleBookmark | recipe-sharing-platform/src/components/RecipeDetail.jsx:81-84 | the bookmark flips; the recipe, the loaded list, the servings and the review form are kept |
| RecipeDetail.RecipeDetailPage.SetUserRating | recipe-sharing-platform/src/components/RecipeDetail.jsx:441 | a star sets the rating; everything else is kept |
| RecipeDetail.RecipeDetailPage.SetReviewText | recipe-sharing-platform/src/components/RecipeDetail.jsx:458 | only the text changes: the recipe, the rating, the bookmark, the loaded list and the servings are kept |
| RecipeDetail.RecipeDetailPage.HandleSubmitReview | recipe-sharing-platform/src/components/RecipeDetail.jsx:86-107 | a review with text and a rating is appended last with that rating and text, every other field of the recipe is kept (`...prev`), and the form clears; otherwise nothing changes; the review count grows by at most one |
| RegistrationForm.EmailPatternShape | form-handling-react/src/components/RegistrationForm.jsx:43 | the email pattern matches iff some whitespace-free `x@y.z` with one-character `x` and `z` occurs |
| RegistrationForm.MatchedEmailNotBlank | form-handling-react/src/components/RegistrationForm.jsx:41-45 | an address that matches is never blank |
| RegistrationForm.ValidateRegistration | form-handling-react/src/components/RegistrationForm.jsx:34-54 | a username error iff blank; an email error iff blank ("required") or not matching ("invalid"); a password error iff shorter than 6, "required" when empty |
| RegistrationForm.AcceptedIff | form-handling-react/src/components/RegistrationForm.jsx:34-54 | no errors iff the username has text, the email matches and the password has at least 6 code units |
| RegistrationForm.WithField | form-handling-react/src/components/RegistrationForm.jsx:17-23 | only the named field changes |
| RegistrationForm.Registration.constructor | form-handling-react/src/components/RegistrationForm.jsx:6-14 | empty fields, no errors, not submitted |
| RegistrationForm.Registration.HandleChange | form-handling-react/src/components/RegistrationForm.jsx:17-31 | only that field changes, and its shown error becomes '' |
| RegistrationForm.Registration.HandleSubmit | form-handling-react/src/components/RegistrationForm.jsx:57-78 | a valid form is submitted and cleared with no errors; an invalid one stores exactly the errors, is not submitted, and keeps its data |

## Left out

- Network, `fetch` and react-query (caching, retries, refetch): loaded data is an argument and loading/error states are flags.
- Route matching (ranking, `*`, nested routes, `Navigate` elements as rendered): only the route table is data.
- Timers and asynchrony: the 500 ms login delay, the demo-login and submit delays. Login is synchronous.
- The clock and randomness: `Date.now()` and today's date are parameters. They are not assumed unique.
- JSON serialisation in the key-value store: parsing a stored user gives back the same object.
- AuthContext.AuthProvider.RestoreSession: a stored 'user' value that is non-empty text but not a serialised object (`Raw`) is treated as no session, and loading ends. In the source `JSON.parse` throws on such text before loading is switched off, or restores a non-object such as a number.
- Numbers are unbounded integers. JavaScript numbers are doubles: `String(n)` switches to exponent form from 1e21 on, and integers above 2^53 are not exact. So the printed-id round-trips (`Text.ParseIntToString`, `Posts.PostPathParam`, `PostDetail.EnabledForPrintedIds`, `RecipeDetail.FindPrintedId`, `Profile.OwnIdIsNotExternal`) hold in JavaScript only for safe integers.
- `parseInt`: only leading white space, an optional sign and a decimal digit prefix. Hex, exponents and the `-0` result are not modelled.
- `toLowerCase` and `trim`: ASCII letters only for case. The white-space set follows `String.prototype.trim`.
- Strings are sequences of Unicode scalar values (Dafny's `char`), not of UTF-16 code units. A character outside the Basic Multilingual Plane is one element here but two in JavaScript's `length`, so for such text the password's `length < 6` rule in `RegistrationForm.ValidateRegistration` and the 100-character bounds of `Posts.Excerpt` and the length filter count differently from the browser.
- The WHATWG URL parser behind `isValidUrl`: an uninterpreted predicate.
- Floating point: ingredient scaling in the recipe page, the running rating average, star rendering. `DetailRecipe` carries no rating.
- Formik and Yup (`FormikForm.js`): the checking is done by a library not shown.
- `handleForceRefetch` in the query demo: it refers to an undefined `queryClient`.
- The `isSubmitting` and `isLoading` spinners in between a handler's steps: each method states the state after the handler finishes.
- AddRecipeForm.RecipeForm.HandleIngredientChange: requires an index inside the list. In JavaScript a larger index would extend the array, but the form only calls it for existing rows.
- AddRecipeForm.RecipeForm.HandleInstructionChange: the same index requirement, for the same reason.
- AddRecipeForm.RecipeForm.ValidateForm: the form's own copy of the rules is stated through the shared `validateRecipeForm` function. `CountPresent` shows that the counts agree.
- AddRecipeForm.SubmissionOf: the rest of the nutrition block (all but `calories`), the avatar URL, `reviews` and `similarRecipes` of the submitted object are not modelled.
- RecipeDetail.RecipeDetailPage.SetUserRating: requires a star value from 1 to 5, the only values the star buttons pass.
- The recipe page's review rating average and servings selector (`parseInt` of the select value) are not modelled.
- Pure presentation components (cards, dashboards, about pages, app shells) and the thin store wrappers in `recipe-sharing-app`.
- The GitHub user search and its services, and `PostDetails.jsx` of the query demo, which is fetch glue around a slice.
