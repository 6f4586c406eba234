# Meal-planner page state, in Dafny

A model of the state-transition logic of three pages of a meal-planning web
front-end, with the rendering stripped away:

- **Recipe suggestions** (`recipe_suggestions.dfy`, module `RecipeSuggestions`).
  The week plan is a sequence of `Entry(day, meals)` pairs, the order of
  `Object.entries`, each meal a `Meal(mealType, recipeId)`. A day filter and a
  meal-type filter build a restricted copy of the plan. `FilterRecipes` is the
  `reduce` loop with its accumulator object. `Restrict` is the function that
  specifies it, and lemmas give its soundness, completeness, order and the
  `All`/`All` case. The page class holds the two filter selections and the
  accepted-recipe list. Accept, accept-all and reset replace that list. Reject
  and view change nothing. Each shown recipe's `isSelected` flag is derived as
  membership in the list.
- **Grocery list** (`grocery_list.dfy`, module `GroceryList`). A list of items
  whose quantity is moved by a signed change and floored at zero,
  matched by id. Beside it sit three shopping-preference fields with one setter each.
- **Preferences form** (`preferences_form.dfy`, module `Preferences`). The draft
  record with its defaults, one setter per scalar field, reset to the
  defaults, and the checkbox toggle on the three list fields. The toggle drops
  every occurrence of a present value and appends an absent one.
- `sequences.dfy` (module `Sequences`) holds what the recipe and preferences modules share:
  `Array.prototype.filter` as `Filter`, order-preserving selection
  (`IsSubsequence`) and distinct keys (`DistinctBy`), with their lemmas.

Three consequences of the code that the lemmas make explicit:

- `handleAccept` appends to an array, so accepting an id twice stores it
  twice (`HandleAccept`). Only membership, and so the selection flag, is
  idempotent.
- Toggling an absent value twice gives back the same list
  (`ToggleTwiceAbsent`). Toggling a present value twice removes it and then
  appends it at the end, so only membership is restored (`ToggleTwiceMembers`).
- Filtering with `All`/`All` still drops days whose meal list is empty
  (`RestrictAllAll`). When no day is empty it gives back the plan unchanged.

## Model

| member | source | states |
|---|---|---|
| Sequences.FilterMembers | src/pages/RecipeSuggestionsPage.tsx:45-47 | an element survives `filter` iff it was in the input and the predicate accepts it |
| Sequences.FilterIsSubsequence | src/pages/RecipeSuggestionsPage.tsx:45-47 | `filter` keeps the surviving elements in their original relative order |
| Sequences.FilterMultiset | src/pages/RecipeSuggestionsPage.tsx:45-47 | `filter` keeps every copy of an accepted value and no copy of a rejected one |
| Sequences.FilterSnoc | src/pages/RecipeSuggestionsPage.tsx:45-47 | `filter` runs left to right: filtering `s + [x]` is filtering `s`, then `x` if accepted |
| Sequences.FilterDistinctBy | src/pages/RecipeSuggestionsPage.tsx:42-54 | filtering never creates two elements with the same key |
| RecipeSuggestions.AssignNewDay | src/pages/RecipeSuggestionsPage.tsx:50 | `acc[day] = meals` with a day the accumulator does not hold yet appends the pair at the end |
| RecipeSuggestions.FilterRecipes | src/pages/RecipeSuggestionsPage.tsx:42-54 | the reduce loop over distinct-day entries builds exactly `Restrict(recipes, selectedDay, selectedMealType)` and leaves its input alone |
| RecipeSuggestions.RestrictSnoc | src/pages/RecipeSuggestionsPage.tsx:42-54 | days are processed in order: one more day adds at most its trimmed form at the end |
| RecipeSuggestions.FilterMealsCorrect | src/pages/RecipeSuggestionsPage.tsx:45-47 | the meal-type filter keeps exactly the meals of the selected type (all with `All`), in their order, with every copy of each kept meal |
| RecipeSuggestions.RestrictSound | src/pages/RecipeSuggestionsPage.tsx:42-54 | every output day passes the day filter, is non-empty, and is a plan day with its meals type-filtered |
| RecipeSuggestions.RestrictMatchesFilters | src/pages/RecipeSuggestionsPage.tsx:43-51 | with a named day every output day is that day; with a named type every output meal has it; no output day is empty |
| RecipeSuggestions.RestrictComplete | src/pages/RecipeSuggestionsPage.tsx:43-51 | a plan day that passes the day filter and keeps a meal of the type is present, with those meals |
| RecipeSuggestions.RestrictPreservesOrder | src/pages/RecipeSuggestionsPage.tsx:42-54 | output days are an order-preserving selection of the trimmed plan, and each day's meals a subsequence of its input meals |
| RecipeSuggestions.RestrictDistinctDays | src/pages/RecipeSuggestionsPage.tsx:42-54 | the output has no repeated day, as an object must not |
| RecipeSuggestions.RestrictAllAll | src/pages/RecipeSuggestionsPage.tsx:42-54 | with both filters `All` the output is the plan minus its empty days, and the plan itself when none is empty |
| RecipeSuggestions.AllRecipeIdsExact | src/pages/RecipeSuggestionsPage.tsx:30-35 | the flattened id list holds exactly the ids of the plan's meals, one per meal |
| RecipeSuggestions.RestrictShowsPlanRecipes | src/pages/RecipeSuggestionsPage.tsx:42-54 | every meal shown under any filter holds a recipe of the plan |
| RecipeSuggestions.AcceptAllSelectsEveryShown | src/pages/RecipeSuggestionsPage.tsx:94-104 | after accept-all every recipe displayed under any filter has `isSelected` true |
| RecipeSuggestions.RecipeSuggestionsPage.constructor | src/pages/RecipeSuggestionsPage.tsx:11-14 | both filters start at `All`, the accepted list empty, the plan as given |
| RecipeSuggestions.RecipeSuggestionsPage.Shown | src/pages/RecipeSuggestionsPage.tsx:94-104 | the days rendered are the filtered plan with each recipe flagged by membership in the accepted list |
| RecipeSuggestions.RecipeSuggestionsPage.SetSelectedMealType | src/pages/RecipeSuggestionsPage.tsx:89 | the meal-type selection changes and nothing else |
| RecipeSuggestions.RecipeSuggestionsPage.SetSelectedDay | src/pages/RecipeSuggestionsPage.tsx:90 | the day selection changes and nothing else |
| RecipeSuggestions.RecipeSuggestionsPage.HandleAccept | src/pages/RecipeSuggestionsPage.tsx:16-18 | the id is appended; it is selected afterwards and every other id keeps its selection |
| RecipeSuggestions.RecipeSuggestionsPage.HandleAcceptAll | src/pages/RecipeSuggestionsPage.tsx:30-35 | the list becomes the plan's ids day by day, meal by meal; a recipe is then selected iff it occurs in the plan |
| RecipeSuggestions.RecipeSuggestionsPage.HandleReset | src/pages/RecipeSuggestionsPage.tsx:37-40 | the list is emptied and no recipe is selected |
| RecipeSuggestions.RecipeSuggestionsPage.HandleReject | src/pages/RecipeSuggestionsPage.tsx:20-23 | no state changes |
| RecipeSuggestions.RecipeSuggestionsPage.HandleView | src/pages/RecipeSuggestionsPage.tsx:25-28 | no state changes |
| GroceryList.QuantityChanged | src/pages/GroceryListPage.tsx:42-50 | same length and order; items with the id get quantity `max(0, q + change)`, never negative; other items and all other fields unchanged |
| GroceryList.UnknownIdUnchanged | src/pages/GroceryListPage.tsx:44-48 | a change for an id no item has returns the list unchanged |
| GroceryList.QuantityChangedNonNegative | src/pages/GroceryListPage.tsx:46 | no change can make a quantity negative |
| GroceryList.ButtonSteps | src/pages/GroceryListPage.tsx:107-121 | the -1 button keeps a zero quantity at zero; the +1 button takes q to q + 1 |
| GroceryList.IncrementThenDecrement | src/pages/GroceryListPage.tsx:46 | +1 then -1 on the same id restores a list without negative quantities |
| GroceryList.GroceryListPage.constructor | src/pages/GroceryListPage.tsx:16-40 | the two initial items and the preference defaults (not organic-only, no brands, substitutes allowed) |
| GroceryList.GroceryListPage.HandleQuantityChange | src/pages/GroceryListPage.tsx:42-50 | the list becomes its adjusted copy; quantities stay non-negative; preferences untouched |
| GroceryList.GroceryListPage.SetOrganicOnly | src/pages/GroceryListPage.tsx:71 | only `organicOnly` changes |
| GroceryList.GroceryListPage.SetPreferredBrands | src/pages/GroceryListPage.tsx:83 | only `preferredBrands` changes |
| GroceryList.GroceryListPage.SetSubstituteAllowed | src/pages/GroceryListPage.tsx:92 | only `substituteAllowed` changes |
| Preferences.WithoutCorrect | src/components/PreferencesForm/PreferencesForm.tsx:54 | removal drops every occurrence of the value, keeps every other value in order, keeps every copy of every other value, and is the identity on an absent value |
| Preferences.ToggleMembership | src/components/PreferencesForm/PreferencesForm.tsx:53-55 | an absent value is appended at the end; the toggled value's membership flips; no other value's membership changes |
| Preferences.ToggleTwiceAbsent | src/components/PreferencesForm/PreferencesForm.tsx:53-55 | toggling an absent value twice returns the identical list |
| Preferences.ToggleTwiceMembers | src/components/PreferencesForm/PreferencesForm.tsx:53-55 | toggling any value twice restores the set of members |
| Preferences.ToggleNoDuplicates | src/components/PreferencesForm/PreferencesForm.tsx:53-55 | a duplicate-free list stays duplicate-free |
| Preferences.CheckboxChangedOnlyField | src/components/PreferencesForm/PreferencesForm.tsx:50-57 | the toggle changes only the named list; every other field and list is untouched |
| Preferences.PreferencesForm.constructor | src/components/PreferencesForm/PreferencesForm.tsx:13-24 | the draft starts as goal `""`, empty lists, adults 2, kids 0, cooking time 30, calories 2000, budget 150, delivery `"monday"` |
| Preferences.PreferencesForm.HandleReset | src/components/PreferencesForm/PreferencesForm.tsx:59-72 | from any state the draft becomes exactly the initial draft |
| Preferences.PreferencesForm.HandleCheckboxChange | src/components/PreferencesForm/PreferencesForm.tsx:50-57 | the named list is toggled and nothing else changes |
| Preferences.PreferencesForm.SetGoal | src/components/PreferencesForm/PreferencesForm.tsx:82 | only `goal` changes |
| Preferences.PreferencesForm.SetAdults | src/components/PreferencesForm/PreferencesForm.tsx:109 | only `adults` changes |
| Preferences.PreferencesForm.SetKids | src/components/PreferencesForm/PreferencesForm.tsx:110 | only `kids` changes |
| Preferences.PreferencesForm.SetCookingTime | src/components/PreferencesForm/PreferencesForm.tsx:126 | only `cookingTime` changes |
| Preferences.PreferencesForm.SetCalorieTarget | src/components/PreferencesForm/PreferencesForm.tsx:147 | only `calorieTarget` changes |
| Preferences.PreferencesForm.SetBudget | src/components/PreferencesForm/PreferencesForm.tsx:203 | only `budget` changes |
| Preferences.PreferencesForm.SetDeliveryDay | src/components/PreferencesForm/PreferencesForm.tsx:208 | only `deliveryDay` changes |

## Left out

- Rendering, CSS classes and icons: presentation only. `Shown` keeps only a
  recipe's type, id and `isSelected` flag. The other recipe fields (name,
  nutrition) pass through the spread unchanged and are not modelled.
- Navigation (`navigate('/')`, `navigate('/grocery-list')`, `navigate('/amazon-auth')`): router side effects.
- The asynchronous `handleSubmit`, its two-second timer and the `isLoading` flag: a simulated network call with timing.
- The `console.log` calls in `handleReject` and `handleView`: output only. Both are modelled as no-ops.
- `parseInt` of the input text and its possible `NaN`: the cooking-time and calorie setters take an integer.
- JavaScript numbers are modelled as unbounded integers. Fractional quantities, prices and counts are not modelled.
- The `min`/`max`/`step` attributes of the range and number inputs: the state layer does not enforce them, so no invariant claims them.
- The child components (goal, servings, budget and delivery-day selectors, day sections, filters, nutritional overview) are not part of this model. Each setter they call is modelled as a method taking the new value.
- The mock data module is not part of this model. The plan is an arbitrary input, given to the page's constructor.
- Weekly nutritional totals: static mock data that nothing shown derives from the plan.
- The `recipes` state setter, which is never called. The plan is a `const` field.
- `handleCheckboxChange` takes any string as the category. Only the three list fields are ever passed, so the model takes an enumeration of them. Another string would index some other field of the draft (a string or a number) or no field at all, and the source's toggle would then misbehave or throw.
- Object key order: JavaScript lists integer-like keys first. Weekday names are not integer-like, so the model keeps insertion order.
- Distinct day keys are a precondition of `FilterRecipes`, of the page's constructor and, through `Valid()`, of `RecipeSuggestionsPage.Shown`. Every object's `Object.entries` satisfies it.
