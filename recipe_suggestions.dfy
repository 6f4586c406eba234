/**
 * The weekly-plan page: a day / meal-type filter that builds a restricted copy of
 * the plan, and the list of accepted recipe ids from which every displayed
 * recipe's selection flag is derived.
 *
 * The plan is the page's `recipes` state: the `[day, meals]` pairs of
 * `Object.entries(recipes)`, in insertion order. Day keys of a JavaScript object
 * are distinct, which `DistinctDays` states.
 */
module RecipeSuggestions {
  import opened Sequences

  /** A meal slot of the plan: its type tag and the id of the recipe it holds. */
  datatype Meal = Meal(mealType: string, recipeId: string)

  /** One `[day, meals]` pair of the plan. */
  datatype Entry = Entry(day: string, meals: seq<Meal>)

  type Plan = seq<Entry>

  /** The filter value that lets every day, or every meal type, through. */
  const All: string := "All"

  function DayOf(e: Entry): string { e.day }

  /** No day key occurs twice, as in any JavaScript object. */
  predicate DistinctDays(p: Plan) { DistinctBy(p, DayOf) }

  /** A day survives the day filter unless the filter names some other day. */
  predicate DayPasses(selectedDay: string, day: string)
  {
    !(selectedDay != All && day != selectedDay)
  }

  /** A meal survives the meal-type filter when the filter is `All` or names its type. */
  predicate MealPasses(selectedMealType: string, m: Meal)
  {
    selectedMealType == All || m.mealType == selectedMealType
  }

  /** The meals of one day that pass the meal-type filter, in their original order. */
  function FilterMeals(meals: seq<Meal>, selectedMealType: string): seq<Meal>
  {
    Filter(meals, m => MealPasses(selectedMealType, m))
  }

  /** A day with its meals restricted to the selected type. */
  function Trim(e: Entry, selectedMealType: string): Entry
  {
    Entry(e.day, FilterMeals(e.meals, selectedMealType))
  }

  /** Every day of the plan, each with its meals restricted to the selected type. */
  function Trimmed(p: Plan, selectedMealType: string): Plan
  {
    seq(|p|, k requires 0 <= k < |p| => Trim(p[k], selectedMealType))
  }

  /** A trimmed day is kept when it passes the day filter and still has a meal. */
  predicate Kept(selectedDay: string, e: Entry)
  {
    DayPasses(selectedDay, e.day) && |e.meals| > 0
  }

  /** The plan restricted by both filters, with the days left empty dropped. */
  function Restrict(p: Plan, selectedDay: string, selectedMealType: string): Plan
  {
    Filter(Trimmed(p, selectedMealType), e => Kept(selectedDay, e))
  }

  predicate HasMeals(e: Entry) { |e.meals| > 0 }

  /**
   * Writing `acc[day]` on the accumulator object: an existing day keeps its place and
   * takes the new meals, a new day goes last.
   */
  function Assign(o: Plan, day: string, meals: seq<Meal>): Plan
  {
    if o == [] then [Entry(day, meals)]
    else if o[0].day == day then [Entry(day, meals)] + o[1..]
    else [o[0]] + Assign(o[1..], day, meals)
  }

  /** Assigning a key the object does not have yet appends it. */
  lemma {:induction false} AssignNewDay(o: Plan, day: string, meals: seq<Meal>)
    requires forall e :: e in o ==> e.day != day
    ensures Assign(o, day, meals) == o + [Entry(day, meals)]
  {
    if o != [] {
      assert o[0] in o;
      assert forall e :: e in o[1..] ==> e in o;
      AssignNewDay(o[1..], day, meals);
      assert o == [o[0]] + o[1..];
    }
  }

  /**
   * The `reduce` over `Object.entries(recipes)`: skip a day the day filter rejects,
   * filter its meals by type, and record the day in the accumulator only when some
   * meal is left. The new plan is built beside the old one, which is not changed.
   */
  method FilterRecipes(recipes: Plan, selectedDay: string, selectedMealType: string) returns (acc: Plan)
    requires DistinctDays(recipes)
    ensures acc == Restrict(recipes, selectedDay, selectedMealType)
  {
    acc := [];
    var i := 0;
    while i < |recipes|
      invariant 0 <= i <= |recipes|
      invariant acc == Restrict(recipes[..i], selectedDay, selectedMealType)
    {
      var entry := recipes[i];
      assert recipes[..i + 1] == recipes[..i] + [entry];
      RestrictSnoc(recipes[..i], entry, selectedDay, selectedMealType);
      if selectedDay != All && entry.day != selectedDay {
        i := i + 1;
        continue;
      }
      var filteredMeals := FilterMeals(entry.meals, selectedMealType);
      if |filteredMeals| > 0 {
        forall e | e in acc ensures e.day != entry.day {
          RestrictSound(recipes[..i], selectedDay, selectedMealType);
          var k :| 0 <= k < i && recipes[k].day == e.day;
          assert DayOf(recipes[k]) != DayOf(recipes[i]);
        }
        AssignNewDay(acc, entry.day, filteredMeals);
        acc := Assign(acc, entry.day, filteredMeals);
      }
      i := i + 1;
    }
    assert recipes[..|recipes|] == recipes;
  }

  /** Restricting a plan extended by one day: days are handled in order. */
  lemma RestrictSnoc(p: Plan, e: Entry, selectedDay: string, selectedMealType: string)
    ensures Restrict(p + [e], selectedDay, selectedMealType)
         == Restrict(p, selectedDay, selectedMealType)
            + (if Kept(selectedDay, Trim(e, selectedMealType)) then [Trim(e, selectedMealType)] else [])
  {
    assert Trimmed(p + [e], selectedMealType) == Trimmed(p, selectedMealType) + [Trim(e, selectedMealType)];
    FilterSnoc(Trimmed(p, selectedMealType), Trim(e, selectedMealType), e' => Kept(selectedDay, e'));
  }

  /** The meal-type filter keeps exactly the meals of the selected type, in their order. */
  lemma FilterMealsCorrect(meals: seq<Meal>, selectedMealType: string)
    ensures forall m :: m in FilterMeals(meals, selectedMealType) <==> m in meals && MealPasses(selectedMealType, m)
    ensures IsSubsequence(FilterMeals(meals, selectedMealType), meals)
    ensures selectedMealType == All ==> FilterMeals(meals, selectedMealType) == meals
    ensures forall m :: multiset(FilterMeals(meals, selectedMealType))[m] ==
                        (if MealPasses(selectedMealType, m) then multiset(meals)[m] else 0)
  {
    forall m {
      FilterMultiset(meals, m' => MealPasses(selectedMealType, m'), m);
    }
    FilterMembers(meals, m => MealPasses(selectedMealType, m));
    FilterIsSubsequence(meals, m => MealPasses(selectedMealType, m));
    if selectedMealType == All {
      FilterKeepsAll(meals, m => MealPasses(selectedMealType, m));
    }
  }

  /**
   * Soundness: every day of the result passes the day filter, has a meal, and is a
   * day of the plan whose meals were restricted to the selected type.
   */
  lemma RestrictSound(p: Plan, selectedDay: string, selectedMealType: string)
    ensures forall e :: e in Restrict(p, selectedDay, selectedMealType) ==>
      DayPasses(selectedDay, e.day) && |e.meals| > 0 &&
      exists k :: 0 <= k < |p| && p[k].day == e.day && e.meals == FilterMeals(p[k].meals, selectedMealType)
  {
    var t := Trimmed(p, selectedMealType);
    FilterMembers(t, e => Kept(selectedDay, e));
    forall e | e in Restrict(p, selectedDay, selectedMealType)
      ensures exists k :: 0 <= k < |p| && p[k].day == e.day && e.meals == FilterMeals(p[k].meals, selectedMealType)
    {
      var k :| 0 <= k < |t| && t[k] == e;
      assert p[k].day == e.day;
    }
  }

  /** With a named day, only that day can appear; with a named type, only meals of that type. */
  lemma RestrictMatchesFilters(p: Plan, selectedDay: string, selectedMealType: string)
    ensures forall e :: e in Restrict(p, selectedDay, selectedMealType) && selectedDay != All ==> e.day == selectedDay
    ensures forall e, m :: e in Restrict(p, selectedDay, selectedMealType) && m in e.meals && selectedMealType != All ==>
      m.mealType == selectedMealType
    ensures forall e :: e in Restrict(p, selectedDay, selectedMealType) ==> |e.meals| > 0
  {
    RestrictSound(p, selectedDay, selectedMealType);
    forall e, m | e in Restrict(p, selectedDay, selectedMealType) && m in e.meals && selectedMealType != All
      ensures m.mealType == selectedMealType
    {
      var k :| 0 <= k < |p| && p[k].day == e.day && e.meals == FilterMeals(p[k].meals, selectedMealType);
      FilterMealsCorrect(p[k].meals, selectedMealType);
    }
  }

  /** Completeness: a day that passes the day filter and keeps a meal of the selected type is present. */
  lemma RestrictComplete(p: Plan, selectedDay: string, selectedMealType: string)
    ensures forall k :: 0 <= k < |p| && DayPasses(selectedDay, p[k].day) && |FilterMeals(p[k].meals, selectedMealType)| > 0 ==>
      Trim(p[k], selectedMealType) in Restrict(p, selectedDay, selectedMealType)
  {
    var t := Trimmed(p, selectedMealType);
    FilterMembers(t, e => Kept(selectedDay, e));
    forall k | 0 <= k < |p| && DayPasses(selectedDay, p[k].day) && |FilterMeals(p[k].meals, selectedMealType)| > 0
      ensures Trim(p[k], selectedMealType) in Restrict(p, selectedDay, selectedMealType)
    {
      assert t[k] == Trim(p[k], selectedMealType);
      assert t[k] in t;
    }
  }

  /**
   * Order: the result is the plan's trimmed days with some days deleted and the rest
   * in their original order, and each trimmed day's meals keep their original order.
   */
  lemma RestrictPreservesOrder(p: Plan, selectedDay: string, selectedMealType: string)
    ensures IsSubsequence(Restrict(p, selectedDay, selectedMealType), Trimmed(p, selectedMealType))
    ensures forall k :: 0 <= k < |p| ==> IsSubsequence(Trimmed(p, selectedMealType)[k].meals, p[k].meals)
  {
    FilterIsSubsequence(Trimmed(p, selectedMealType), e => Kept(selectedDay, e));
    forall k | 0 <= k < |p| ensures IsSubsequence(Trimmed(p, selectedMealType)[k].meals, p[k].meals) {
      FilterMealsCorrect(p[k].meals, selectedMealType);
    }
  }

  /** The result is again a plan: no day occurs twice. */
  lemma RestrictDistinctDays(p: Plan, selectedDay: string, selectedMealType: string)
    requires DistinctDays(p)
    ensures DistinctDays(Restrict(p, selectedDay, selectedMealType))
  {
    var t := Trimmed(p, selectedMealType);
    assert DistinctBy(t, DayOf) by {
      forall i, j | 0 <= i < j < |t| ensures DayOf(t[i]) != DayOf(t[j]) {
        assert DayOf(p[i]) != DayOf(p[j]);
      }
    }
    FilterDistinctBy(t, e => Kept(selectedDay, e), DayOf);
  }

  /** With both filters at `All` the result is the plan with its empty days removed. */
  lemma RestrictAllAll(p: Plan)
    ensures Restrict(p, All, All) == Filter(p, HasMeals)
    ensures (forall e :: e in p ==> |e.meals| > 0) ==> Restrict(p, All, All) == p
  {
    var t := Trimmed(p, All);
    forall k | 0 <= k < |p| ensures t[k] == p[k] {
      FilterMealsCorrect(p[k].meals, All);
    }
    assert t == p;
    FilterCongruent(p, e => Kept(All, e), HasMeals);
    if forall e :: e in p ==> |e.meals| > 0 {
      FilterKeepsAll(p, HasMeals);
    }
  }

  /** The recipe ids of one day's meals, in meal order. */
  function RecipeIds(meals: seq<Meal>): seq<string>
  {
    seq(|meals|, j requires 0 <= j < |meals| => meals[j].recipeId)
  }

  /** The id list `handleAcceptAll` builds: every recipe id of the plan, day by day, meal by meal. */
  function AllRecipeIds(p: Plan): seq<string>
  {
    if p == [] then [] else RecipeIds(p[0].meals) + AllRecipeIds(p[1..])
  }

  /** Some meal of some day of the plan holds the recipe `id`. */
  predicate InPlan(p: Plan, id: string)
  {
    exists k, j :: 0 <= k < |p| && 0 <= j < |p[k].meals| && p[k].meals[j].recipeId == id
  }

  /** The flattened id list holds exactly the ids of the plan's meals. */
  lemma {:induction false} AllRecipeIdsExact(p: Plan)
    ensures forall id :: id in AllRecipeIds(p) ==> InPlan(p, id)
    ensures forall id :: InPlan(p, id) ==> id in AllRecipeIds(p)
    ensures |AllRecipeIds(p)| == MealCount(p)
  {
    if p != [] {
      AllRecipeIdsExact(p[1..]);
      var head := RecipeIds(p[0].meals);
      forall id | id in AllRecipeIds(p) ensures InPlan(p, id) {
        if id in head {
          var j :| 0 <= j < |head| && head[j] == id;
          assert p[0].meals[j].recipeId == id;
        } else {
          assert id in AllRecipeIds(p[1..]);
          var k, j :| 0 <= k < |p[1..]| && 0 <= j < |p[1..][k].meals| && p[1..][k].meals[j].recipeId == id;
          assert p[k + 1].meals[j].recipeId == id;
        }
      }
      forall id | InPlan(p, id) ensures id in AllRecipeIds(p) {
        var k, j :| 0 <= k < |p| && 0 <= j < |p[k].meals| && p[k].meals[j].recipeId == id;
        if k == 0 {
          assert head[j] == id;
        } else {
          assert p[1..][k - 1].meals[j].recipeId == id;
          assert InPlan(p[1..], id);
        }
      }
    }
  }

  /** The number of meals in the plan. */
  function MealCount(p: Plan): nat
  {
    if p == [] then 0 else |p[0].meals| + MealCount(p[1..])
  }

  /** A displayed recipe: the meal with its derived `isSelected` flag. */
  datatype ShownMeal = ShownMeal(mealType: string, recipeId: string, isSelected: bool)

  /** A displayed day. */
  datatype ShownDay = ShownDay(day: string, meals: seq<ShownMeal>)

  /** A meal as the page renders it: selected exactly when its recipe id is in the accepted list. */
  function ShowMeal(m: Meal, accepted: seq<string>): ShownMeal
  {
    ShownMeal(m.mealType, m.recipeId, m.recipeId in accepted)
  }

  function ShowMeals(meals: seq<Meal>, accepted: seq<string>): seq<ShownMeal>
  {
    seq(|meals|, j requires 0 <= j < |meals| => ShowMeal(meals[j], accepted))
  }

  /** The days handed to the day sections, each recipe marked by membership in the accepted list. */
  function Display(view: Plan, accepted: seq<string>): seq<ShownDay>
  {
    seq(|view|, k requires 0 <= k < |view| => ShownDay(view[k].day, ShowMeals(view[k].meals, accepted)))
  }

  /** Every meal of the restricted plan holds a recipe of the plan. */
  lemma RestrictShowsPlanRecipes(p: Plan, selectedDay: string, selectedMealType: string)
    ensures forall k, j ::
      (0 <= k < |Restrict(p, selectedDay, selectedMealType)| &&
       0 <= j < |Restrict(p, selectedDay, selectedMealType)[k].meals|) ==>
      InPlan(p, Restrict(p, selectedDay, selectedMealType)[k].meals[j].recipeId)
  {
    var view := Restrict(p, selectedDay, selectedMealType);
    RestrictSound(p, selectedDay, selectedMealType);
    forall k, j | 0 <= k < |view| && 0 <= j < |view[k].meals| ensures InPlan(p, view[k].meals[j].recipeId) {
      var meal := view[k].meals[j];
      assert view[k] in view;
      var i :| 0 <= i < |p| && p[i].day == view[k].day && view[k].meals == FilterMeals(p[i].meals, selectedMealType);
      FilterMealsCorrect(p[i].meals, selectedMealType);
      assert meal in view[k].meals;
      assert meal in p[i].meals;
      var jj :| 0 <= jj < |p[i].meals| && p[i].meals[jj] == meal;
    }
  }

  /**
   * Once the accepted list holds every id of the plan, every recipe shown under any
   * filter is marked selected: the filter only ever shows meals of the plan.
   */
  lemma AcceptAllSelectsEveryShown(p: Plan, selectedDay: string, selectedMealType: string)
    ensures forall d, m :: d in Display(Restrict(p, selectedDay, selectedMealType), AllRecipeIds(p)) && m in d.meals ==>
      m.isSelected
  {
    var view := Restrict(p, selectedDay, selectedMealType);
    var shown := Display(view, AllRecipeIds(p));
    RestrictShowsPlanRecipes(p, selectedDay, selectedMealType);
    AllRecipeIdsExact(p);
    forall d, m | d in shown && m in d.meals ensures m.isSelected {
      var k :| 0 <= k < |shown| && shown[k] == d;
      var j :| 0 <= j < |d.meals| && d.meals[j] == m;
      assert m.recipeId == view[k].meals[j].recipeId;
    }
  }

  /** The recipe-suggestions page: its filter selections and its accepted-recipe list over a fixed plan. */
  class RecipeSuggestionsPage {
    /** The plan; its setter is never called, so it is fixed for the page's lifetime. */
    const recipes: Plan
    var selectedMealType: string
    var selectedDay: string
    var acceptedRecipes: seq<string>

    /** The plan is a JavaScript object's entries, so its days are distinct. */
    ghost predicate Valid()
      reads this
    {
      DistinctDays(recipes)
    }

    constructor (plan: Plan)
      requires DistinctDays(plan)
      ensures Valid() && recipes == plan
      ensures selectedMealType == All && selectedDay == All && acceptedRecipes == []
    {
      recipes := plan;
      selectedMealType := All;
      selectedDay := All;
      acceptedRecipes := [];
    }

    /** The `isSelected` flag of a recipe with this id. */
    function IsSelected(recipeId: string): bool
      reads this
    {
      recipeId in acceptedRecipes
    }

    /** The filtered plan the page currently shows. */
    function FilteredRecipes(): Plan
      reads this
    {
      Restrict(recipes, selectedDay, selectedMealType)
    }

    /** Compute what the day sections receive: the filtered plan, each recipe with its flag. */
    method Shown() returns (days: seq<ShownDay>)
      requires Valid()
      ensures days == Display(FilteredRecipes(), acceptedRecipes)
    {
      var filteredRecipes := FilterRecipes(recipes, selectedDay, selectedMealType);
      days := Display(filteredRecipes, acceptedRecipes);
    }

    method SetSelectedMealType(mealType: string)
      modifies this`selectedMealType
      ensures selectedMealType == mealType
    {
      selectedMealType := mealType;
    }

    method SetSelectedDay(day: string)
      modifies this`selectedDay
      ensures selectedDay == day
    {
      selectedDay := day;
    }

    /** Append the id; it becomes selected and no other id's selection changes. */
    method HandleAccept(recipeId: string)
      modifies this`acceptedRecipes
      ensures acceptedRecipes == old(acceptedRecipes) + [recipeId]
      ensures IsSelected(recipeId)
      ensures forall id :: id != recipeId ==> IsSelected(id) == old(IsSelected(id))
    {
      acceptedRecipes := acceptedRecipes + [recipeId];
    }

    /** Replace the list by every id of the plan; afterwards exactly the plan's recipes are selected. */
    method HandleAcceptAll()
      modifies this`acceptedRecipes
      ensures acceptedRecipes == AllRecipeIds(recipes)
      ensures forall id :: IsSelected(id) <==> InPlan(recipes, id)
    {
      var allRecipeIds := AllRecipeIds(recipes);
      AllRecipeIdsExact(recipes);
      acceptedRecipes := allRecipeIds;
    }

    /** Empty the list; afterwards no recipe is selected. */
    method HandleReset()
      modifies this`acceptedRecipes
      ensures acceptedRecipes == []
      ensures forall id :: !IsSelected(id)
    {
      acceptedRecipes := [];
    }

    /** Rejecting only logs a request for a replacement: no state changes. */
    method HandleReject(recipeId: string)
      ensures unchanged(this)
    {
    }

    /** Viewing only logs the id: no state changes. */
    method HandleView(recipeId: string)
      ensures unchanged(this)
    {
    }
  }
}
