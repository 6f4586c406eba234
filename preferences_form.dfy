/**
 * The preferences form: a draft record with documented defaults, pointwise field
 * setters, a reset to the defaults, and a checkbox toggle on the three
 * list-valued fields.
 */
module Preferences {
  import opened Sequences

  /** The form's `formData` record. Numbers are modelled as integers. */
  datatype FormData = FormData(
    goal: string,
    dietaryRestrictions: seq<string>,
    adults: int,
    kids: int,
    cookingTime: int,
    calorieTarget: int,
    allergies: seq<string>,
    cuisinePreferences: seq<string>,
    budget: int,
    deliveryDay: string)

  /** The draft the form starts with, and the one Reset Form restores. */
  const InitialFormData: FormData := FormData(
    goal := "",
    dietaryRestrictions := [],
    adults := 2,
    kids := 0,
    cookingTime := 30,
    calorieTarget := 2000,
    allergies := [],
    cuisinePreferences := [],
    budget := 150,
    deliveryDay := "monday")

  /** The `category` names the checkbox groups pass to the toggle. */
  datatype ListField = DietaryRestrictions | Allergies | CuisinePreferences

  /** The list field a checkbox group edits. */
  function Get(d: FormData, field: ListField): seq<string>
  {
    match field
    case DietaryRestrictions => d.dietaryRestrictions
    case Allergies => d.allergies
    case CuisinePreferences => d.cuisinePreferences
  }

  /** The draft with one list field replaced and every other field kept. */
  function Put(d: FormData, field: ListField, list: seq<string>): FormData
  {
    match field
    case DietaryRestrictions => d.(dietaryRestrictions := list)
    case Allergies => d.(allergies := list)
    case CuisinePreferences => d.(cuisinePreferences := list)
  }

  /** The list with every occurrence of `value` removed. */
  function Without(list: seq<string>, value: string): seq<string>
  {
    Filter(list, item => item != value)
  }

  /** The checkbox toggle of `handleCheckboxChange`: a present value is removed everywhere, an absent one appended. */
  function Toggle(list: seq<string>, value: string): seq<string>
  {
    if value in list then Without(list, value) else list + [value]
  }

  /** The new draft after `handleCheckboxChange(category, value)`. */
  function CheckboxChanged(d: FormData, field: ListField, value: string): FormData
  {
    Put(d, field, Toggle(Get(d, field), value))
  }

  /** Removing a value drops every occurrence of it and keeps everything else, in order. */
  lemma WithoutCorrect(list: seq<string>, value: string)
    ensures value !in Without(list, value)
    ensures forall x :: x != value ==> (x in Without(list, value) <==> x in list)
    ensures IsSubsequence(Without(list, value), list)
    ensures value !in list ==> Without(list, value) == list
    ensures multiset(Without(list, value)) == multiset(list)[value := 0]
  {
    FilterMembers(list, item => item != value);
    forall v {
      FilterMultiset(list, item => item != value, v);
    }
    FilterIsSubsequence(list, item => item != value);
    if value !in list {
      FilterKeepsAll(list, item => item != value);
    }
  }

  /**
   * The toggle flips the toggled value's membership and no other: an absent value is
   * appended at the end, a present one loses every occurrence.
   */
  lemma ToggleMembership(list: seq<string>, value: string)
    ensures value !in list ==> Toggle(list, value) == list + [value]
    ensures value in Toggle(list, value) <==> value !in list
    ensures forall x :: x != value ==> (x in Toggle(list, value) <==> x in list)
  {
    WithoutCorrect(list, value);
  }

  /** Toggling an absent value twice gives back the very same list. */
  lemma ToggleTwiceAbsent(list: seq<string>, value: string)
    requires value !in list
    ensures Toggle(Toggle(list, value), value) == list
  {
    var once := list + [value];
    assert value in once;
    FilterSnoc(list, value, item => item != value);
    WithoutCorrect(list, value);
  }

  /** Toggling any value twice restores which values are members. */
  lemma ToggleTwiceMembers(list: seq<string>, value: string)
    ensures forall x :: x in Toggle(Toggle(list, value), value) <==> x in list
  {
    ToggleMembership(list, value);
    ToggleMembership(Toggle(list, value), value);
  }

  /** A duplicate-free list stays duplicate-free under a toggle. */
  lemma ToggleNoDuplicates(list: seq<string>, value: string)
    requires NoDuplicates(list)
    ensures NoDuplicates(Toggle(list, value))
  {
    if value in list {
      FilterNoDuplicates(list, item => item != value);
    } else {
      var r := list + [value];
      forall i, j | 0 <= i < j < |r| ensures r[i] != r[j] {
        if j == |list| {
          assert r[i] == list[i];
        }
      }
    }
  }

  /** A toggle changes only the named list: putting the old list back gives the old draft. */
  lemma CheckboxChangedOnlyField(d: FormData, field: ListField, value: string)
    ensures Get(CheckboxChanged(d, field, value), field) == Toggle(Get(d, field), value)
    ensures Put(CheckboxChanged(d, field, value), field, Get(d, field)) == d
    ensures forall other :: other != field ==> Get(CheckboxChanged(d, field, value), other) == Get(d, other)
  {
  }

  /** The form's draft state. */
  class PreferencesForm {
    var formData: FormData

    constructor ()
      ensures formData == InitialFormData
    {
      formData := InitialFormData;
    }

    /** Reset Form: back to the initial draft, whatever the state. */
    method HandleReset()
      modifies this
      ensures formData == InitialFormData
    {
      formData := InitialFormData;
    }

    method HandleCheckboxChange(field: ListField, value: string)
      modifies this
      ensures formData == CheckboxChanged(old(formData), field, value)
    {
      formData := CheckboxChanged(formData, field, value);
    }

    method SetGoal(goal: string)
      modifies this
      ensures formData == old(formData).(goal := goal)
    {
      formData := formData.(goal := goal);
    }

    method SetAdults(adults: int)
      modifies this
      ensures formData == old(formData).(adults := adults)
    {
      formData := formData.(adults := adults);
    }

    method SetKids(kids: int)
      modifies this
      ensures formData == old(formData).(kids := kids)
    {
      formData := formData.(kids := kids);
    }

    method SetCookingTime(cookingTime: int)
      modifies this
      ensures formData == old(formData).(cookingTime := cookingTime)
    {
      formData := formData.(cookingTime := cookingTime);
    }

    method SetCalorieTarget(calorieTarget: int)
      modifies this
      ensures formData == old(formData).(calorieTarget := calorieTarget)
    {
      formData := formData.(calorieTarget := calorieTarget);
    }

    method SetBudget(budget: int)
      modifies this
      ensures formData == old(formData).(budget := budget)
    {
      formData := formData.(budget := budget);
    }

    method SetDeliveryDay(day: string)
      modifies this
      ensures formData == old(formData).(deliveryDay := day)
    {
      formData := formData.(deliveryDay := day);
    }
  }
}
