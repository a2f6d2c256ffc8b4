/**
 * The exercise picker: the loaded library is narrowed by excluded ids, a search
 * query, muscle groups, equipment, categories and the favourite/custom flags.
 *
 * The picker's state is a class; loading from the exercise service is the
 * `Load` method with the loaded list as its argument. A filter list that is
 * absent behaves like an empty one, and an absent flag like `false`, so the
 * filter holds plain lists and booleans.
 */
module ExerciseSelector {
  import opened Common
  import opened Seqs
  import opened Text

  datatype LibraryExercise = LibraryExercise(
    id: string,
    name: string,
    description: string,
    alternativeNames: seq<string>,
    primaryMuscles: seq<string>,
    secondaryMuscles: seq<string>,
    equipment: seq<string>,
    category: string,
    isFavorite: bool,
    isCustom: bool)

  datatype ExerciseFilter = ExerciseFilter(
    muscleGroups: seq<string>,
    equipment: seq<string>,
    categories: seq<string>,
    favorites: bool,
    custom: bool)

  /** `{}`: no filter set. */
  const NoFilter: ExerciseFilter := ExerciseFilter([], [], [], false, false)

  // ---------------------------------------------------------------------------
  // The individual tests

  predicate NotExcluded(excluded: seq<string>, e: LibraryExercise)
  {
    e.id !in excluded
  }

  /** The lower-cased name, description or some alternative name contains the query. */
  predicate MatchesQuery(query: string, e: LibraryExercise)
  {
    || Contains(Lower(e.name), query)
    || Contains(Lower(e.description), query)
    || exists k :: 0 <= k < |e.alternativeNames| && Contains(Lower(e.alternativeNames[k]), query)
  }

  /** Some selected group is among the primary or secondary muscles. */
  predicate InMuscleGroups(groups: seq<string>, e: LibraryExercise)
  {
    exists k :: 0 <= k < |groups| && (groups[k] in e.primaryMuscles || groups[k] in e.secondaryMuscles)
  }

  predicate UsesEquipment(equipment: seq<string>, e: LibraryExercise)
  {
    exists k :: 0 <= k < |equipment| && equipment[k] in e.equipment
  }

  /** The query `searchQuery.toLowerCase().trim()`, used when `searchQuery.trim()` is not empty. */
  function Query(searchQuery: string): string
  {
    Trim(Lower(searchQuery))
  }

  /** Whether an exercise passes every active filter; an inactive filter passes everything. */
  predicate Passes(f: ExerciseFilter, searchQuery: string, excluded: seq<string>, e: LibraryExercise)
  {
    && (|excluded| > 0 ==> NotExcluded(excluded, e))
    && (Trim(searchQuery) != "" ==> MatchesQuery(Query(searchQuery), e))
    && (|f.muscleGroups| > 0 ==> InMuscleGroups(f.muscleGroups, e))
    && (|f.equipment| > 0 ==> UsesEquipment(f.equipment, e))
    && (|f.categories| > 0 ==> e.category in f.categories)
    && (f.favorites ==> e.isFavorite)
    && (f.custom ==> e.isCustom)
  }

  function Matches(f: ExerciseFilter, searchQuery: string, excluded: seq<string>): LibraryExercise -> bool
  {
    (e: LibraryExercise) => Passes(f, searchQuery, excluded, e)
  }

  // ---------------------------------------------------------------------------
  // The filter chain, one stage at a time

  function Everything(): LibraryExercise -> bool { (e: LibraryExercise) => true }

  function And(p: LibraryExercise -> bool, q: LibraryExercise -> bool): LibraryExercise -> bool
  {
    (e: LibraryExercise) => p(e) && q(e)
  }

  /** A stage's test, passing everything when the stage is inactive. */
  function Gate(active: bool, p: LibraryExercise -> bool): LibraryExercise -> bool
  {
    (e: LibraryExercise) => !active || p(e)
  }

  /** Running one more stage of the chain is filtering the original list by one more test. */
  lemma Stage(all: seq<LibraryExercise>, acc: LibraryExercise -> bool, filtered: seq<LibraryExercise>,
              active: bool, p: LibraryExercise -> bool)
    requires filtered == Filter(all, acc)
    ensures (if active then Filter(filtered, p) else filtered) == Filter(all, And(acc, Gate(active, p)))
  {
    FilterFilterInto(all, acc, Gate(active, p), And(acc, Gate(active, p)));
    if active {
      FilterCongruent(filtered, p, Gate(active, p));
    } else {
      FilterAll(filtered, Gate(active, p));
    }
  }

  function NotExcludedTest(excluded: seq<string>): LibraryExercise -> bool
  {
    (e: LibraryExercise) => NotExcluded(excluded, e)
  }

  function QueryTest(query: string): LibraryExercise -> bool
  {
    (e: LibraryExercise) => MatchesQuery(query, e)
  }

  function MuscleTest(groups: seq<string>): LibraryExercise -> bool
  {
    (e: LibraryExercise) => InMuscleGroups(groups, e)
  }

  function EquipmentTest(equipment: seq<string>): LibraryExercise -> bool
  {
    (e: LibraryExercise) => UsesEquipment(equipment, e)
  }

  function CategoryTest(categories: seq<string>): LibraryExercise -> bool
  {
    (e: LibraryExercise) => e.category in categories
  }

  function FavoriteTest(): LibraryExercise -> bool { (e: LibraryExercise) => e.isFavorite }

  function CustomTest(): LibraryExercise -> bool { (e: LibraryExercise) => e.isCustom }

  /** `prevFilter` with the muscle group removed when present and appended when absent. */
  function Toggled(f: ExerciseFilter, group: string): ExerciseFilter
  {
    f.(muscleGroups := Toggle(f.muscleGroups, group))
  }

  /**
   * Toggling flips whether the group is selected, keeps every other group's
   * selection, and leaves the other filter fields unchanged.
   */
  lemma ToggledSpec(f: ExerciseFilter, group: string, other: string)
    requires other != group
    ensures group in Toggled(f, group).muscleGroups <==> group !in f.muscleGroups
    ensures other in Toggled(f, group).muscleGroups <==> other in f.muscleGroups
    ensures Toggled(f, group).(muscleGroups := f.muscleGroups) == f
  {
    if other in f.muscleGroups {
      var i :| 0 <= i < |f.muscleGroups| && f.muscleGroups[i] == other;
    }
  }

  /** Toggling an unselected group twice restores the filter. */
  lemma ToggledTwice(f: ExerciseFilter, group: string)
    requires group !in f.muscleGroups
    ensures Toggled(Toggled(f, group), group) == f
  {
    ToggleTwice(f.muscleGroups, group);
  }

  /**
   * The filtered list keeps the order of the library, contains no excluded id,
   * and holds exactly the library exercises that pass every active filter.
   */
  lemma FilteredSpec(all: seq<LibraryExercise>, f: ExerciseFilter, searchQuery: string, excluded: seq<string>,
                     e: LibraryExercise)
    ensures IsSubsequence(Filter(all, Matches(f, searchQuery, excluded)), all)
    ensures forall i :: 0 <= i < |Filter(all, Matches(f, searchQuery, excluded))| ==>
      Filter(all, Matches(f, searchQuery, excluded))[i].id !in excluded
    ensures e in Filter(all, Matches(f, searchQuery, excluded)) <==> e in all && Passes(f, searchQuery, excluded, e)
  {
    FilterIsSubsequence(all, Matches(f, searchQuery, excluded));
    FilterMember(all, Matches(f, searchQuery, excluded), e);
  }

  /** A blank query and an empty filter constrain nothing but the excluded ids. */
  lemma NoFilterKeepsAllButExcluded(all: seq<LibraryExercise>, searchQuery: string, excluded: seq<string>)
    requires Trim(searchQuery) == ""
    ensures Filter(all, Matches(NoFilter, searchQuery, excluded)) == Filter(all, NotExcludedTest(excluded))
  {
    FilterCongruent(all, Matches(NoFilter, searchQuery, excluded), NotExcludedTest(excluded));
  }

  /** The conjunction the chain builds, stage by stage. */
  function Chain(f: ExerciseFilter, searchQuery: string, excluded: seq<string>): LibraryExercise -> bool
  {
    var a1 := And(Everything(), Gate(|excluded| > 0, NotExcludedTest(excluded)));
    var a2 := And(a1, Gate(Trim(searchQuery) != "", QueryTest(Query(searchQuery))));
    var a3 := And(a2, Gate(|f.muscleGroups| > 0, MuscleTest(f.muscleGroups)));
    var a4 := And(a3, Gate(|f.equipment| > 0, EquipmentTest(f.equipment)));
    var a5 := And(a4, Gate(|f.categories| > 0, CategoryTest(f.categories)));
    var a6 := And(a5, Gate(f.favorites, FavoriteTest()));
    And(a6, Gate(f.custom, CustomTest()))
  }

  lemma ChainMatches(all: seq<LibraryExercise>, f: ExerciseFilter, searchQuery: string, excluded: seq<string>)
    ensures Filter(all, Chain(f, searchQuery, excluded)) == Filter(all, Matches(f, searchQuery, excluded))
  {
    FilterCongruent(all, Chain(f, searchQuery, excluded), Matches(f, searchQuery, excluded));
  }

  /** One `if (active) filtered = filtered.filter(p)` step of the chain. */
  method RunStage(filtered: seq<LibraryExercise>, active: bool, p: LibraryExercise -> bool,
                  ghost all: seq<LibraryExercise>, ghost acc: LibraryExercise -> bool)
    returns (r: seq<LibraryExercise>)
    requires filtered == Filter(all, acc)
    ensures r == Filter(all, And(acc, Gate(active, p)))
  {
    Stage(all, acc, filtered, active, p);
    r := filtered;
    if active {
      r := Filter(filtered, p);
    }
  }

  /** The body of `applyFilters` once exercises are loaded: each active filter in turn. */
  method FilterChain(all: seq<LibraryExercise>, f: ExerciseFilter, searchQuery: string, excluded: seq<string>)
    returns (filtered: seq<LibraryExercise>)
    ensures filtered == Filter(all, Matches(f, searchQuery, excluded))
  {
    filtered := all;
    ghost var acc := Everything();
    FilterAll(all, acc);
    var blank := Trim(searchQuery) == "";
    filtered := RunStage(filtered, |excluded| > 0, NotExcludedTest(excluded), all, acc);
    acc := And(acc, Gate(|excluded| > 0, NotExcludedTest(excluded)));
    filtered := RunStage(filtered, !blank, QueryTest(Query(searchQuery)), all, acc);
    acc := And(acc, Gate(!blank, QueryTest(Query(searchQuery))));
    filtered := RunStage(filtered, |f.muscleGroups| > 0, MuscleTest(f.muscleGroups), all, acc);
    acc := And(acc, Gate(|f.muscleGroups| > 0, MuscleTest(f.muscleGroups)));
    filtered := RunStage(filtered, |f.equipment| > 0, EquipmentTest(f.equipment), all, acc);
    acc := And(acc, Gate(|f.equipment| > 0, EquipmentTest(f.equipment)));
    filtered := RunStage(filtered, |f.categories| > 0, CategoryTest(f.categories), all, acc);
    acc := And(acc, Gate(|f.categories| > 0, CategoryTest(f.categories)));
    filtered := RunStage(filtered, f.favorites, FavoriteTest(), all, acc);
    acc := And(acc, Gate(f.favorites, FavoriteTest()));
    filtered := RunStage(filtered, f.custom, CustomTest(), all, acc);
    acc := And(acc, Gate(f.custom, CustomTest()));
    assert acc == Chain(f, searchQuery, excluded);
    ChainMatches(all, f, searchQuery, excluded);
  }

  class Selector {
    var exercises: seq<LibraryExercise>
    var filteredExercises: seq<LibraryExercise>
    var filter: ExerciseFilter
    var searchQuery: string
    const excludeExerciseIds: seq<string>

    /** A picker with nothing loaded yet. */
    constructor(initialFilter: ExerciseFilter, excludeExerciseIds: seq<string>)
      ensures exercises == [] && filteredExercises == []
      ensures filter == initialFilter && searchQuery == ""
      ensures this.excludeExerciseIds == excludeExerciseIds
    {
      exercises := [];
      filteredExercises := [];
      filter := initialFilter;
      searchQuery := "";
      this.excludeExerciseIds := excludeExerciseIds;
    }

    /** `setExercises` with the list the exercise service returned. */
    method Load(all: seq<LibraryExercise>)
      modifies this
      ensures exercises == all
      ensures filteredExercises == old(filteredExercises) && filter == old(filter) && searchQuery == old(searchQuery)
    {
      exercises := all;
    }

    method SetSearchQuery(query: string)
      modifies this
      ensures searchQuery == query
      ensures exercises == old(exercises) && filteredExercises == old(filteredExercises) && filter == old(filter)
    {
      searchQuery := query;
    }

    /**
     * `applyFilters`: with nothing loaded the previous list stays; otherwise the
     * filtered list becomes the library exercises passing every active filter.
     */
    method ApplyFilters()
      modifies this
      ensures old(exercises) == [] ==> filteredExercises == old(filteredExercises)
      ensures old(exercises) != [] ==>
        filteredExercises == Filter(exercises, Matches(filter, searchQuery, excludeExerciseIds))
      ensures exercises == old(exercises) && filter == old(filter) && searchQuery == old(searchQuery)
    {
      if |exercises| == 0 {
        return;
      }
      var filtered := FilterChain(exercises, filter, searchQuery, excludeExerciseIds);
      filteredExercises := filtered;
    }

    /** `toggleMuscleGroupFilter`. */
    method ToggleMuscleGroup(group: string)
      modifies this
      ensures filter == Toggled(old(filter), group)
      ensures exercises == old(exercises) && filteredExercises == old(filteredExercises) && searchQuery == old(searchQuery)
    {
      if group in filter.muscleGroups {
        filter := filter.(muscleGroups := Remove(filter.muscleGroups, group));
      } else {
        filter := filter.(muscleGroups := filter.muscleGroups + [group]);
      }
    }

    /** `resetFilters`: every filter and the search query are cleared. */
    method ResetFilters()
      modifies this
      ensures filter == NoFilter && searchQuery == ""
      ensures exercises == old(exercises) && filteredExercises == old(filteredExercises)
    {
      filter := NoFilter;
      searchQuery := "";
    }
  }
}
