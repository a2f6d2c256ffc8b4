/**
 * The weekday picker: seven buttons, Sunday first, each toggling its day in
 * the list of selected days.
 */
module DaySelector {
  import opened Seqs

  /** A selectable day: its number (0 is Sunday) and the label shown on the button. */
  datatype Day = Day(value: nat, caption: string)

  /** The first letter of a translated day name, or the empty text for an empty name. */
  function Initial(name: string): (r: string)
    ensures |r| <= 1 && r <= name
    ensures name != [] ==> r == [name[0]]
  {
    if name == [] then [] else name[..1]
  }

  /**
   * The `days` table, built from the seven translated day names, Sunday first.
   * The translations are an input of the model.
   */
  function Days(names: seq<string>): (r: seq<Day>)
    requires |names| == 7
    ensures |r| == 7
    ensures forall i :: 0 <= i < 7 ==> r[i].value == i && r[i].caption == Initial(names[i])
  {
    seq(7, i requires 0 <= i < 7 => Day(i, Initial(names[i])))
  }

  /** The day numbers on offer are exactly 0 to 6, each once, in ascending order. */
  lemma DaysAreTheWeek(names: seq<string>, d: nat)
    requires |names| == 7
    ensures d in Map(Days(names), (x: Day) => x.value) <==> d < 7
    ensures NoDup(Map(Days(names), (x: Day) => x.value))
  {
    var values := Map(Days(names), (x: Day) => x.value);
    if d < 7 {
      assert values[d] == d;
    }
  }

  /** `handleToggleDay`: a selected day is removed, any other day is appended. */
  function ToggleDay(selectedDays: seq<nat>, day: nat): (r: seq<nat>)
    ensures day in r <==> day !in selectedDays
  {
    Toggle(selectedDays, day)
  }

  /** Toggling touches no other day: the remaining days keep their membership and order. */
  lemma ToggleDayKeepsOthers(selectedDays: seq<nat>, day: nat)
    ensures Remove(ToggleDay(selectedDays, day), day) == Remove(selectedDays, day)
    ensures day in selectedDays ==> ToggleDay(selectedDays, day) == Remove(selectedDays, day)
    ensures day !in selectedDays ==> ToggleDay(selectedDays, day) == selectedDays + [day]
  {
    ToggleKeepsOthers(selectedDays, day);
  }

  /** Toggling an unselected day twice restores the selection. */
  lemma ToggleDayTwice(selectedDays: seq<nat>, day: nat)
    requires day !in selectedDays
    ensures ToggleDay(ToggleDay(selectedDays, day), day) == selectedDays
  {
    ToggleTwice(selectedDays, day);
  }

  /** Toggling keeps a duplicate-free selection duplicate-free. */
  lemma ToggleDayNoDup(selectedDays: seq<nat>, day: nat)
    requires NoDup(selectedDays)
    ensures NoDup(ToggleDay(selectedDays, day))
  {
    ToggleNoDup(selectedDays, day);
  }
}
