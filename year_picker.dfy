/**
 * The year picker: a button showing the selected year and, while open, a
 * list of the years from the end year down to the start year, the selected
 * one highlighted. The current year is a parameter.
 */
module YearPicker {
  const DEFAULT_START_YEAR := 2000
  const DEFAULT_YEARS_AHEAD := 10

  /** `new Date().getFullYear() + 10`, for the current year given. */
  function DefaultEndYear(currentYear: int): (y: int)
    ensures y - currentYear == DEFAULT_YEARS_AHEAD
  {
    currentYear + DEFAULT_YEARS_AHEAD
  }

  /** `Array.from({ length }, (_, i) => start + i)`; a negative length makes
      an empty array. */
  function Ascending(start: int, length: int): (r: seq<int>)
    ensures |r| == if length > 0 then length else 0
    ensures forall i :: 0 <= i < |r| ==> r[i] == start + i
  {
    if length <= 0 then [] else Ascending(start, length - 1) + [start + length - 1]
  }

  /** `reverse()`. */
  function Reverse(s: seq<int>): (r: seq<int>)
    ensures |r| == |s|
    ensures forall i :: 0 <= i < |s| ==> r[i] == s[|s| - 1 - i]
  {
    if s == [] then [] else [s[|s| - 1]] + Reverse(s[..|s| - 1])
  }

  /** The offered years run from `endYear` down to `startYear`, one step at
      a time; there are none when `endYear < startYear`. */
  function Years(startYear: int, endYear: int): (r: seq<int>)
    ensures |r| == if endYear >= startYear then endYear - startYear + 1 else 0
    ensures forall i :: 0 <= i < |r| ==> r[i] == endYear - i
    ensures forall i, j :: 0 <= i < j < |r| ==> r[i] > r[j]
  {
    Reverse(Ascending(startYear, endYear - startYear + 1))
  }

  /** Every year of the range is offered, and only those. */
  lemma YearsMembership(startYear: int, endYear: int, y: int)
    ensures y in Years(startYear, endYear) <==> startYear <= y <= endYear
  {
    var years := Years(startYear, endYear);
    if startYear <= y <= endYear {
      assert years[endYear - y] == y;
    }
  }

  /** `year === selectedYear` picks the highlighted entry. */
  predicate Highlighted(year: int, selectedYear: int) {
    year == selectedYear
  }

  /** Exactly one entry is highlighted when the selected year is in range,
      and none otherwise. */
  lemma HighlightOnce(startYear: int, endYear: int, selectedYear: int)
    ensures forall i, j ::
              (&& 0 <= i < |Years(startYear, endYear)| && 0 <= j < |Years(startYear, endYear)|
               && Highlighted(Years(startYear, endYear)[i], selectedYear)
               && Highlighted(Years(startYear, endYear)[j], selectedYear)) ==> i == j
    ensures (exists i :: 0 <= i < |Years(startYear, endYear)| && Highlighted(Years(startYear, endYear)[i], selectedYear))
            <==> startYear <= selectedYear <= endYear
  {
    YearsMembership(startYear, endYear, selectedYear);
  }

  class YearPickerState {
    var isOpen: bool

    constructor ()
      ensures !isOpen
    {
      isOpen := false;
    }

    /** The `mousedown` listener is registered only while the list is open. */
    function ListenerActive(): (b: bool)
      reads this
      ensures b <==> isOpen
    {
      isOpen
    }

    /** The button flips the list open or closed. */
    method Toggle()
      modifies this
      ensures isOpen == !old(isOpen)
    {
      isOpen := !isOpen;
    }

    /** Choosing a year reports it to the caller and closes the list. */
    method HandleYearSelect(year: int) returns (reported: int)
      modifies this
      ensures reported == year
      ensures !isOpen
    {
      reported := year;
      isOpen := false;
    }

    /** A `mousedown`: the active listener closes the list when the target is
        outside the picker; otherwise nothing changes. */
    method HandleMouseDown(insidePicker: bool)
      modifies this
      ensures old(ListenerActive()) && !insidePicker ==> !isOpen
      ensures !(old(ListenerActive()) && !insidePicker) ==> isOpen == old(isOpen)
    {
      if ListenerActive() && !insidePicker {
        isOpen := false;
      }
    }
  }

  /** Toggling twice restores the list's state. */
  method ToggleTwice(picker: YearPickerState)
    modifies picker
    ensures picker.isOpen == old(picker.isOpen)
  {
    picker.Toggle();
    picker.Toggle();
  }
}
