/**
 * The skill-search page: a trimmed search text and a country select the
 * related-skills answer, which is shown as a pie of the top twenty skills with
 * an "Other" slice for the rest of the postings, a market-demand label and a
 * ranked list.
 */
module SearchSkills {
  import opened Text
  import opened Data
  import Analyze

  const TOP_SLICE := 20
  const LEGEND_MAX := 20
  const SEARCH_LIMIT := 15
  const OTHER_LABEL: string := "Other"
  const OTHER_FILL: string := "#9ca3af"

  /** The twenty slice colours, used in turn. */
  const COLORS: seq<string> := [
    "#3b82f6", "#06b6d4", "#8b5cf6", "#ec4899", "#10b981",
    "#f59e0b", "#ef4444", "#6366f1", "#14b8a6", "#f97316",
    "#8b5a3c", "#7c3aed", "#dc2626", "#059669", "#2563eb",
    "#7c2d12", "#991b1b", "#166534", "#1e40af", "#92400e"
  ]

  type Response = Option<Envelope<SkillStatistics>>

  predicate HasData(response: Response) {
    response.Some? && response.value.data.Some?
  }

  /** The request: the search text goes out as the job title. */
  function SkillSearchUrl(skillName: string, country: string): string
  {
    Analyze.SkillsByJobAndCountryUrl(country, skillName, SEARCH_LIMIT)
  }

  /** `top_skills.slice(0, 20) || []`. */
  function TopSkills(response: Response): (r: seq<TopSkill>)
    ensures |r| <= TOP_SLICE
    ensures HasData(response) ==> |r| <= |response.value.data.value.top_skills|
    ensures HasData(response) ==> r == response.value.data.value.top_skills[..|r|]
    ensures HasData(response) ==> |r| == Min(TOP_SLICE, |response.value.data.value.top_skills|)
    ensures !HasData(response) ==> r == []
  {
    if HasData(response) then Take(response.value.data.value.top_skills, TOP_SLICE) else []
  }

  function SumFrequency(s: seq<TopSkill>): int
  {
    if s == [] then 0 else SumFrequency(s[..|s| - 1]) + s[|s| - 1].frequency
  }

  /** `total_jobs || 1`. */
  function TotalFrequency(response: Response): (n: int)
    ensures HasData(response) && response.value.data.value.total_jobs != 0 ==> n == response.value.data.value.total_jobs
    ensures !(HasData(response) && response.value.data.value.total_jobs != 0) ==> n == 1
  {
    if HasData(response) && response.value.data.value.total_jobs != 0 then response.value.data.value.total_jobs else 1
  }

  /** `Math.max(0, totalFrequency - totalTopFrequency)`: the postings the
      top skills do not account for, never negative. */
  function OtherFrequency(response: Response): (n: int)
    ensures n >= 0
    ensures n == 0 <==> SumFrequency(TopSkills(response)) >= TotalFrequency(response)
    ensures n > 0 ==> SumFrequency(TopSkills(response)) + n == TotalFrequency(response)
  {
    var rest := TotalFrequency(response) - SumFrequency(TopSkills(response));
    if rest > 0 then rest else 0
  }

  /** The pie data: a copy of the top skills with an "Other" entry pushed
      when some postings are left over. */
  method PieData(response: Response) returns (result: seq<TopSkill>)
    ensures |result| <= TOP_SLICE + 1
    ensures |result| == |TopSkills(response)| + (if OtherFrequency(response) > 0 then 1 else 0)
    ensures result[..|TopSkills(response)|] == TopSkills(response)
    ensures OtherFrequency(response) > 0 ==> result[|result| - 1] == TopSkill(OTHER_LABEL, OtherFrequency(response))
  {
    var topSkills := TopSkills(response);
    var otherFrequency := OtherFrequency(response);
    result := topSkills;
    if otherFrequency > 0 {
      result := result + [TopSkill(OTHER_LABEL, otherFrequency)];
    }
  }

  /** The grey of "Other" is not one of the palette colours. */
  lemma OtherFillNotInPalette()
    ensures forall k :: 0 <= k < |COLORS| ==> COLORS[k] != OTHER_FILL
  {
  }

  /** `colors[index % colors.length]`. */
  function SliceColor(index: nat): (c: string)
    ensures c == COLORS[index % |COLORS|]
    ensures c != OTHER_FILL
  {
    OtherFillNotInPalette();
    COLORS[index % |COLORS|]
  }

  /** The cell fills: one per top skill in turn through the palette, then the
      grey "Other" cell when there is an "Other" entry. */
  method PieCells(response: Response) returns (fills: seq<string>)
    ensures |fills| == |TopSkills(response)| + (if OtherFrequency(response) > 0 then 1 else 0)
    ensures forall i :: 0 <= i < |TopSkills(response)| ==> fills[i] == SliceColor(i)
    ensures forall i :: 0 <= i < |fills| ==> (fills[i] == OTHER_FILL <==> i == |TopSkills(response)|)
  {
    var topSkills := TopSkills(response);
    var otherFrequency := OtherFrequency(response);
    fills := [];
    var i := 0;
    while i < |topSkills|
      invariant 0 <= i <= |topSkills|
      invariant |fills| == i
      invariant forall k :: 0 <= k < i ==> fills[k] == SliceColor(k)
    {
      fills := fills + [SliceColor(i)];
      i := i + 1;
    }
    assert forall k :: 0 <= k < |fills| ==> fills[k] != OTHER_FILL;
    if otherFrequency > 0 {
      ghost var colored := fills;
      fills := fills + [OTHER_FILL];
      assert forall k :: 0 <= k < |colored| ==> fills[k] == colored[k];
    }
  }

  datatype Demand = High | Medium | Low

  /** The market-demand label of the top skill's frequency; without a top
      skill the comparisons fail and the label is "Low". */
  function DemandLabel(topSkills: seq<TopSkill>): (d: Demand)
    ensures topSkills == [] ==> d == Low
    ensures topSkills != [] ==> (d == High <==> topSkills[0].frequency > 100)
    ensures topSkills != [] ==> (d == Medium <==> 50 < topSkills[0].frequency <= 100)
    ensures topSkills != [] ==> (d == Low <==> topSkills[0].frequency <= 50)
  {
    if topSkills != [] && topSkills[0].frequency > 100 then High
    else if topSkills != [] && topSkills[0].frequency > 50 then Medium
    else Low
  }

  function DemandRank(d: Demand): nat {
    match d
    case Low => 0
    case Medium => 1
    case High => 2
  }

  /** A more frequent top skill never gets a lower demand label. */
  lemma DemandMonotone(a: TopSkill, b: TopSkill)
    requires a.frequency <= b.frequency
    ensures DemandRank(DemandLabel([a])) <= DemandRank(DemandLabel([b]))
  {
  }

  /** The legend text rule: more than 20 characters are cut to 20 plus "...". */
  function LegendLabel(value: string): (r: string)
    ensures |value| <= LEGEND_MAX ==> r == value
    ensures |value| > LEGEND_MAX ==> r == value[..LEGEND_MAX] + "..."
  {
    Truncate(value, LEGEND_MAX)
  }

  datatype View = PageLoading | SearchLoading | Prompt | NoResults | Results

  /** The countries load first, then the search; with no text the prompt is
      shown; an empty `top_skills` shows the empty state; otherwise the results. */
  function SearchView(countriesLoading: bool, searchLoading: bool, skillName: string, response: Response): (v: View)
    ensures v == PageLoading <==> countriesLoading
    ensures v == SearchLoading <==> !countriesLoading && searchLoading
    ensures v == Prompt <==> !countriesLoading && !searchLoading && Trim(skillName) == ""
    ensures v == NoResults <==>
              !countriesLoading && !searchLoading && Trim(skillName) != ""
              && HasData(response) && response.value.data.value.top_skills == []
    ensures v == Results <==>
              !countriesLoading && !searchLoading && Trim(skillName) != ""
              && !(HasData(response) && response.value.data.value.top_skills == [])
  {
    if countriesLoading then PageLoading
    else if searchLoading then SearchLoading
    else if Trim(skillName) == "" then Prompt
    else if HasData(response) && response.value.data.value.top_skills == [] then NoResults
    else Results
  }

  class SearchSkillsState {
    var skillName: string
    var selectedCountry: string

    /** The stored text is always trimmed. */
    ghost predicate Valid()
      reads this
    {
      Trim(skillName) == skillName
    }

    constructor ()
      ensures Valid()
      ensures skillName == "" && selectedCountry == VIET_NAM
    {
      skillName := "";
      selectedCountry := VIET_NAM;
    }

    /** Every keystroke stores the trimmed text. */
    method HandleSkillChange(value: string)
      modifies this
      requires Valid()
      ensures Valid()
      ensures skillName == Trim(value) && selectedCountry == old(selectedCountry)
    {
      TrimIdempotent(value);
      skillName := Trim(value);
    }

    method HandleCountryChange(value: string)
      modifies this
      requires Valid()
      ensures Valid()
      ensures selectedCountry == value && skillName == old(skillName)
    {
      selectedCountry := value;
    }

    /** The search runs for a non-empty debounced text and a chosen country. */
    function SearchEnabled(debounced: string): (b: bool)
      reads this
      ensures b <==> debounced != "" && selectedCountry != ""
    {
      var fields := [debounced, selectedCountry];
      assert fields[0] == debounced && fields[1] == selectedCountry;
      Enabled(fields)
    }

    /** Because the text is stored trimmed, the prompt shows exactly when it
        is empty. */
    lemma PromptIffEmpty(response: Response)
      requires Valid()
      ensures SearchView(false, false, skillName, response) == Prompt <==> skillName == ""
    {
    }
  }

  // Typing into the controlled input: `value={skillName}` shows the stored
  // text, a keystroke appends one character to it, and `handleSkillChange`
  // stores the trim of the result.

  /** The stored text after typing `keys` one character at a time. */
  function TypeKeys(stored: string, keys: string): string
    decreases |keys|
  {
    if keys == [] then stored else TypeKeys(Trim(stored + [keys[0]]), keys[1..])
  }

  /** The characters of `s` that are not whitespace, in order. */
  function NonWhitespace(s: string): (r: string)
    ensures |r| <= |s|
    ensures forall k :: 0 <= k < |r| ==> !IsWhitespace(r[k])
  {
    if s == [] then []
    else if IsWhitespace(s[0]) then NonWhitespace(s[1..])
    else [s[0]] + NonWhitespace(s[1..])
  }

  /** Text without whitespace is left alone by `trim`. */
  lemma TrimNoWhitespace(s: string)
    requires forall k :: 0 <= k < |s| ==> !IsWhitespace(s[k])
    ensures Trim(s) == s
  {
    if |s| > 0 {
      assert !IsWhitespace(s[0]) && !IsWhitespace(s[|s| - 1]);
    }
  }

  /** A whitespace keystroke after text without whitespace is trimmed away. */
  lemma TrimTypedWhitespace(s: string, c: char)
    requires forall k :: 0 <= k < |s| ==> !IsWhitespace(s[k])
    requires IsWhitespace(c)
    ensures Trim(s + [c]) == s
  {
    var u := s + [c];
    if s == [] {
      assert u[1..] == [];
    } else {
      assert !IsWhitespace(u[0]) && IsWhitespace(u[|u| - 1]);
      assert u[..|u| - 1] == s;
      TrimNoWhitespace(s);
    }
  }

  /** Typing left to right at the end of the field keeps exactly the keys that
      are not whitespace, so "Software Engineer" typed key by key is stored as
      "SoftwareEngineer". */
  lemma {:induction false} TypingDropsWhitespace(stored: string, keys: string)
    requires forall k :: 0 <= k < |stored| ==> !IsWhitespace(stored[k])
    ensures TypeKeys(stored, keys) == stored + NonWhitespace(keys)
    decreases |keys|
  {
    if keys != [] {
      var c := keys[0];
      if IsWhitespace(c) {
        TrimTypedWhitespace(stored, c);
        TypingDropsWhitespace(stored, keys[1..]);
      } else {
        var next := stored + [c];
        assert forall k :: 0 <= k < |next| ==> !IsWhitespace(next[k]);
        TrimNoWhitespace(next);
        TypingDropsWhitespace(next, keys[1..]);
        assert next + NonWhitespace(keys[1..]) == stored + ([c] + NonWhitespace(keys[1..]));
      }
    }
  }

  /** Text typed left to right at the end of an empty field never contains a
      space. */
  lemma TypedTextHasNoSpace(keys: string)
    ensures ' ' !in TypeKeys("", keys)
  {
    TypingDropsWhitespace("", keys);
  }

  /** One keystroke with the caret at `pos` (0 is before the first character):
      the changed value is trimmed and stored. */
  function InsertKey(stored: string, pos: nat, c: char): string
    requires pos <= |stored|
  {
    Trim(stored[..pos] + [c] + stored[pos..])
  }

  /** A key typed between the first and the last character of text that
      starts and ends with non-whitespace is kept, a space included: only
      keys typed at either end of the field are trimmed away. */
  lemma InsideKeySurvives(stored: string, pos: nat, c: char)
    requires 0 < pos < |stored|
    requires !IsWhitespace(stored[0]) && !IsWhitespace(stored[|stored| - 1])
    ensures InsertKey(stored, pos, c) == stored[..pos] + [c] + stored[pos..]
  {
    var u := stored[..pos] + [c] + stored[pos..];
    assert u[0] == stored[0] && u[|u| - 1] == stored[|stored| - 1];
  }

  /** The same keystrokes with the raw value stored, to be trimmed only when
      the query is built: the text is kept as typed. */
  function TypeRaw(stored: string, keys: string): string
    decreases |keys|
  {
    if keys == [] then stored else TypeRaw(stored + [keys[0]], keys[1..])
  }

  lemma {:induction false} RawTypingKeepsText(stored: string, keys: string)
    ensures TypeRaw(stored, keys) == stored + keys
    decreases |keys|
  {
    if keys != [] {
      RawTypingKeepsText(stored + [keys[0]], keys[1..]);
      assert stored + [keys[0]] + keys[1..] == stored + keys;
    }
  }
}
