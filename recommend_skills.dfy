/**
 * The skill-statistics panel: a trimmed job title and a country select the
 * skills most asked for with that title, shown as summary cards with
 * fallbacks, a bar chart of the top ten and a pie of the top eight.
 */
module RecommendSkills {
  import opened Text
  import opened Data
  import Analyze

  const REQUEST_LIMIT := 10
  const BAR_SLICE := 10
  const PIE_SLICE := 8
  const TICK_MAX := 15
  const PIE_LABEL_MAX := 12
  const NO_TITLE: string := "N/A"

  type Response = Option<Envelope<SkillStatistics>>

  predicate HasData(response: Response) {
    response.Some? && response.value.data.Some?
  }

  /** The request for a title and a country. */
  function StatisticsUrl(jobTitle: string, country: string): string
  {
    Analyze.SkillsByJobAndCountryUrl(country, jobTitle, REQUEST_LIMIT)
  }

  /** `!data?.data || data.data?.top_skills.length === 0`. */
  function IsEmpty(response: Response): (b: bool)
    ensures b <==> !HasData(response) || response.value.data.value.top_skills == []
  {
    !HasData(response) || |response.value.data.value.top_skills| == 0
  }

  datatype View = Loading | Empty | Statistics

  function PanelView(isLoading: bool, response: Response): (v: View)
    ensures v == Loading <==> isLoading
    ensures v == Empty <==> !isLoading && IsEmpty(response)
    ensures v == Statistics <==> !isLoading && HasData(response) && response.value.data.value.top_skills != []
  {
    if isLoading then Loading else if IsEmpty(response) then Empty else Statistics
  }

  /** "Unique Skills": `total_unique_skills || top_skills.length || 0`. */
  function UniqueSkillsShown(stats: SkillStatistics): (n: int)
    ensures stats.total_unique_skills != 0 ==> n == stats.total_unique_skills
    ensures stats.total_unique_skills == 0 ==> n == |stats.top_skills|
  {
    if stats.total_unique_skills != 0 then stats.total_unique_skills
    else if |stats.top_skills| != 0 then |stats.top_skills|
    else 0
  }

  /** The title card: the answer's title, else the typed one, else "N/A". */
  function TitleShown(stats: SkillStatistics, jobTitle: string): (t: string)
    ensures stats.job_title != "" ==> t == stats.job_title
    ensures stats.job_title == "" && jobTitle != "" ==> t == jobTitle
    ensures stats.job_title == "" && jobTitle == "" ==> t == NO_TITLE
    ensures t != ""
  {
    if stats.job_title != "" then stats.job_title
    else if jobTitle != "" then jobTitle
    else NO_TITLE
  }

  /** The country card: the answer's country, else the selected one. */
  function CountryShown(stats: SkillStatistics, selectedCountry: string): (c: string)
    ensures stats.country != "" ==> c == stats.country
    ensures stats.country == "" ==> c == selectedCountry
  {
    if stats.country != "" then stats.country else selectedCountry
  }

  /** The bar chart: the first ten skills. */
  function BarData(stats: SkillStatistics): (r: seq<TopSkill>)
    ensures |r| == Min(BAR_SLICE, |stats.top_skills|)
    ensures r == stats.top_skills[..|r|]
  {
    Take(stats.top_skills, BAR_SLICE)
  }

  /** The pie: the first eight skills. */
  function PieData(stats: SkillStatistics): (r: seq<TopSkill>)
    ensures |r| == Min(PIE_SLICE, |stats.top_skills|)
    ensures r == stats.top_skills[..|r|]
  {
    Take(stats.top_skills, PIE_SLICE)
  }

  /** One cell per pie slice, coloured `palette[index % palette.length]`. */
  function PieFills(slices: seq<TopSkill>, palette: seq<string>): (fills: seq<string>)
    requires |palette| > 0
    ensures |fills| == |slices|
    ensures forall i :: 0 <= i < |fills| ==> fills[i] == palette[i % |palette|]
  {
    if slices == [] then []
    else PieFills(slices[..|slices| - 1], palette) + [palette[(|slices| - 1) % |palette|]]
  }

  /** The category-axis tick: more than 15 characters are cut to 15 plus "...". */
  function TickLabel(value: string): (r: string)
    ensures |value| <= TICK_MAX ==> r == value
    ensures |value| > TICK_MAX ==> r == value[..TICK_MAX] + "..."
  {
    Truncate(value, TICK_MAX)
  }

  /** The pie label: the name cut at 12 characters, a space, then the
      percentage text (its float formatting is a parameter here). */
  function PieLabel(skill: string, percentageText: string): (r: string)
    ensures |skill| <= PIE_LABEL_MAX ==> r == skill + " " + percentageText + "%"
    ensures |skill| > PIE_LABEL_MAX ==> r == skill[..PIE_LABEL_MAX] + "... " + percentageText + "%"
  {
    Truncate(skill, PIE_LABEL_MAX) + " " + percentageText + "%"
  }

  class RecommendSkillsState {
    var jobTitle: string
    var selectedCountry: string

    /** The stored title is always trimmed. */
    ghost predicate Valid()
      reads this
    {
      Trim(jobTitle) == jobTitle
    }

    constructor ()
      ensures Valid()
      ensures jobTitle == "" && selectedCountry == VIET_NAM
    {
      jobTitle := "";
      selectedCountry := VIET_NAM;
    }

    /** Every keystroke stores the trimmed title. */
    method HandleJobChange(value: string)
      modifies this
      requires Valid()
      ensures Valid()
      ensures jobTitle == Trim(value) && selectedCountry == old(selectedCountry)
    {
      TrimIdempotent(value);
      jobTitle := Trim(value);
    }

    method HandleCountryChange(value: string)
      modifies this
      requires Valid()
      ensures Valid()
      ensures selectedCountry == value && jobTitle == old(jobTitle)
    {
      selectedCountry := value;
    }

    /** The query runs for a non-empty debounced title and a chosen country. */
    function QueryEnabled(debounced: string): (b: bool)
      reads this
      ensures b <==> debounced != "" && selectedCountry != ""
    {
      var fields := [debounced, selectedCountry];
      assert fields[0] == debounced && fields[1] == selectedCountry;
      Enabled(fields)
    }
  }
}
