/**
 * The skills-by-country bar chart: the twenty most frequent skills of one
 * country, with long names shortened for the axis and a colour per bar.
 */
module SkillsByCountry {
  import opened Text
  import opened Data
  import Analyze

  const CHART_SLICE := 20
  const LABEL_MAX := 20
  const REQUEST_LIMIT := 20

  /** The fixed country choices of the selector. */
  const COUNTRY_OPTIONS: seq<string> := [
    "United States", "Canada", "United Kingdom", "Australia", "India",
    "Germany", "France", "Japan", "Brazil", "South Korea"
  ]

  /** One bar: the shortened label, the full name for the tooltip, the count
      and the fill colour. */
  datatype ChartEntry = ChartEntry(skill: string, fullSkill: string, count: int, fill: string)

  type Response = Option<Envelope<seq<SkillData>>>

  function RequestUrl(country: string): string
  {
    Analyze.SkillsByCountryUrl(country, REQUEST_LIMIT)
  }

  /** `data.slice(0, 20).map((item, index) => ...)` for a palette of colours. */
  function FormattedData(items: seq<SkillData>, palette: seq<string>): (r: seq<ChartEntry>)
    requires |palette| > 0
    ensures |r| == Min(CHART_SLICE, |items|)
    ensures forall i :: 0 <= i < |r| ==>
              && r[i].fullSkill == items[i].skill
              && r[i].count == items[i].count
              && r[i].fill == palette[i % |palette|]
              && (|items[i].skill| <= LABEL_MAX ==> r[i].skill == items[i].skill)
              && (|items[i].skill| > LABEL_MAX ==> r[i].skill == items[i].skill[..LABEL_MAX] + "...")
  {
    var top := Take(items, CHART_SLICE);
    seq(|top|, i requires 0 <= i < |top| =>
      ChartEntry(Truncate(top[i].skill, LABEL_MAX), top[i].skill, top[i].count, palette[i % |palette|]))
  }

  datatype View = Loading | Empty | Chart

  /** `!data || data.data?.length === 0` shows the empty state. */
  function ChartView(isLoading: bool, response: Response): (v: View)
    ensures v == Loading <==> isLoading
    ensures v == Empty <==> !isLoading && (response.None? || response.value.data == Some([]))
    ensures v == Chart <==> !isLoading && response.Some? && response.value.data != Some([])
  {
    if isLoading then Loading
    else if response.None? || response.value.data == Some([]) then Empty
    else Chart
  }

  class SkillsByCountryState {
    var selectedCountry: string
    var chartData: seq<ChartEntry>
    const palette: seq<string>

    ghost predicate Valid()
      reads this
    {
      |palette| > 0 && |chartData| <= CHART_SLICE
    }

    constructor (palette: seq<string>)
      requires |palette| > 0
      ensures Valid()
      ensures selectedCountry == UNITED_STATES && chartData == [] && this.palette == palette
    {
      selectedCountry := UNITED_STATES;
      chartData := [];
      this.palette := palette;
    }

    method OnCountryChange(value: string)
      modifies this
      requires Valid()
      ensures Valid()
      ensures selectedCountry == value && chartData == old(chartData)
    {
      selectedCountry := value;
    }

    /** The effect on a new answer: the formatted bars, or none when the
        answer or its `data` is missing. */
    method OnData(response: Response)
      modifies this
      requires Valid()
      ensures Valid()
      ensures response.Some? && response.value.data.Some? ==>
                chartData == FormattedData(response.value.data.value, palette)
      ensures !(response.Some? && response.value.data.Some?) ==> chartData == []
      ensures selectedCountry == old(selectedCountry)
    {
      if response.Some? && response.value.data.Some? {
        chartData := FormattedData(response.value.data.value, palette);
      } else {
        chartData := [];
      }
    }

    /** The query runs for a chosen country. */
    function QueryEnabled(): (b: bool)
      reads this
      ensures b <==> selectedCountry != ""
    {
      Enabled([selectedCountry])
    }
  }
}
