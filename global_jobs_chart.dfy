/**
 * The global jobs chart: a country selector offering every country except
 * Viet Nam, and a bar chart of the ten most posted job titles there.
 */
module GlobalJobsChart {
  import opened Data
  import Analyze

  const REQUEST_LIMIT := 10

  /** One element of the answer's `data` list: the job counts of a country. */
  datatype CountryJobs = CountryJobs(data: seq<JobData>)

  type Response = Option<Envelope<seq<CountryJobs>>>

  function RequestUrl(country: string): string
  {
    Analyze.JobByCountryUrl(country, REQUEST_LIMIT)
  }

  /** `countries.filter(country => country !== "Việt Nam")`. */
  function CountryOptions(countries: seq<string>): (r: seq<string>)
    ensures |r| <= |countries|
    ensures VIET_NAM !in r
    ensures forall c :: c in r <==> c in countries && c != VIET_NAM
  {
    if countries == [] then []
    else
      var rest := CountryOptions(countries[..|countries| - 1]);
      var last := countries[|countries| - 1];
      assert countries == countries[..|countries| - 1] + [last];
      if last != VIET_NAM then rest + [last] else rest
  }

  /** The filter works element by element: it distributes over concatenation,
      so the countries it keeps stay in their order. */
  lemma {:induction false} CountryOptionsAppend(a: seq<string>, b: seq<string>)
    ensures CountryOptions(a + b) == CountryOptions(a) + CountryOptions(b)
  {
    if b == [] {
      assert a + b == a;
    } else {
      var init := b[..|b| - 1];
      assert (a + b)[..|a + b| - 1] == a + init;
      assert (a + b)[|a + b| - 1] == b[|b| - 1];
      CountryOptionsAppend(a, init);
    }
  }

  /** A list without Viet Nam is offered unchanged; filtering twice is
      filtering once. */
  lemma {:induction false} CountryOptionsKeepsOthers(countries: seq<string>)
    requires VIET_NAM !in countries
    ensures CountryOptions(countries) == countries
  {
    if countries != [] {
      var init := countries[..|countries| - 1];
      assert VIET_NAM !in init by {
        assert forall c :: c in init ==> c in countries;
      }
      CountryOptionsKeepsOthers(init);
      assert countries == init + [countries[|countries| - 1]];
    }
  }

  lemma CountryOptionsIdempotent(countries: seq<string>)
    ensures CountryOptions(CountryOptions(countries)) == CountryOptions(countries)
  {
    CountryOptionsKeepsOthers(CountryOptions(countries));
  }

  datatype View = LoadingCountries | Loading | Empty | Chart(bars: seq<JobData>) | RenderError

  /** The countries answer: `{ data: [...] }`, or nothing when its request
      failed. */
  type CountriesResponse = Option<Envelope<seq<string>>>

  /** `countriesData.data.filter(...)` can be evaluated: the answer arrived
      and carries its list. */
  predicate CountriesReadable(countries: CountriesResponse)
  {
    countries.Some? && countries.value.data.Some?
  }

  /** The chart area below the selector. `!data` or an empty first element
      shows the empty state; a missing first element leaves the chart without
      bars; an answer without `data` cannot be indexed and fails to render. */
  function ChartArea(isLoading: bool, response: Response): (v: View)
    ensures v == Loading <==> isLoading
    ensures v == RenderError <==> !isLoading && response.Some? && response.value.data.None?
    ensures v == Empty <==>
              !isLoading
              && (|| response.None?
                  || (response.value.data.Some? && response.value.data.value != [] && response.value.data.value[0].data == []))
    ensures v.Chart? <==>
              !isLoading && response.Some? && response.value.data.Some?
              && (response.value.data.value == [] || response.value.data.value[0].data != [])
    ensures v.Chart? && response.value.data.value != [] ==> v.bars == response.value.data.value[0].data
    ensures v.Chart? && response.value.data.value == [] ==> v.bars == []
    ensures v != LoadingCountries
  {
    if isLoading then Loading
    else if response.None? then Empty
    else if response.value.data.None? then RenderError
    else if response.value.data.value == [] then Chart([])
    else if response.value.data.value[0].data == [] then Empty
    else Chart(response.value.data.value[0].data)
  }

  /** The whole component, as written: the countries load first; then the
      options are built from `countriesData.data` before the chart area, so
      a countries answer that is missing, or has no `data`, fails the render
      whatever the jobs answer is. */
  function ChartView(isLoadingCountries: bool, countries: CountriesResponse, isLoading: bool, response: Response): (v: View)
    ensures v == LoadingCountries <==> isLoadingCountries
    ensures v == RenderError <==>
              !isLoadingCountries
              && (!CountriesReadable(countries) || (!isLoading && response.Some? && response.value.data.None?))
    ensures !isLoadingCountries && CountriesReadable(countries) ==> v == ChartArea(isLoading, response)
  {
    if isLoadingCountries then LoadingCountries
    else if !CountriesReadable(countries) then RenderError
    else ChartArea(isLoading, response)
  }

  /** The options offered, as written: every country but Viet Nam; `None`
      where the expression throws. */
  function OfferedCountries(countries: CountriesResponse): (r: Option<seq<string>>)
    ensures r.Some? <==> CountriesReadable(countries)
    ensures r.Some? ==> r.value == CountryOptions(countries.value.data.value)
  {
    if CountriesReadable(countries) then Some(CountryOptions(countries.value.data.value)) else None
  }

  /** The guarded form, `countriesData?.data?.filter(...)` as the skill search
      page reads its countries: a failed countries request leaves the selector
      empty and the chart area unaffected. */
  function ChartViewGuarded(isLoadingCountries: bool, countries: CountriesResponse, isLoading: bool, response: Response): (v: View)
    ensures v == LoadingCountries <==> isLoadingCountries
    ensures v == RenderError <==> !isLoadingCountries && !isLoading && response.Some? && response.value.data.None?
    ensures !isLoadingCountries ==> v == ChartArea(isLoading, response)
    ensures CountriesReadable(countries) ==> v == ChartView(isLoadingCountries, countries, isLoading, response)
  {
    if isLoadingCountries then LoadingCountries else ChartArea(isLoading, response)
  }

  /** A failed countries request: the jobs answer for the selected country is
      fine, yet the component as written fails to render, where the guarded
      form shows the chart. */
  lemma CountriesFailureBreaksChart()
    ensures ChartView(false, None, false, Some(Envelope(Some([CountryJobs([JobData("Engineer", 5)])])))) == RenderError
    ensures ChartViewGuarded(false, None, false, Some(Envelope(Some([CountryJobs([JobData("Engineer", 5)])]))))
            == Chart([JobData("Engineer", 5)])
  {
  }

  class GlobalJobsChartState {
    var selectedCountry: string

    constructor ()
      ensures selectedCountry == UNITED_STATES
    {
      selectedCountry := UNITED_STATES;
    }

    method OnCountryChange(value: string)
      modifies this
      ensures selectedCountry == value
    {
      selectedCountry := value;
    }

    /** The query runs for a chosen country. */
    function QueryEnabled(): (b: bool)
      reads this
      ensures b <==> selectedCountry != ""
    {
      Enabled([selectedCountry])
    }
  }
}
