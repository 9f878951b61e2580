/**
 * The two skill-frequency bar charts, for Viet Nam and worldwide. Both map
 * the answer to `{ skill, count }` bars and sort that array in place by count,
 * largest first, with the comparator `(a, b) => b.count - a.count`.
 */
module SkillCharts {
  import opened Data
  import opened Sorting
  import Analyze

  /** One bar. `Number(item.count)` is the identity on the integer counts
      modelled here. */
  datatype ChartBar = ChartBar(skill: string, count: int)

  type Response = Option<Envelope<seq<SkillData>>>

  /** The request of the Viet Nam chart; `limit` is the configured data limit. */
  function VietnamRequestUrl(limit: int): string
  {
    Analyze.SkillsByCountryUrl(VIET_NAM, limit)
  }

  /** The request of the worldwide chart. */
  function GlobalRequestUrl(limit: int): string
  {
    Analyze.GlobalSkillsUrl(limit)
  }

  /** `data.map(item => ({ skill: item.skill, count: Number(item.count) }))`. */
  function ChartData(items: seq<SkillData>): (r: seq<ChartBar>)
    ensures |r| == |items|
    ensures forall i :: 0 <= i < |r| ==> r[i].skill == items[i].skill && r[i].count == items[i].count
  {
    if items == [] then []
    else ChartData(items[..|items| - 1]) + [ChartBar(items[|items| - 1].skill, items[|items| - 1].count)]
  }

  /** The comparator is <= 0 exactly when `a` has at least the count of `b`. */
  predicate ByCountDesc(a: ChartBar, b: ChartBar) {
    a.count >= b.count
  }

  lemma ByCountDescTotalPreorder()
    ensures TotalPreorder(ByCountDesc)
  {
  }

  datatype View = Loading | Empty | Chart(bars: seq<ChartBar>) | RenderError

  /** `!data || data.data?.length === 0` shows the empty state; an answer
      without `data` cannot be mapped and fails to render; otherwise the bars
      are the mapped answer sorted by count. */
  method ChartView(isLoading: bool, response: Response) returns (v: View)
    ensures v == Loading <==> isLoading
    ensures v == Empty <==> !isLoading && (response.None? || response.value.data == Some([]))
    ensures v == RenderError <==> !isLoading && response.Some? && response.value.data.None?
    ensures v.Chart? <==> !isLoading && response.Some? && response.value.data.Some? && response.value.data.value != []
    ensures v.Chart? ==> v.bars == Sort(ChartData(response.value.data.value), ByCountDesc)
  {
    if isLoading {
      return Loading;
    }
    if response.None? || response.value.data == Some([]) {
      return Empty;
    }
    if response.value.data.None? {
      return RenderError;
    }
    var items := response.value.data.value;
    var chartData := SortFresh(ChartData(items), ByCountDesc);
    v := Chart(chartData);
  }

  /** The bars hold the answer's skills and counts, largest count first, and
      bars with equal counts keep the answer's order. */
  lemma ChartBarsProperties(items: seq<SkillData>, x: ChartBar)
    ensures multiset(Sort(ChartData(items), ByCountDesc)) == multiset(ChartData(items))
    ensures forall i, j :: 0 <= i < j < |items| ==>
              Sort(ChartData(items), ByCountDesc)[i].count >= Sort(ChartData(items), ByCountDesc)[j].count
    ensures TiedWith(Sort(ChartData(items), ByCountDesc), x, ByCountDesc) == TiedWith(ChartData(items), x, ByCountDesc)
  {
    ByCountDescTotalPreorder();
    SortSorted(ChartData(items), ByCountDesc);
    SortStable(ChartData(items), x, ByCountDesc);
  }
}
