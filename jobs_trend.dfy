/**
 * The jobs-trend panel: it folds the monthly `{ job_title, count }` lists of
 * the trend response into one total per title, ranks the totals, extracts the
 * month-by-month series of the selected title, and reveals the ranking twelve
 * rows at a time.
 */
module JobsTrend {
  import opened Text
  import opened Data
  import opened Sorting
  import Analyze

  const SLICE_STEP := 12
  const INITIAL_TYPE: string := "thisYear"
  const CUSTOM_TYPE: string := "custom"
  const INITIAL_YEAR := 2023
  const TREND_LIMIT := 10

  /** The trend request for a year: ten titles per month. */
  function RequestUrl(value: int): string
  {
    Analyze.JobsTrendUrl(TREND_LIMIT, value)
  }

  // ---------------------------------------------------------------------------
  // The reference meaning of the aggregation

  /** Every entry of every month, in response order. */
  function Flatten(months: seq<MonthJobs>): seq<JobData>
  {
    if months == [] then []
    else Flatten(months[..|months| - 1]) + months[|months| - 1].jobs
  }

  lemma FlattenSnoc(months: seq<MonthJobs>, i: nat)
    requires i < |months|
    ensures Flatten(months[..i + 1]) == Flatten(months[..i]) + months[i].jobs
  {
    assert months[..i + 1][..i] == months[..i];
  }

  /** The distinct titles of `s` in order of first appearance: the key order
      of a `Map` filled from `s`. */
  function Titles(s: seq<JobData>): (r: seq<string>)
    ensures Distinct(r)
  {
    if s == [] then []
    else
      var t := Titles(s[..|s| - 1]);
      var x := s[|s| - 1].job_title;
      if x in t then t else t + [x]
  }

  /** A title is a key exactly when some entry carries it. */
  lemma {:induction false} TitlesMembership(s: seq<JobData>)
    ensures forall k :: 0 <= k < |s| ==> s[k].job_title in Titles(s)
    ensures forall t :: t in Titles(s) ==> exists k :: 0 <= k < |s| && s[k].job_title == t
  {
    if s != [] {
      var init := s[..|s| - 1];
      TitlesMembership(init);
      forall t | t in Titles(s) ensures exists k :: 0 <= k < |s| && s[k].job_title == t {
        if t in Titles(init) {
          var k :| 0 <= k < |init| && init[k].job_title == t;
          assert s[k] == init[k];
        } else {
          assert s[|s| - 1].job_title == t;
        }
      }
      forall k | 0 <= k < |s| ensures s[k].job_title in Titles(s) {
        if k < |s| - 1 {
          assert s[k] == init[k];
        }
      }
    }
  }

  /** The sum of the counts of the entries of `s` titled `title`. */
  function TotalFor(s: seq<JobData>, title: string): int
  {
    if s == [] then 0
    else TotalFor(s[..|s| - 1], title) + (if s[|s| - 1].job_title == title then s[|s| - 1].count else 0)
  }

  /** One `{ job_title, count }` per title, with its total. */
  function Entries(titles: seq<string>, s: seq<JobData>): (r: seq<JobData>)
    ensures |r| == |titles|
    ensures forall i :: 0 <= i < |r| ==> r[i] == JobData(titles[i], TotalFor(s, titles[i]))
  {
    if titles == [] then []
    else Entries(titles[..|titles| - 1], s) + [JobData(titles[|titles| - 1], TotalFor(s, titles[|titles| - 1]))]
  }

  /** The comparator `(a, b) => b.count - a.count` is <= 0 exactly when `a`
      has at least as many postings as `b`. */
  predicate ByCountDesc(a: JobData, b: JobData) {
    a.count >= b.count
  }

  function Sum(s: seq<JobData>): int
  {
    if s == [] then 0 else Sum(s[..|s| - 1]) + s[|s| - 1].count
  }

  /** The ranked totals the panel shows. */
  function Aggregated(months: seq<MonthJobs>): seq<JobData>
  {
    var flat := Flatten(months);
    Sort(Entries(Titles(flat), flat), ByCountDesc)
  }

  // ---------------------------------------------------------------------------
  // The aggregation effect

  /** `keys` and `counts` are the key order and the contents of the `Map`
      filled from the entries `s`. */
  ghost predicate MapOf(keys: seq<string>, counts: map<string, int>, s: seq<JobData>) {
    && keys == Titles(s)
    && (forall t :: t in counts <==> t in keys)
    && (forall t :: t in counts ==> counts[t] == TotalFor(s, t))
  }

  lemma AggregateStep(pre: seq<JobData>, x: JobData)
    ensures Titles(pre + [x]) == if x.job_title in Titles(pre) then Titles(pre) else Titles(pre) + [x.job_title]
    ensures forall t :: TotalFor(pre + [x], t) == TotalFor(pre, t) + (if x.job_title == t then x.count else 0)
  {
    assert (pre + [x])[..|pre|] == pre;
  }

  /** One `jobsMap.set(title, (jobsMap.get(title) || 0) + count)`: a new
      title is appended to the key order, a known one keeps its place. */
  lemma MapOfStep(keys: seq<string>, counts: map<string, int>, s: seq<JobData>, x: JobData,
                  keys': seq<string>, counts': map<string, int>)
    requires MapOf(keys, counts, s)
    requires keys' == if x.job_title in counts then keys else keys + [x.job_title]
    requires counts' == counts[x.job_title := (if x.job_title in counts then counts[x.job_title] else 0) + x.count]
    ensures MapOf(keys', counts', s + [x])
  {
    AggregateStep(s, x);
    if x.job_title !in counts {
      TotalForAbsent(s, x.job_title);
    }
  }

  /** The inner `forEach` over one month's entries. */
  method AddMonth(keys: seq<string>, counts: map<string, int>, jobs: seq<JobData>, ghost done: seq<JobData>)
    returns (keys': seq<string>, counts': map<string, int>)
    requires MapOf(keys, counts, done)
    ensures MapOf(keys', counts', done + jobs)
  {
    keys', counts' := keys, counts;
    var j := 0;
    assert done + jobs[..0] == done;
    while j < |jobs|
      invariant 0 <= j <= |jobs|
      invariant MapOf(keys', counts', done + jobs[..j])
    {
      var job := jobs[j];
      ghost var seen := done + jobs[..j];
      ghost var keys0, counts0 := keys', counts';
      var currentCount := if job.job_title in counts' then counts'[job.job_title] else 0;
      if job.job_title !in counts' {
        keys' := keys' + [job.job_title];
      }
      counts' := counts'[job.job_title := currentCount + job.count];
      MapOfStep(keys0, counts0, seen, job, keys', counts');
      assert done + jobs[..j + 1] == seen + [job];
      j := j + 1;
    }
    assert jobs[..|jobs|] == jobs;
  }

  /** `Array.from(jobsMap.entries()).map(([job_title, count]) => ...)`. */
  method MapEntries(keys: seq<string>, counts: map<string, int>, ghost s: seq<JobData>) returns (entries: seq<JobData>)
    requires MapOf(keys, counts, s)
    ensures entries == Entries(Titles(s), s)
  {
    entries := [];
    var k := 0;
    while k < |keys|
      invariant 0 <= k <= |keys|
      invariant |entries| == k
      invariant forall m :: 0 <= m < k ==> entries[m] == JobData(keys[m], TotalFor(s, keys[m]))
    {
      entries := entries + [JobData(keys[k], counts[keys[k]])];
      k := k + 1;
    }
  }

  /** The nested `forEach` over the months and their entries filling a `Map`
      from title to running total, then its entries sorted by count. The map
      is kept as its key order `keys` and its contents `counts`. */
  method AggregateJobs(months: seq<MonthJobs>) returns (aggregated: seq<JobData>)
    ensures aggregated == Aggregated(months)
  {
    var keys: seq<string> := [];
    var counts: map<string, int> := map[];
    var i := 0;
    while i < |months|
      invariant 0 <= i <= |months|
      invariant MapOf(keys, counts, Flatten(months[..i]))
    {
      FlattenSnoc(months, i);
      keys, counts := AddMonth(keys, counts, months[i].jobs, Flatten(months[..i]));
      i := i + 1;
    }
    assert months[..|months|] == months;
    var entries := MapEntries(keys, counts, Flatten(months));
    aggregated := SortFresh(entries, ByCountDesc);
  }

  // ---------------------------------------------------------------------------
  // What is proved about the aggregation

  lemma ByCountDescTotalPreorder()
    ensures TotalPreorder(ByCountDesc)
  {
  }

  /** Each entry holds the sum of that title's counts over every month. */
  lemma AggregatedCounts(months: seq<MonthJobs>)
    ensures forall e :: e in Aggregated(months) ==>
              e.count == TotalFor(Flatten(months), e.job_title) && e.job_title in Titles(Flatten(months))
  {
    var flat := Flatten(months);
    var entries := Entries(Titles(flat), flat);
    forall e | e in Aggregated(months)
      ensures e.count == TotalFor(flat, e.job_title) && e.job_title in Titles(flat)
    {
      assert e in multiset(Aggregated(months));
      assert e in entries;
    }
  }

  /** Every title of the response gets an entry with its total. */
  lemma AggregatedCoversTitles(months: seq<MonthJobs>)
    ensures forall k :: 0 <= k < |Flatten(months)| ==>
              JobData(Flatten(months)[k].job_title, TotalFor(Flatten(months), Flatten(months)[k].job_title))
                in Aggregated(months)
  {
    var flat := Flatten(months);
    var titles := Titles(flat);
    var entries := Entries(titles, flat);
    forall k | 0 <= k < |flat|
      ensures JobData(flat[k].job_title, TotalFor(flat, flat[k].job_title)) in Aggregated(months)
    {
      TitlesMembership(flat);
      var i :| 0 <= i < |titles| && titles[i] == flat[k].job_title;
      assert entries[i] in multiset(entries);
    }
  }

  /** No title has two entries. */
  lemma AggregatedOneEntryPerTitle(months: seq<MonthJobs>)
    ensures forall i, j :: 0 <= i < j < |Aggregated(months)| ==>
              Aggregated(months)[i].job_title != Aggregated(months)[j].job_title
  {
    var flat := Flatten(months);
    var titles := Titles(flat);
    var entries := Entries(titles, flat);
    var agg := Aggregated(months);
    assert Distinct(entries) by {
      forall i, j | 0 <= i < j < |entries| ensures entries[i] != entries[j] {
        assert entries[i].job_title == titles[i] && entries[j].job_title == titles[j];
      }
    }
    PermutationDistinct(entries, agg);
    AggregatedCounts(months);
    forall i, j | 0 <= i < j < |agg| ensures agg[i].job_title != agg[j].job_title {
      assert agg[i] in agg && agg[j] in agg;
    }
  }

  lemma AggregatedInOrder(months: seq<MonthJobs>)
    ensures Sorted(Aggregated(months), ByCountDesc)
  {
    var flat := Flatten(months);
    ByCountDescTotalPreorder();
    SortSorted(Entries(Titles(flat), flat), ByCountDesc);
  }

  /** The ranking never puts a smaller count in front of a larger one. */
  lemma AggregatedSorted(months: seq<MonthJobs>)
    ensures forall i, j :: 0 <= i < j < |Aggregated(months)| ==>
              Aggregated(months)[i].count >= Aggregated(months)[j].count
  {
    AggregatedInOrder(months);
  }

  /** Titles with equal totals stay in order of first appearance. */
  lemma AggregatedStable(months: seq<MonthJobs>, x: JobData)
    ensures TiedWith(Aggregated(months), x, ByCountDesc)
         == TiedWith(Entries(Titles(Flatten(months)), Flatten(months)), x, ByCountDesc)
  {
    ByCountDescTotalPreorder();
    SortStable(Entries(Titles(Flatten(months)), Flatten(months)), x, ByCountDesc);
  }

  lemma {:induction false} SumConcat(a: seq<JobData>, b: seq<JobData>)
    ensures Sum(a + b) == Sum(a) + Sum(b)
  {
    if b == [] {
      assert a + b == a;
    } else {
      var c := a + b;
      assert c[..|c| - 1] == a + b[..|b| - 1];
      assert c[|c| - 1] == b[|b| - 1];
      SumConcat(a, b[..|b| - 1]);
    }
  }

  lemma SumRemove(b: seq<JobData>, k: nat)
    requires k < |b|
    ensures Sum(b) == Sum(b[..k] + b[k + 1..]) + b[k].count
  {
    assert b == (b[..k] + [b[k]]) + b[k + 1..];
    SumConcat(b[..k] + [b[k]], b[k + 1..]);
    SumConcat(b[..k], [b[k]]);
    SumConcat(b[..k], b[k + 1..]);
    assert Sum([b[k]]) == b[k].count by {
      assert [b[k]][..0] == [];
    }
  }

  lemma MultisetRemove(b: seq<JobData>, k: nat)
    requires k < |b|
    ensures multiset(b[..k] + b[k + 1..]) == multiset(b) - multiset{b[k]}
  {
    assert b == b[..k] + [b[k]] + b[k + 1..];
  }

  /** The total depends only on which entries there are, not on their order. */
  lemma {:induction false} SumPermutation(a: seq<JobData>, b: seq<JobData>)
    requires multiset(a) == multiset(b)
    ensures Sum(a) == Sum(b)
  {
    if a == [] {
      assert |b| == |multiset(b)| == 0;
    } else {
      var x := a[|a| - 1];
      var init := a[..|a| - 1];
      assert a == init + [x];
      assert multiset(init) == multiset(a) - multiset{x};
      assert x in multiset(b);
      var k :| 0 <= k < |b| && b[k] == x;
      MultisetRemove(b, k);
      SumPermutation(init, b[..k] + b[k + 1..]);
      SumRemove(b, k);
    }
  }

  lemma {:induction false} SumEntriesStep(titles: seq<string>, pre: seq<JobData>, x: JobData)
    requires Distinct(titles)
    ensures Sum(Entries(titles, pre + [x])) == Sum(Entries(titles, pre)) + (if x.job_title in titles then x.count else 0)
  {
    AggregateStep(pre, x);
    if titles != [] {
      var init := titles[..|titles| - 1];
      var last := titles[|titles| - 1];
      assert Distinct(init);
      assert titles == init + [last];
      SumEntriesStep(init, pre, x);
    }
  }

  lemma SumSnoc(q: seq<JobData>, e: JobData)
    ensures Sum(q + [e]) == Sum(q) + e.count
  {
    assert (q + [e])[..|q|] == q;
  }

  lemma EntriesSnoc(titles: seq<string>, y: string, s: seq<JobData>)
    ensures Sum(Entries(titles + [y], s)) == Sum(Entries(titles, s)) + TotalFor(s, y)
  {
    assert (titles + [y])[..|titles|] == titles;
    SumSnoc(Entries(titles, s), JobData(y, TotalFor(s, y)));
  }

  lemma {:induction false} SumEntries(s: seq<JobData>)
    ensures Sum(Entries(Titles(s), s)) == Sum(s)
  {
    if s != [] {
      var pre := s[..|s| - 1];
      var x := s[|s| - 1];
      var t := Titles(pre);
      assert s == pre + [x];
      SumSnoc(pre, x);
      SumEntries(pre);
      AggregateStep(pre, x);
      SumEntriesStep(t, pre, x);
      if x.job_title !in t {
        EntriesSnoc(t, x.job_title, s);
        TotalForAbsent(pre, x.job_title);
      }
    }
  }

  lemma {:induction false} TotalForAbsent(s: seq<JobData>, title: string)
    requires title !in Titles(s)
    ensures TotalFor(s, title) == 0
  {
    if s != [] {
      TotalForAbsent(s[..|s| - 1], title);
    }
  }

  /** The total of the ranking equals the sum of every count of every month. */
  lemma AggregatedTotal(months: seq<MonthJobs>)
    ensures Sum(Aggregated(months)) == Sum(Flatten(months))
  {
    var flat := Flatten(months);
    SumPermutation(Sort(Entries(Titles(flat), flat), ByCountDesc), Entries(Titles(flat), flat));
    SumEntries(flat);
  }

  // ---------------------------------------------------------------------------
  // The monthly series of one title

  /** `jobs.find(job => job.job_title === title)`'s count, or 0. */
  function FindCount(jobs: seq<JobData>, title: string): (n: int)
    ensures (forall k :: 0 <= k < |jobs| ==> jobs[k].job_title != title) ==> n == 0
    ensures forall k :: (0 <= k < |jobs| && jobs[k].job_title == title &&
              (forall m :: 0 <= m < k ==> jobs[m].job_title != title)) ==> n == jobs[k].count
  {
    if jobs == [] then 0
    else if jobs[0].job_title == title then jobs[0].count
    else
      assert forall k :: 1 <= k < |jobs| ==> jobs[k] == jobs[1..][k - 1];
      FindCount(jobs[1..], title)
  }

  /** One point per month, in response order. */
  function MonthPoints(months: seq<MonthJobs>, title: string): (r: seq<MonthlyJobData>)
    ensures |r| == |months|
    ensures forall i :: 0 <= i < |r| ==> r[i] == MonthlyJobData(months[i].month_year, FindCount(months[i].jobs, title))
  {
    if months == [] then []
    else
      var last := months[|months| - 1];
      MonthPoints(months[..|months| - 1], title) + [MonthlyJobData(last.month_year, FindCount(last.jobs, title))]
  }

  /** Lexicographic order on code points, standing in for `localeCompare`. */
  predicate LexLe(a: string, b: string) {
    if a == [] then true
    else if b == [] then false
    else if a[0] != b[0] then a[0] < b[0]
    else LexLe(a[1..], b[1..])
  }

  lemma {:induction false} LexTotal(a: string, b: string)
    ensures LexLe(a, b) || LexLe(b, a)
  {
    if a != [] && b != [] && a[0] == b[0] {
      LexTotal(a[1..], b[1..]);
    }
  }

  lemma {:induction false} LexTransitive(a: string, b: string, c: string)
    requires LexLe(a, b) && LexLe(b, c)
    ensures LexLe(a, c)
  {
    if a != [] && b != [] && c != [] && a[0] == b[0] && b[0] == c[0] {
      LexTransitive(a[1..], b[1..], c[1..]);
    }
  }

  predicate ByMonth(a: MonthlyJobData, b: MonthlyJobData) {
    LexLe(a.month, b.month)
  }

  lemma ByMonthTotalPreorder()
    ensures TotalPreorder(ByMonth)
  {
    forall a: MonthlyJobData, b: MonthlyJobData ensures ByMonth(a, b) || ByMonth(b, a) {
      LexTotal(a.month, b.month);
    }
    forall a: MonthlyJobData, b: MonthlyJobData, c: MonthlyJobData | ByMonth(a, b) && ByMonth(b, c)
      ensures ByMonth(a, c)
    {
      LexTransitive(a.month, b.month, c.month);
    }
  }

  /** The `forEach` that pushes one point per month, then the sort by month. */
  method MonthlySeries(months: seq<MonthJobs>, title: string) returns (series: seq<MonthlyJobData>)
    ensures series == Sort(MonthPoints(months, title), ByMonth)
  {
    var points: seq<MonthlyJobData> := [];
    var i := 0;
    while i < |months|
      invariant 0 <= i <= |months|
      invariant |points| == i
      invariant forall m :: 0 <= m < i ==> points[m] == MonthlyJobData(months[m].month_year, FindCount(months[m].jobs, title))
    {
      var month := months[i];
      var jobInMonth := FindCount(month.jobs, title);
      points := points + [MonthlyJobData(month.month_year, jobInMonth)];
      i := i + 1;
    }
    assert points == MonthPoints(months, title);
    series := SortFresh(points, ByMonth);
  }

  /** The series has one point per month, holds exactly the month points and
      runs in month order. */
  lemma MonthlySeriesProperties(months: seq<MonthJobs>, title: string)
    ensures |Sort(MonthPoints(months, title), ByMonth)| == |months|
    ensures multiset(Sort(MonthPoints(months, title), ByMonth)) == multiset(MonthPoints(months, title))
    ensures forall i, j :: 0 <= i < j < |months| ==>
              LexLe(Sort(MonthPoints(months, title), ByMonth)[i].month, Sort(MonthPoints(months, title), ByMonth)[j].month)
  {
    ByMonthTotalPreorder();
    SortSorted(MonthPoints(months, title), ByMonth);
  }

  // ---------------------------------------------------------------------------
  // The panel's state

  datatype ChartView = Loading | NoTrendData | TrendChart | RenderError

  /** `isLoading` first, then `data?.data.length === 0`: an empty month list
      shows the empty state, while an answer without `data` has no length to
      read and fails to render; no answer at all draws the chart. */
  function TrendChartView(isLoading: bool, response: Option<Envelope<seq<MonthJobs>>>): (v: ChartView)
    ensures isLoading ==> v == Loading
    ensures v == NoTrendData <==> !isLoading && response.Some? && response.value.data == Some([])
    ensures v == RenderError <==> !isLoading && response.Some? && response.value.data.None?
    ensures v == TrendChart <==> !isLoading && (response.None? || (response.value.data.Some? && response.value.data.value != []))
  {
    if isLoading then Loading
    else if response.None? then TrendChart
    else if response.value.data.None? then RenderError
    else if response.value.data.value == [] then NoTrendData
    else TrendChart
  }

  /** The title selected after a ranking arrives: the top one when nothing
      is selected yet, otherwise the current one. */
  function NextSelection(current: string, aggregated: seq<JobData>): (r: string)
    ensures current == "" && aggregated != [] ==> r == aggregated[0].job_title
    ensures current != "" ==> r == current
    ensures aggregated == [] ==> r == current
  {
    if |aggregated| > 0 && current == "" then aggregated[0].job_title else current
  }

  class JobsTrendView {
    var trendType: string
    var value: int
    var jobsByMonth: seq<JobTrendData>
    var selectedJob: string
    var monthlyData: seq<MonthlyJobData>
    var sliceCount: int

    /** At most one year summary, ranked; the reveal counter is a positive
        multiple of twelve. */
    ghost predicate Valid()
      reads this
    {
      && |jobsByMonth| <= 1
      && (forall y :: y in jobsByMonth ==> Sorted(y.jobs, ByCountDesc))
      && sliceCount >= SLICE_STEP && sliceCount % SLICE_STEP == 0
    }

    constructor ()
      ensures Valid()
      ensures trendType == INITIAL_TYPE && value == INITIAL_YEAR && selectedJob == ""
      ensures jobsByMonth == [] && monthlyData == [] && sliceCount == SLICE_STEP
    {
      trendType := INITIAL_TYPE;
      value := INITIAL_YEAR;
      jobsByMonth := [];
      selectedJob := "";
      monthlyData := [];
      sliceCount := SLICE_STEP;
    }

    /** "Load More Jobs": twelve more rows, with no upper bound. */
    method HandleLoadMore()
      modifies this
      requires Valid()
      ensures Valid()
      ensures sliceCount == old(sliceCount) + SLICE_STEP
      ensures trendType == old(trendType) && value == old(value) && jobsByMonth == old(jobsByMonth)
      ensures selectedJob == old(selectedJob) && monthlyData == old(monthlyData)
    {
      sliceCount := sliceCount + SLICE_STEP;
    }

    method HandleTypeChange(newType: string)
      modifies this
      requires Valid()
      ensures Valid()
      ensures trendType == newType
      ensures value == old(value) && jobsByMonth == old(jobsByMonth) && sliceCount == old(sliceCount)
      ensures selectedJob == old(selectedJob) && monthlyData == old(monthlyData)
    {
      trendType := newType;
    }

    /** Picking a year switches to the custom range. */
    method HandleValueChange(newValue: int)
      modifies this
      requires Valid()
      ensures Valid()
      ensures trendType == CUSTOM_TYPE && value == newValue
      ensures jobsByMonth == old(jobsByMonth) && sliceCount == old(sliceCount)
      ensures selectedJob == old(selectedJob) && monthlyData == old(monthlyData)
    {
      trendType := CUSTOM_TYPE;
      value := newValue;
    }

    method HandleJobClick(jobTitle: string)
      modifies this
      requires Valid()
      ensures Valid()
      ensures selectedJob == jobTitle
      ensures trendType == old(trendType) && value == old(value) && jobsByMonth == old(jobsByMonth)
      ensures sliceCount == old(sliceCount) && monthlyData == old(monthlyData)
    {
      selectedJob := jobTitle;
    }

    /** The aggregation effect: with a month list present, the year summary is
        replaced, and the top title is selected only when none is. */
    method OnTrendData(response: Option<Envelope<seq<MonthJobs>>>)
      modifies this
      requires Valid()
      ensures Valid()
      ensures response.Some? && response.value.data.Some? ==>
                && jobsByMonth == [JobTrendData(IntToString(old(value)), Aggregated(response.value.data.value))]
                && selectedJob == NextSelection(old(selectedJob), Aggregated(response.value.data.value))
      ensures !(response.Some? && response.value.data.Some?) ==>
                jobsByMonth == old(jobsByMonth) && selectedJob == old(selectedJob)
      ensures trendType == old(trendType) && value == old(value)
      ensures sliceCount == old(sliceCount) && monthlyData == old(monthlyData)
    {
      if response.Some? && response.value.data.Some? {
        var months := response.value.data.value;
        var aggregatedJobs := AggregateJobs(months);
        AggregatedInOrder(months);
        ShowSummary(aggregatedJobs);
      }
    }

    /** `setJobsByMonth` and the conditional `setSelectedJob` of the
        aggregation effect. */
    method ShowSummary(aggregatedJobs: seq<JobData>)
      modifies this
      requires Valid() && Sorted(aggregatedJobs, ByCountDesc)
      ensures Valid()
      ensures jobsByMonth == [JobTrendData(IntToString(old(value)), aggregatedJobs)]
      ensures selectedJob == NextSelection(old(selectedJob), aggregatedJobs)
      ensures trendType == old(trendType) && value == old(value)
      ensures sliceCount == old(sliceCount) && monthlyData == old(monthlyData)
    {
      jobsByMonth := [JobTrendData(IntToString(value), aggregatedJobs)];
      if |aggregatedJobs| > 0 && selectedJob == "" {
        selectedJob := aggregatedJobs[0].job_title;
      }
    }

    /** The monthly-series effect runs when a month list is present and a
        title is selected. */
    method OnMonthlyData(response: Option<Envelope<seq<MonthJobs>>>)
      modifies this
      requires Valid()
      ensures Valid()
      ensures response.Some? && response.value.data.Some? && old(selectedJob) != "" ==>
                monthlyData == Sort(MonthPoints(response.value.data.value, old(selectedJob)), ByMonth)
      ensures !(response.Some? && response.value.data.Some? && old(selectedJob) != "") ==>
                monthlyData == old(monthlyData)
      ensures trendType == old(trendType) && value == old(value) && jobsByMonth == old(jobsByMonth)
      ensures sliceCount == old(sliceCount) && selectedJob == old(selectedJob)
    {
      if response.Some? && response.value.data.Some? && selectedJob != "" {
        monthlyData := MonthlySeries(response.value.data.value, selectedJob);
      }
    }

    /** The ranked rows shown: `jobs.slice(0, sliceCount)`. */
    function VisibleJobs(): (r: seq<JobData>)
      reads this
      requires Valid()
      ensures jobsByMonth == [] ==> r == []
      ensures jobsByMonth != [] ==>
                |r| == Min(sliceCount, |jobsByMonth[0].jobs|) && r == jobsByMonth[0].jobs[..|r|]
    {
      if jobsByMonth == [] then [] else Take(jobsByMonth[0].jobs, sliceCount)
    }

    /** The button shows while some ranked rows are hidden. */
    function ShowLoadMore(): (b: bool)
      reads this
      requires Valid()
      ensures b <==> jobsByMonth != [] && |VisibleJobs()| < |jobsByMonth[0].jobs|
    {
      jobsByMonth != [] && |jobsByMonth[0].jobs| > sliceCount
    }

    /** "Total Job Postings": the `reduce` over the ranked rows, or nothing
        shown while `jobsByMonth[0]` is undefined. */
    function TotalPostings(): (r: Option<int>)
      reads this
      ensures r.None? <==> jobsByMonth == []
    {
      if jobsByMonth == [] then None else Some(Sum(jobsByMonth[0].jobs))
    }
  }

  /** After a trend response arrives, the displayed total equals the sum of
      every count of every month. */
  lemma TotalPostingsIsSumOfMonths(view: JobsTrendView, months: seq<MonthJobs>)
    requires |view.jobsByMonth| == 1 && view.jobsByMonth[0].jobs == Aggregated(months)
    ensures view.TotalPostings() == Some(Sum(Flatten(months)))
  {
    AggregatedTotal(months);
  }
}
