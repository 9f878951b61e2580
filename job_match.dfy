/**
 * The skill-tag picker and the "load more" counters of the job-match panel.
 * The component state (raw input, dropdown flag, chosen skills, country and the
 * two reveal counters) is a class whose handlers replace fields; the debounced
 * input, the fetched suggestions and the fetched recommendations are
 * parameters of the methods that use them.
 */
module JobMatch {
  import opened Text
  import opened Data

  /** Number of job cards revealed at first and added by each click. */
  const JOBS_STEP: int := 3
  /** Number of skills of one job revealed at first and added by each click. */
  const SKILLS_STEP: int := 6

  /** `skills.includes(skill) ? skills : [...skills, skill]`, the shape of both
      add paths. */
  function AddIfAbsent(skills: seq<string>, skill: string): (r: seq<string>)
    ensures skill in r
    ensures forall x :: x in r <==> x in skills || x == skill
    ensures |skills| <= |r| <= |skills| + 1 && r[..|skills|] == skills
    ensures Distinct(skills) ==> Distinct(r)
  {
    if skill in skills then skills else skills + [skill]
  }

  /** The skill Enter commits: the first suggestion when there is one, the
      trimmed input otherwise. */
  function EnterCandidate(input: string, suggestions: seq<string>): (skill: string)
    ensures suggestions != [] ==> skill == suggestions[0]
    ensures suggestions == [] ==> skill == Trim(input) && (skill == "" <==> AllWhitespace(input))
  {
    TrimEmptyIff(input);
    if |suggestions| == 0 then Trim(input) else suggestions[0]
  }

  /** The list after Enter: an empty candidate is not added. */
  function CommitOnEnter(skills: seq<string>, skill: string): (r: seq<string>)
    ensures skill == "" ==> r == skills
    ensures skill != "" ==> r == AddIfAbsent(skills, skill)
  {
    if skill != "" then AddIfAbsent(skills, skill) else skills
  }

  /** `skills.filter((_, i) => i !== index)`. */
  function RemoveAt(s: seq<string>, index: int): (r: seq<string>)
    ensures 0 <= index < |s| ==> r == s[..index] + s[index + 1..]
    ensures !(0 <= index < |s|) ==> r == s
  {
    if s == [] then []
    else
      var init := RemoveAt(s[..|s| - 1], index);
      assert s == s[..|s| - 1] + [s[|s| - 1]];
      if |s| - 1 != index then init + [s[|s| - 1]] else init
  }

  /** Removing a tag never brings one in. */
  lemma RemoveAtSubset(s: seq<string>, index: int)
    ensures forall x :: x in RemoveAt(s, index) ==> x in s
  {
    var r := RemoveAt(s, index);
    if 0 <= index < |s| {
      forall x | x in r ensures x in s {
        var k :| 0 <= k < |r| && r[k] == x;
        assert r[k] == s[if k < index then k else k + 1];
      }
    }
  }

  /** Removing a tag keeps the list free of duplicates. */
  lemma RemoveAtDistinct(s: seq<string>, index: int)
    requires Distinct(s)
    ensures Distinct(RemoveAt(s, index))
    ensures forall x :: x in RemoveAt(s, index) ==> x in s
  {
    var r := RemoveAt(s, index);
    if 0 <= index < |s| {
      forall i, j | 0 <= i < j < |r| ensures r[i] != r[j] {
        var i' := if i < index then i else i + 1;
        var j' := if j < index then j else j + 1;
        assert r[i] == s[i'] && r[j] == s[j'];
      }
    }
    RemoveAtSubset(s, index);
  }

  /** `count || 6`: a missing entry or a 0 reads as the initial count. */
  function SkillsCountOf(counts: map<string, int>, title: string): (n: int)
    ensures title in counts && counts[title] != 0 ==> n == counts[title]
    ensures !(title in counts && counts[title] != 0) ==> n == SKILLS_STEP
  {
    if title in counts && counts[title] != 0 then counts[title] else SKILLS_STEP
  }

  /** One "load more" step: `min(current + step, total)`. */
  function NextCount(current: int, step: int, total: int): (n: int)
    ensures n <= total
    ensures current <= total && step >= 0 ==> current <= n
    ensures n == current + step || n == total
  {
    Min(current + step, total)
  }

  /** The "+N" badge: `min(step, total - current)`, a full step unless fewer
      items are left. */
  function Badge(current: int, step: int, total: int): (n: int)
    ensures n <= step && current + n <= total
    ensures n == step || current + n == total
  {
    Min(step, total - current)
  }

  /** The badge announces exactly what the next click adds. */
  lemma BadgeIsNextIncrease(current: int, step: int, total: int)
    ensures Badge(current, step, total) == NextCount(current, step, total) - current
  {
  }

  /** The jobs counter after `clicks` presses of "Load More Jobs" on `total`
      recommendations, starting from the reset value. */
  function JobsCountAfter(clicks: nat, total: nat): int
  {
    if clicks == 0 then JOBS_STEP else NextCount(JobsCountAfter(clicks - 1, total), JOBS_STEP, total)
  }

  /** After at least one click the counter is `min(3 + 3 * clicks, total)`:
      it grows by three until it stops at the number of recommendations. */
  lemma {:induction false} JobsCountAfterClicks(clicks: nat, total: nat)
    requires clicks > 0
    ensures JobsCountAfter(clicks, total) == Min(JOBS_STEP + JOBS_STEP * clicks, total)
  {
    if clicks > 1 {
      JobsCountAfterClicks(clicks - 1, total);
    }
  }

  /** The skills counter of one job after `clicks` presses of "Load More
      Skills", starting from an entry that is not in the map. */
  function SkillsCountAfter(clicks: nat, title: string, total: nat): map<string, int>
  {
    if clicks == 0 then map[]
    else
      var counts := SkillsCountAfter(clicks - 1, title, total);
      counts[title := NextCount(SkillsCountOf(counts, title), SKILLS_STEP, total)]
  }

  /** For a job with at least one skill, the revealed count after `clicks`
      presses is `min(6 + 6 * clicks, total)`. */
  lemma {:induction false} SkillsCountAfterClicks(clicks: nat, title: string, total: nat)
    requires total > 0
    ensures SkillsCountOf(SkillsCountAfter(clicks, title, total), title)
            == if clicks == 0 then SKILLS_STEP else Min(SKILLS_STEP + SKILLS_STEP * clicks, total)
  {
    if clicks > 0 {
      SkillsCountAfterClicks(clicks - 1, title, total);
    }
  }

  /** `search.data?.data || []`: the suggestions, or none while there is no
      response. */
  function Suggestions(response: Option<Envelope<seq<string>>>): (r: seq<string>)
    ensures response.Some? && response.value.data.Some? ==> r == response.value.data.value
    ensures response.None? || response.value.data.None? ==> r == []
  {
    if response.Some? && response.value.data.Some? then response.value.data.value else []
  }

  /** The suggestion query runs for a debounced input of two or more UTF-16
      code units; for text within the Basic Multilingual Plane that is two or
      more characters. */
  function SuggestionsEnabled(debounced: string): (b: bool)
    ensures b <==> Utf16Length(debounced) >= 2
    ensures (forall i :: 0 <= i < |debounced| ==> debounced[i] as int <= 0xFFFF) ==> (b <==> |debounced| >= 2)
    ensures |debounced| >= 2 ==> b
  {
    Utf16Length(debounced) >= 2
  }

  /** One character beyond U+FFFF is enough: "\U{1F600}" is a single
      character but two code units long, so it starts the query. */
  lemma AstralCharacterEnablesSuggestions()
    ensures |"\U{1F600}"| == 1 && SuggestionsEnabled("\U{1F600}")
  {
    assert Utf16Length("\U{1F600}"[1..]) == 0;
  }

  class JobMatchState {
    var inputValue: string
    var isDropdownOpen: bool
    var country: string
    var skills: seq<string>
    var visibleSkillsCount: map<string, int>
    var visibleJobsCount: int

    /** The chosen skills are duplicate-free and no reveal counter is
        negative. */
    ghost predicate Valid()
      reads this
    {
      && Distinct(skills)
      && visibleJobsCount >= 0
      && forall t :: t in visibleSkillsCount ==> visibleSkillsCount[t] >= 0
    }

    constructor ()
      ensures Valid()
      ensures inputValue == "" && !isDropdownOpen && country == VIET_NAM && skills == []
      ensures visibleSkillsCount == map[] && visibleJobsCount == JOBS_STEP
    {
      inputValue := "";
      isDropdownOpen := false;
      country := VIET_NAM;
      skills := [];
      visibleSkillsCount := map[];
      visibleJobsCount := JOBS_STEP;
    }

    /** The raw input is kept; the dropdown opens iff it has visible text. */
    method HandleInputChange(value: string)
      modifies this
      requires Valid()
      ensures Valid()
      ensures inputValue == value && isDropdownOpen == (Trim(value) != "")
      ensures country == old(country) && skills == old(skills)
      ensures visibleSkillsCount == old(visibleSkillsCount) && visibleJobsCount == old(visibleJobsCount)
    {
      inputValue := value;
      isDropdownOpen := Trim(value) != "";
    }

    /** Enter on visible input commits a skill and clears the input; any other
        key, or Enter on blank input, changes nothing. */
    method HandleKeyDown(key: string, suggestions: seq<string>)
      modifies this
      requires Valid()
      ensures Valid()
      ensures key == "Enter" && Trim(old(inputValue)) != "" ==>
                skills == CommitOnEnter(old(skills), EnterCandidate(old(inputValue), suggestions))
                && inputValue == "" && !isDropdownOpen
      ensures !(key == "Enter" && Trim(old(inputValue)) != "") ==>
                skills == old(skills) && inputValue == old(inputValue) && isDropdownOpen == old(isDropdownOpen)
      ensures country == old(country)
      ensures visibleSkillsCount == old(visibleSkillsCount) && visibleJobsCount == old(visibleJobsCount)
    {
      if key == "Enter" && Trim(inputValue) != "" {
        var skill := "";
        if |suggestions| == 0 {
          skill := Trim(inputValue);
        } else {
          skill := suggestions[0];
        }
        if skill != "" {
          skills := AddIfAbsent(skills, skill);
        }
        inputValue := "";
        isDropdownOpen := false;
      }
    }

    /** A click on a suggestion commits its trimmed text and clears the input. */
    method HandleSkillSelect(skill: string)
      modifies this
      requires Valid()
      ensures Valid()
      ensures skills == AddIfAbsent(old(skills), Trim(skill))
      ensures inputValue == "" && !isDropdownOpen && country == old(country)
      ensures visibleSkillsCount == old(visibleSkillsCount) && visibleJobsCount == old(visibleJobsCount)
    {
      var newSkill := Trim(skill);
      skills := AddIfAbsent(skills, newSkill);
      inputValue := "";
      isDropdownOpen := false;
    }

    method RemoveTag(index: int)
      modifies this
      requires Valid()
      ensures Valid()
      ensures skills == RemoveAt(old(skills), index)
      ensures inputValue == old(inputValue) && isDropdownOpen == old(isDropdownOpen) && country == old(country)
      ensures visibleSkillsCount == old(visibleSkillsCount) && visibleJobsCount == old(visibleJobsCount)
    {
      RemoveAtDistinct(skills, index);
      skills := RemoveAt(skills, index);
    }

    method HandleCountryChange(value: string)
      modifies this
      requires Valid()
      ensures Valid()
      ensures country == value
      ensures inputValue == old(inputValue) && isDropdownOpen == old(isDropdownOpen) && skills == old(skills)
      ensures visibleSkillsCount == old(visibleSkillsCount) && visibleJobsCount == old(visibleJobsCount)
    {
      country := value;
    }

    /** A mouse-down outside the dropdown closes it. */
    method HandleClickOutside(outside: bool)
      modifies this
      requires Valid()
      ensures Valid()
      ensures isDropdownOpen == (old(isDropdownOpen) && !outside)
      ensures inputValue == old(inputValue) && country == old(country) && skills == old(skills)
      ensures visibleSkillsCount == old(visibleSkillsCount) && visibleJobsCount == old(visibleJobsCount)
    {
      if outside {
        isDropdownOpen := false;
      }
    }

    /** The recommendation query runs once a skill is chosen and a country is set. */
    function RecommendationsEnabled(): (b: bool)
      reads this
      ensures b <==> skills != [] && country != ""
    {
      RecommendationsGate(skills, country)
    }

    function GetVisibleSkillsCount(jobTitle: string): (n: int)
      reads this
      requires Valid()
      ensures n >= 0
    {
      SkillsCountOf(visibleSkillsCount, jobTitle)
    }

    /** Reveals six more skills of one job, up to all of them; no other job's
        entry changes. */
    method LoadMoreSkills(jobTitle: string, totalSkills: nat)
      modifies this
      requires Valid()
      ensures Valid()
      ensures visibleSkillsCount
              == old(visibleSkillsCount)[jobTitle := NextCount(old(GetVisibleSkillsCount(jobTitle)), SKILLS_STEP, totalSkills)]
      ensures forall t :: t != jobTitle ==> GetVisibleSkillsCount(t) == old(GetVisibleSkillsCount(t))
      ensures inputValue == old(inputValue) && isDropdownOpen == old(isDropdownOpen)
      ensures country == old(country) && skills == old(skills) && visibleJobsCount == old(visibleJobsCount)
    {
      var currentCount := GetVisibleSkillsCount(jobTitle);
      var newCount := Min(currentCount + SKILLS_STEP, totalSkills);
      visibleSkillsCount := visibleSkillsCount[jobTitle := newCount];
    }

    /** Reveals three more job cards, up to all `total` of them. */
    method LoadMoreJobs(total: nat)
      modifies this
      requires Valid()
      ensures Valid()
      ensures visibleJobsCount == NextCount(old(visibleJobsCount), JOBS_STEP, total)
      ensures visibleJobsCount <= total
      ensures inputValue == old(inputValue) && isDropdownOpen == old(isDropdownOpen)
      ensures country == old(country) && skills == old(skills) && visibleSkillsCount == old(visibleSkillsCount)
    {
      visibleJobsCount := Min(visibleJobsCount + JOBS_STEP, total);
    }

    /** A new recommendation array resets the jobs counter; the per-job skills
        counters are kept. */
    method OnRecommendationsChanged()
      modifies this
      requires Valid()
      ensures Valid()
      ensures visibleJobsCount == JOBS_STEP
      ensures inputValue == old(inputValue) && isDropdownOpen == old(isDropdownOpen)
      ensures country == old(country) && skills == old(skills) && visibleSkillsCount == old(visibleSkillsCount)
    {
      visibleJobsCount := JOBS_STEP;
    }

    /** The job cards shown: `slice(0, visibleJobsCount)`. */
    function VisibleJobs<T>(jobs: seq<T>): (r: seq<T>)
      reads this
      ensures |r| <= |jobs| && r == jobs[..|r|]
      requires Valid()
      ensures |r| == Min(visibleJobsCount, |jobs|)
    {
      Take(jobs, visibleJobsCount)
    }

    /** "Load More Jobs" is offered while some job cards are hidden. */
    function ShowLoadMoreJobs<T>(jobs: seq<T>): (b: bool)
      reads this
      requires Valid()
      ensures b <==> |VisibleJobs(jobs)| < |jobs|
    {
      visibleJobsCount < |jobs|
    }

    /** The skills of one job shown: `slice(0, getVisibleSkillsCount(title))`. */
    function VisibleSkills<T>(jobTitle: string, jobSkills: seq<T>): (r: seq<T>)
      reads this
      ensures |r| <= |jobSkills| && r == jobSkills[..|r|]
      requires Valid()
      ensures |r| == Min(GetVisibleSkillsCount(jobTitle), |jobSkills|)
    {
      Take(jobSkills, GetVisibleSkillsCount(jobTitle))
    }

    /** "Load More Skills" is offered for a job with more than six skills while
        some are hidden. */
    function ShowLoadMoreSkills<T>(jobTitle: string, jobSkills: seq<T>): (b: bool)
      reads this
      requires Valid()
      ensures b <==> |jobSkills| > SKILLS_STEP && |VisibleSkills(jobTitle, jobSkills)| < |jobSkills|
    {
      |jobSkills| > SKILLS_STEP && GetVisibleSkillsCount(jobTitle) < |jobSkills|
    }
  }

  /** The `enabled` flag of the recommendation query,
      `selectedSkills.length > 0 && !!selectedCountry`, shared by both
      pickers. */
  function RecommendationsGate(skills: seq<string>, country: string): (b: bool)
    ensures b <==> skills != [] && country != ""
  {
    |skills| > 0 && Enabled([country])
  }

  /** Typing "Rust" and pressing Enter before any suggestion has arrived
      commits the typed text. */
  method EnterWithoutSuggestionsCommitsInput() returns (skills: seq<string>)
    ensures skills == ["Rust"]
  {
    var m := new JobMatchState();
    m.HandleInputChange("Rust");
    assert Trim("Rust") == "Rust";
    m.HandleKeyDown("Enter", []);
    skills := m.skills;
  }
}
