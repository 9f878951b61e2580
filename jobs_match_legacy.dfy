/**
 * The older copy of the skill-tag picker. It differs from the job-match
 * panel on Enter: it always takes the first suggestion, tests the untrimmed
 * suggestion for membership but stores it trimmed, and with no suggestion at
 * all it calls `trim` on `undefined`, which throws before any state changes.
 */
module JobsMatchLegacy {
  import opened Text
  import opened Data
  import opened JobMatch

  /** Every stored skill is already trimmed. */
  ghost predicate AllTrimmed(skills: seq<string>) {
    forall k :: 0 <= k < |skills| ==> Trim(skills[k]) == skills[k]
  }

  /** Enter with suggestion `s`, as written: `skills.includes(s)` decides,
      `s.trim()` is stored. */
  function LegacyCommit(skills: seq<string>, s: string): (r: seq<string>)
    ensures |skills| <= |r| <= |skills| + 1 && r[..|skills|] == skills
    ensures s in skills ==> r == skills
    ensures s !in skills ==> r == skills + [Trim(s)]
    ensures AllTrimmed(skills) ==> AllTrimmed(r)
  {
    TrimIdempotent(s);
    if s in skills then skills else skills + [Trim(s)]
  }

  /** A suggestion padded with whitespace passes the membership test and adds
      a second copy of a tag that is already chosen. */
  lemma PaddedSuggestionDuplicates()
    ensures LegacyCommit(["Python"], " Python") == ["Python", "Python"]
    ensures !Distinct(LegacyCommit(["Python"], " Python"))
  {
    assert " Python" != "Python";
    assert Trim(" Python") == Trim("Python") == "Python";
    var r := LegacyCommit(["Python"], " Python");
    assert r[0] == r[1];
  }

  class LegacyJobMatchState {
    var inputValue: string
    var isDropdownOpen: bool
    var country: string
    var skills: seq<string>

    ghost predicate Valid()
      reads this
    {
      AllTrimmed(skills)
    }

    constructor ()
      ensures Valid()
      ensures inputValue == "" && !isDropdownOpen && country == VIET_NAM && skills == []
    {
      inputValue := "";
      isDropdownOpen := false;
      country := VIET_NAM;
      skills := [];
    }

    method HandleInputChange(value: string)
      modifies this
      requires Valid()
      ensures Valid()
      ensures inputValue == value && isDropdownOpen == (Trim(value) != "")
      ensures country == old(country) && skills == old(skills)
    {
      inputValue := value;
      isDropdownOpen := Trim(value) != "";
    }

    /** Enter on visible input commits the first suggestion; `thrown` reports
        the TypeError raised when there is none, in which case nothing changes. */
    method HandleKeyDown(key: string, suggestions: seq<string>) returns (thrown: bool)
      modifies this
      requires Valid()
      ensures Valid()
      ensures thrown <==> key == "Enter" && Trim(old(inputValue)) != "" && suggestions == []
      ensures key == "Enter" && Trim(old(inputValue)) != "" && suggestions != [] ==>
                skills == LegacyCommit(old(skills), suggestions[0]) && inputValue == "" && !isDropdownOpen
      ensures !(key == "Enter" && Trim(old(inputValue)) != "" && suggestions != []) ==>
                skills == old(skills) && inputValue == old(inputValue) && isDropdownOpen == old(isDropdownOpen)
      ensures country == old(country)
    {
      thrown := false;
      if key == "Enter" && Trim(inputValue) != "" {
        if |suggestions| == 0 {
          thrown := true;
          return;
        }
        var skill := suggestions[0];
        skills := LegacyCommit(skills, skill);
        inputValue := "";
        isDropdownOpen := false;
      }
    }

    method HandleSkillSelect(skill: string)
      modifies this
      requires Valid()
      ensures Valid()
      ensures skills == AddIfAbsent(old(skills), Trim(skill))
      ensures inputValue == "" && !isDropdownOpen && country == old(country)
    {
      TrimIdempotent(skill);
      var newSkill := Trim(skill);
      skills := AddIfAbsent(skills, newSkill);
      inputValue := "";
      isDropdownOpen := false;
    }

    method RemoveTag(index: int)
      modifies this
      requires Valid()
      ensures Valid()
      ensures skills == RemoveAt(old(skills), index)
      ensures inputValue == old(inputValue) && isDropdownOpen == old(isDropdownOpen) && country == old(country)
    {
      RemoveAtSubset(skills, index);
      skills := RemoveAt(skills, index);
    }

    method HandleCountryChange(value: string)
      modifies this
      requires Valid()
      ensures Valid()
      ensures country == value
      ensures inputValue == old(inputValue) && isDropdownOpen == old(isDropdownOpen) && skills == old(skills)
    {
      country := value;
    }

    /** The same gate as the current picker's. */
    function RecommendationsEnabled(): (b: bool)
      reads this
      ensures b <==> skills != [] && country != ""
    {
      JobMatch.RecommendationsGate(skills, country)
    }
  }

  /** Typing "Rust" and pressing Enter before any suggestion has arrived
      throws and leaves the list empty. */
  method EnterWithoutSuggestionsThrows() returns (thrown: bool, skills: seq<string>)
    ensures thrown && skills == []
  {
    var m := new LegacyJobMatchState();
    m.HandleInputChange("Rust");
    assert Trim("Rust") == "Rust";
    thrown := m.HandleKeyDown("Enter", []);
    skills := m.skills;
  }
}
