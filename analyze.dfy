/**
 * The request paths of the analytics service facade. Every service function
 * issues one GET on a path that is a template string `path?name=value&...`:
 * the values are pasted in verbatim, with no escaping, and a skill list is
 * joined with ",". The GET itself goes to the HTTP client and is not part of
 * this model, except that the client sends a URL without its fragment: the
 * text from the first '#' on never leaves the browser.
 */
module Analyze {
  import opened Text

  /** A path without a query or a fragment. */
  type Path = s: string | '?' !in s && '#' !in s

  /** A parameter name of the service. */
  type Name = s: string | '&' !in s && '=' !in s && '#' !in s

  const COUNTRIES_URL: Path := "/analyze/countries"
  const JOB_BY_COUNTRY_PATH: Path := "/analyze/get-job-by-country"
  const SKILLS_BY_TITLE_AND_COUNTRY_PATH: Path := "/analyze/job-skills-by-title-and-country"
  const JOB_BY_SKILLS_AND_COUNTRY_PATH: Path := "/analyze/job-by-skills-and-country"
  const SKILLS_PATH: Path := "/analyze/skills"
  const JOB_RECOMMENDATIONS_PATH: Path := "/analyze/job-recommendations"
  const JOBS_TREND_PATH: Path := "/analyze/jobs-trend"
  const SKILL_BY_COUNTRY_PATH: Path := "/analyze/skill-by-country"
  const GLOBAL_SKILLS_PATH: Path := "/analyze/global-skills"

  const SEARCH_COUNTRY: Name := "search_country"
  const COUNTRY: Name := "country"
  const LIMIT: Name := "limit"
  const JOB_TITLE: Name := "job_title"
  const INPUT_SKILLS: Name := "input_skills"
  const CHARACTER: Name := "character"
  const VALUE: Name := "value"

  /** One parameter "name=value". */
  function Segment(param: (Name, string)): string
  {
    param.0 + "=" + param.1
  }

  /** The query "name=value&name=value..." of a list of parameters. */
  function RenderQuery(params: seq<(Name, string)>): string
    requires |params| > 0
  {
    if |params| == 1 then Segment(params[0])
    else Segment(params[0]) + "&" + RenderQuery(params[1..])
  }

  /** A path followed by its query. */
  function Url(path: Path, params: seq<(Name, string)>): string
    requires |params| > 0
  {
    path + "?" + RenderQuery(params)
  }

  function JobByCountryUrl(country: string, limit: int): string
  {
    Url(JOB_BY_COUNTRY_PATH, [(SEARCH_COUNTRY, country), (LIMIT, IntToString(limit))])
  }

  /** The parameters come in the order country, limit, job_title. */
  function SkillsByJobAndCountryUrl(country: string, jobTitle: string, limit: int): string
  {
    Url(SKILLS_BY_TITLE_AND_COUNTRY_PATH, [(COUNTRY, country), (LIMIT, IntToString(limit)), (JOB_TITLE, jobTitle)])
  }

  function JobBySkillsAndCountryUrl(skills: seq<string>, country: string, limit: int): string
  {
    Url(JOB_BY_SKILLS_AND_COUNTRY_PATH,
        [(INPUT_SKILLS, Join(skills, ',')), (SEARCH_COUNTRY, country), (LIMIT, IntToString(limit))])
  }

  function SkillsUrl(character: string): string
  {
    Url(SKILLS_PATH, [(CHARACTER, character)])
  }

  function JobRecommendationsUrl(skills: seq<string>, country: string, limit: int): string
  {
    Url(JOB_RECOMMENDATIONS_PATH,
        [(INPUT_SKILLS, Join(skills, ',')), (SEARCH_COUNTRY, country), (LIMIT, IntToString(limit))])
  }

  function JobsTrendUrl(limit: int, value: int): string
  {
    Url(JOBS_TREND_PATH, [(LIMIT, IntToString(limit)), (VALUE, IntToString(value))])
  }

  function SkillsByCountryUrl(searchCountry: string, limit: int): string
  {
    Url(SKILL_BY_COUNTRY_PATH, [(SEARCH_COUNTRY, searchCountry), (LIMIT, IntToString(limit))])
  }

  function GlobalSkillsUrl(limit: int): string
  {
    Url(GLOBAL_SKILLS_PATH, [(LIMIT, IntToString(limit))])
  }

  /** What goes on the wire: the URL up to its first '#'; the rest is a
      fragment, which the browser keeps to itself. */
  function Sent(url: string): string { SplitAtFirst(url, '#').0 }

  // How a server reads a request back: the path ends at the first '?', the
  // query is split on '&', and each parameter at its first '='.

  function PathOf(url: string): string { SplitAtFirst(url, '?').0 }

  function QueryOf(url: string): string { SplitAtFirst(url, '?').1 }

  function ParseSegments(segments: seq<string>): (r: seq<(string, string)>)
    ensures |r| == |segments|
    ensures forall i :: 0 <= i < |r| ==> r[i] == SplitAtFirst(segments[i], '=')
  {
    if segments == [] then [] else [SplitAtFirst(segments[0], '=')] + ParseSegments(segments[1..])
  }

  function ParseQuery(query: string): seq<(string, string)>
  {
    ParseSegments(Split(query, '&'))
  }

  /** No value contains '&' or '#': what verbatim pasting needs so that the
      whole query is sent and can be read back. */
  predicate Unambiguous(params: seq<(Name, string)>)
  {
    forall i :: 0 <= i < |params| ==> '&' !in params[i].1 && '#' !in params[i].1
  }

  /** A rendered query holds a character only if a name or a value does, or
      it is one of the two delimiters. */
  lemma {:induction false} RenderQueryFree(params: seq<(Name, string)>, c: char)
    requires |params| > 0 && c != '=' && c != '&'
    requires forall i :: 0 <= i < |params| ==> c !in params[i].0 && c !in params[i].1
    ensures c !in RenderQuery(params)
  {
    if |params| > 1 {
      RenderQueryFree(params[1..], c);
    }
  }

  lemma {:induction false} ParseRenderQuery(params: seq<(Name, string)>)
    requires |params| > 0 && Unambiguous(params)
    ensures ParseQuery(RenderQuery(params)) == params
  {
    var seg := Segment(params[0]);
    assert seg == params[0].0 + ['='] + params[0].1;
    assert '&' !in seg;
    SplitAtFirstOf(params[0].0, params[0].1, '=');
    if |params| == 1 {
      SplitWithoutSeparator(seg, '&');
      assert ParseSegments([seg]) == [SplitAtFirst(seg, '=')] + ParseSegments([]);
    } else {
      ParseRenderQuery(params[1..]);
      SplitAfterFirstSeparator(seg, RenderQuery(params[1..]), '&');
      assert RenderQuery(params) == seg + ['&'] + RenderQuery(params[1..]);
      assert [params[0]] + params[1..] == params;
    }
  }

  /** As long as no value contains '&' or '#', the whole URL is sent, and a
      server reading it back gets the path and every parameter, in order. */
  lemma ReadBack(path: Path, params: seq<(Name, string)>)
    requires |params| > 0 && Unambiguous(params)
    ensures Sent(Url(path, params)) == Url(path, params)
    ensures PathOf(Url(path, params)) == path
    ensures ParseQuery(QueryOf(Url(path, params))) == params
  {
    RenderQueryFree(params, '#');
    SplitAtFirstOf(path, RenderQuery(params), '?');
    ParseRenderQuery(params);
  }

  lemma ReadBackThree(path: Path, n1: Name, v1: string, n2: Name, v2: string, n3: Name, v3: string)
    requires '&' !in v1 && '&' !in v2 && '&' !in v3
    requires '#' !in v1 && '#' !in v2 && '#' !in v3
    ensures Sent(Url(path, [(n1, v1), (n2, v2), (n3, v3)])) == Url(path, [(n1, v1), (n2, v2), (n3, v3)])
    ensures PathOf(Url(path, [(n1, v1), (n2, v2), (n3, v3)])) == path
    ensures ParseQuery(QueryOf(Url(path, [(n1, v1), (n2, v2), (n3, v3)]))) == [(n1, v1), (n2, v2), (n3, v3)]
  {
    ReadBack(path, [(n1, v1), (n2, v2), (n3, v3)]);
  }

  /** The first parameter arrives intact whatever follows it, provided its
      own value holds neither '&' nor '#'. */
  lemma FirstParameterSent(path: Path, params: seq<(Name, string)>)
    requires |params| > 0 && '&' !in params[0].1 && '#' !in params[0].1
    ensures var query := ParseQuery(QueryOf(Sent(Url(path, params))));
            |query| > 0 && query[0] == params[0]
  {
    if |params| == 1 {
      ReadBack(path, params);
    } else {
      var seg := Segment(params[0]);
      assert seg == params[0].0 + ['='] + params[0].1;
      SplitAtFirstOf(params[0].0, params[0].1, '=');
      var rest := RenderQuery(params[1..]);
      assert Url(path, params) == path + ['?'] + (seg + ['&'] + rest);
      var r := SentAfter(path, seg, rest);
      SplitAtFirstOf(path, seg + ['&'] + r, '?');
      SplitAfterFirstSeparator(seg, r, '&');
    }
  }

  /** A fragment mark after the first parameter cuts only what follows it. */
  lemma SentAfter(path: Path, seg: string, rest: string) returns (r: string)
    requires '#' !in seg
    ensures Sent(path + ['?'] + (seg + ['&'] + rest)) == path + ['?'] + (seg + ['&'] + r)
  {
    var head := path + ['?'] + seg;
    assert '#' !in head;
    SplitAtFirstAfter(head, ['&'] + rest, '#');
    SplitAtFirstAfter(['&'], rest, '#');
    r := SplitAtFirst(rest, '#').0;
    Regroup(path, ['?'], seg, ['&'], rest);
    Regroup(path, ['?'], seg, ['&'], r);
  }

  lemma Regroup<T>(a: seq<T>, b: seq<T>, c: seq<T>, d: seq<T>, e: seq<T>)
    ensures a + b + (c + d + e) == (a + b + c) + (d + e)
  {
  }

  /** The recommendations request carries the joined skills, the country and
      the limit, in that order, whenever no value contains '&' or '#'. */
  lemma JobRecommendationsUrlReadsBack(skills: seq<string>, country: string, limit: int)
    requires forall k :: 0 <= k < |skills| ==> '&' !in skills[k] && '#' !in skills[k]
    requires '&' !in country && '#' !in country
    ensures var url := Sent(JobRecommendationsUrl(skills, country, limit));
            PathOf(url) == JOB_RECOMMENDATIONS_PATH &&
            ParseQuery(QueryOf(url)) ==
              [(INPUT_SKILLS, Join(skills, ',')), (SEARCH_COUNTRY, country), (LIMIT, IntToString(limit))]
  {
    JoinFree(skills, ',', '&');
    JoinFree(skills, ',', '#');
    IntToStringPlain(limit);
    ReadBackThree(JOB_RECOMMENDATIONS_PATH, INPUT_SKILLS, Join(skills, ','), SEARCH_COUNTRY, country, LIMIT, IntToString(limit));
  }

  /** From the recommendations request the server gets back exactly the
      selected skills precisely when there is at least one and none contains
      ','; a skill with '&' or '#' cuts the value itself. */
  lemma JobRecommendationsSkillsRoundTrip(skills: seq<string>, country: string, limit: int)
    requires forall k :: 0 <= k < |skills| ==> '&' !in skills[k] && '#' !in skills[k]
    ensures var query := ParseQuery(QueryOf(Sent(JobRecommendationsUrl(skills, country, limit))));
            |query| > 0 && query[0].0 == INPUT_SKILLS &&
            (Split(query[0].1, ',') == skills <==>
               |skills| > 0 && forall k :: 0 <= k < |skills| ==> ',' !in skills[k])
  {
    JoinFree(skills, ',', '&');
    JoinFree(skills, ',', '#');
    FirstParameterSent(JOB_RECOMMENDATIONS_PATH,
                       [(INPUT_SKILLS, Join(skills, ',')), (SEARCH_COUNTRY, country), (LIMIT, IntToString(limit))]);
    SplitJoinIff(skills, ',');
  }

  /** Nothing is escaped, so a '#' in a skill starts a fragment: for the
      skills "C#" and "Java" the request ends after "input_skills=C", and the
      other skill, the country and the limit never reach the server. */
  lemma FragmentCutsRequest()
    ensures ParseQuery(QueryOf(Sent(JobRecommendationsUrl(["C#", "Java"], "Canada", 10))))
            == [(INPUT_SKILLS, "C")]
  {
    assert Join(["C#", "Java"], ',') == "C" + ['#'] + ",Java";
    FirstValueCut(JOB_RECOMMENDATIONS_PATH, INPUT_SKILLS, "C", ",Java",
                  [(SEARCH_COUNTRY, "Canada"), (LIMIT, IntToString(10))]);
    ReadBack(JOB_RECOMMENDATIONS_PATH, [(INPUT_SKILLS, "C")]);
  }

  /** A '#' in the first value: what is sent ends where that value's text
      before the '#' ends. */
  lemma FirstValueCut(path: Path, name: Name, v1: string, v2: string, more: seq<(Name, string)>)
    requires '#' !in v1
    ensures Sent(Url(path, [(name, v1 + ['#'] + v2)] + more)) == Url(path, [(name, v1)])
  {
    var ps := [(name, v1 + ['#'] + v2)] + more;
    var tail := if more == [] then [] else ['&'] + RenderQuery(more);
    assert ps[0] == (name, v1 + ['#'] + v2) && ps[1..] == more;
    assert RenderQuery(ps) == Segment(ps[0]) + tail;
    Regroup2(path, ['?'], name, ['='], v1, ['#'], v2, tail);
    var head := path + ['?'] + (name + ['='] + v1);
    assert '#' !in head;
    SplitAtFirstOf(head, v2 + tail, '#');
  }

  lemma Regroup2<T>(a: seq<T>, b: seq<T>, c: seq<T>, d: seq<T>, e: seq<T>, f: seq<T>, g: seq<T>, h: seq<T>)
    ensures a + b + (c + d + (e + f + g) + h) == (a + b + (c + d + e)) + f + (g + h)
  {
  }

  lemma JobBySkillsAndCountryUrlReadsBack(skills: seq<string>, country: string, limit: int)
    requires forall k :: 0 <= k < |skills| ==> '&' !in skills[k] && '#' !in skills[k]
    requires '&' !in country && '#' !in country
    ensures var url := Sent(JobBySkillsAndCountryUrl(skills, country, limit));
            PathOf(url) == JOB_BY_SKILLS_AND_COUNTRY_PATH &&
            ParseQuery(QueryOf(url)) ==
              [(INPUT_SKILLS, Join(skills, ',')), (SEARCH_COUNTRY, country), (LIMIT, IntToString(limit))]
  {
    JoinFree(skills, ',', '&');
    JoinFree(skills, ',', '#');
    IntToStringPlain(limit);
    ReadBackThree(JOB_BY_SKILLS_AND_COUNTRY_PATH, INPUT_SKILLS, Join(skills, ','), SEARCH_COUNTRY, country, LIMIT, IntToString(limit));
  }

  lemma SkillsByJobAndCountryUrlReadsBack(country: string, jobTitle: string, limit: int)
    requires '&' !in country && '&' !in jobTitle && '#' !in country && '#' !in jobTitle
    ensures var url := Sent(SkillsByJobAndCountryUrl(country, jobTitle, limit));
            PathOf(url) == SKILLS_BY_TITLE_AND_COUNTRY_PATH &&
            ParseQuery(QueryOf(url)) == [(COUNTRY, country), (LIMIT, IntToString(limit)), (JOB_TITLE, jobTitle)]
  {
    IntToStringPlain(limit);
    ReadBack(SKILLS_BY_TITLE_AND_COUNTRY_PATH, [(COUNTRY, country), (LIMIT, IntToString(limit)), (JOB_TITLE, jobTitle)]);
  }

  lemma JobByCountryUrlReadsBack(country: string, limit: int)
    requires '&' !in country && '#' !in country
    ensures var url := Sent(JobByCountryUrl(country, limit));
            PathOf(url) == JOB_BY_COUNTRY_PATH &&
            ParseQuery(QueryOf(url)) == [(SEARCH_COUNTRY, country), (LIMIT, IntToString(limit))]
  {
    IntToStringPlain(limit);
    ReadBack(JOB_BY_COUNTRY_PATH, [(SEARCH_COUNTRY, country), (LIMIT, IntToString(limit))]);
  }

  lemma SkillsUrlReadsBack(character: string)
    requires '&' !in character && '#' !in character
    ensures PathOf(Sent(SkillsUrl(character))) == SKILLS_PATH &&
            ParseQuery(QueryOf(Sent(SkillsUrl(character)))) == [(CHARACTER, character)]
  {
    ReadBack(SKILLS_PATH, [(CHARACTER, character)]);
  }

  /** Nothing is escaped: a typed prefix containing '&' smuggles a second
      parameter into the skills query. */
  lemma SkillsUrlNotEscaped()
    ensures ParseQuery(QueryOf(Sent(SkillsUrl("R&limit=1")))) == [(CHARACTER, "R"), (LIMIT, "1")]
  {
    var ps := [(CHARACTER, "R"), (LIMIT, "1")];
    assert RenderQuery(ps) == "character" + "=" + "R" + "&" + ("limit" + "=" + "1") by {
      assert ps[1..] == [(LIMIT, "1")];
    }
    assert "R&limit=1" == "R" + "&" + "limit" + "=" + "1";
    assert SkillsUrl("R&limit=1") == Url(SKILLS_PATH, ps);
    ReadBack(SKILLS_PATH, ps);
  }

  lemma JobsTrendUrlReadsBack(limit: int, value: int)
    ensures var url := Sent(JobsTrendUrl(limit, value));
            PathOf(url) == JOBS_TREND_PATH &&
            ParseQuery(QueryOf(url)) == [(LIMIT, IntToString(limit)), (VALUE, IntToString(value))]
  {
    IntToStringPlain(limit);
    IntToStringPlain(value);
    ReadBack(JOBS_TREND_PATH, [(LIMIT, IntToString(limit)), (VALUE, IntToString(value))]);
  }

  lemma SkillsByCountryUrlReadsBack(searchCountry: string, limit: int)
    requires '&' !in searchCountry && '#' !in searchCountry
    ensures var url := Sent(SkillsByCountryUrl(searchCountry, limit));
            PathOf(url) == SKILL_BY_COUNTRY_PATH &&
            ParseQuery(QueryOf(url)) == [(SEARCH_COUNTRY, searchCountry), (LIMIT, IntToString(limit))]
  {
    IntToStringPlain(limit);
    ReadBack(SKILL_BY_COUNTRY_PATH, [(SEARCH_COUNTRY, searchCountry), (LIMIT, IntToString(limit))]);
  }

  lemma GlobalSkillsUrlReadsBack(limit: int)
    ensures PathOf(Sent(GlobalSkillsUrl(limit))) == GLOBAL_SKILLS_PATH &&
            ParseQuery(QueryOf(Sent(GlobalSkillsUrl(limit)))) == [(LIMIT, IntToString(limit))]
  {
    IntToStringPlain(limit);
    ReadBack(GLOBAL_SKILLS_PATH, [(LIMIT, IntToString(limit))]);
  }

  /** The countries path has no query at all. */
  lemma CountriesUrlHasNoQuery()
    ensures PathOf(COUNTRIES_URL) == COUNTRIES_URL && QueryOf(COUNTRIES_URL) == ""
  {
  }

  // The paths escaped as `encodeURIComponent` would escape the characters
  // that verbatim pasting cannot carry, read back by a server that decodes
  // them again as a form decoder does.

  function EscapeChar(c: char): string
  {
    if c == '%' then "%25"
    else if c == '&' then "%26"
    else if c == '#' then "%23"
    else if c == '+' then "%2B"
    else [c]
  }

  /** A value with '%', '&', '#' and '+' percent-escaped; neither a
      parameter delimiter nor a fragment mark is left. */
  function Escape(s: string): (r: string)
    ensures '&' !in r && '#' !in r
  {
    if s == [] then [] else EscapeChar(s[0]) + Escape(s[1..])
  }

  /** A form decoder on those escapes: "%25", "%26", "%23" and "%2B" become
      '%', '&', '#' and '+', and a '+' becomes a space. */
  function Unescape(s: string): string
  {
    if s == [] then []
    else if |s| >= 3 && s[..3] == "%25" then "%" + Unescape(s[3..])
    else if |s| >= 3 && s[..3] == "%26" then "&" + Unescape(s[3..])
    else if |s| >= 3 && s[..3] == "%23" then "#" + Unescape(s[3..])
    else if |s| >= 3 && s[..3] == "%2B" then "+" + Unescape(s[3..])
    else if s[0] == '+' then " " + Unescape(s[1..])
    else [s[0]] + Unescape(s[1..])
  }

  lemma UnescapeEscapeChar(c: char, t: string)
    ensures Unescape(EscapeChar(c) + t) == [c] + Unescape(t)
  {
    if c == '%' || c == '&' || c == '#' || c == '+' {
      UnescapeCode(EscapeChar(c), t);
    } else {
      var u := [c] + t;
      assert u[0] == c && u[1..] == t;
    }
  }

  /** One escape followed by more text decodes to its character first. */
  lemma UnescapeCode(code: string, t: string)
    requires code == "%25" || code == "%26" || code == "%23" || code == "%2B"
    ensures Unescape(code + t) ==
            [if code == "%25" then '%' else if code == "%26" then '&' else if code == "%23" then '#' else '+']
            + Unescape(t)
  {
    var u := code + t;
    assert u[..3] == code && u[3..] == t;
  }

  /** Decoding an escaped value gives the value back. */
  lemma {:induction false} UnescapeEscape(s: string)
    ensures Unescape(Escape(s)) == s
  {
    if s != [] {
      UnescapeEscapeChar(s[0], Escape(s[1..]));
      UnescapeEscape(s[1..]);
      assert [s[0]] + s[1..] == s;
    }
  }

  function EscapeParams(params: seq<(Name, string)>): (r: seq<(Name, string)>)
    ensures |r| == |params| && Unambiguous(r)
    ensures forall i :: 0 <= i < |r| ==> r[i] == (params[i].0, Escape(params[i].1))
  {
    seq(|params|, i requires 0 <= i < |params| => (params[i].0, Escape(params[i].1)))
  }

  function EscapedUrl(path: Path, params: seq<(Name, string)>): string
    requires |params| > 0
  {
    Url(path, EscapeParams(params))
  }

  /** With every value escaped, any values at all arrive: the whole URL is
      sent, and the decoded parameters are the original ones, in order. */
  lemma EscapedReadBack(path: Path, params: seq<(Name, string)>)
    requires |params| > 0
    ensures Sent(EscapedUrl(path, params)) == EscapedUrl(path, params)
    ensures PathOf(EscapedUrl(path, params)) == path
    ensures var got := ParseQuery(QueryOf(EscapedUrl(path, params)));
            |got| == |params| &&
            forall i :: 0 <= i < |params| ==> got[i].0 == params[i].0 && Unescape(got[i].1) == params[i].1
  {
    ReadBack(path, EscapeParams(params));
    forall i | 0 <= i < |params| ensures Unescape(Escape(params[i].1)) == params[i].1 {
      UnescapeEscape(params[i].1);
    }
  }
}
