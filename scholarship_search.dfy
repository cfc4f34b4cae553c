/** `fetch_scholarship_info` of src/agents/scholarship_search_agent.py. It
    parses five lines per entry into keywords that `ScholarshipInfo` does not
    have, so every entry fails validation and is skipped. */
module ScholarshipSearchAgent {
  import opened PyJson
  import opened PyStr
  import opened Models
  import opened LlmInterface
  import opened ReplyParsing
  import opened ScholarshipInfoAgent

  /** The keyword dict the agent passes to `ScholarshipInfo`. */
  function SearchKwargs(name: string, country: string, eligibility: string, amount: string, deadline: string)
    : (r: seq<Field>)
    ensures "description" !in Keys(r)
  {
    [ Field("name", JStr(name)),
      Field("country", JStr(country)),
      Field("eligibility_criteria", JStr(eligibility)),
      Field("award_amount", JStr(amount)),
      Field("application_deadline", JStr(deadline)) ]
  }

  /** The keyword arguments built from the first five lines of an entry. */
  function SearchEntryFields(lines: seq<string>): (r: seq<Field>)
    requires |lines| >= 5
    ensures "description" !in Keys(r)
  {
    SearchKwargs(Clean(lines[0], "1. "), Clean(lines[1], "Country: "), Clean(lines[2], "Eligibility Criteria: "),
                 Clean(lines[3], "Award Amount: "), Clean(lines[4], "Application Deadline: "))
  }

  /** The body of the per-entry `try`, as written: fewer than five lines
      raise IndexError, otherwise `ScholarshipInfo(**fields)`. */
  function ParseSearchEntry(entry: string): (r: Option<ScholarshipInfo>)
    ensures r.Some? ==> |Split(entry, "\n")| >= 5
  {
    var lines := Split(entry, "\n");
    if |lines| < 5 then None else ValidateScholarshipInfo(SearchEntryFields(lines))
  }

  /** No entry is ever accepted: the keywords lack `description`, which
      `ScholarshipInfo` requires. */
  lemma SearchEntryRejected(entry: string)
    ensures ParseSearchEntry(entry) == None
  {
    var lines := Split(entry, "\n");
    if |lines| >= 5 {
      WithoutDescription(SearchEntryFields(lines));
    }
  }

  lemma WithoutDescription(kw: seq<Field>)
    requires "description" !in Keys(kw)
    ensures ValidateScholarshipInfo(kw) == None
  {
  }

  /** The parsing loop, as written. */
  method ParseSearchReply(reply: string) returns (scholarships: seq<ScholarshipInfo>)
    ensures scholarships == Collect(Entries(reply), ParseSearchEntry)
    ensures scholarships == []
  {
    var entries := Split(reply, "\n\n");
    scholarships := CollectEntries(entries, ParseSearchEntry);
    NothingCollected(entries);
  }

  /** Whatever the entries, the loop keeps none of them. */
  lemma NothingCollected(entries: seq<string>)
    ensures Collect(entries, ParseSearchEntry) == []
  {
    forall e: string
      ensures ParseSearchEntry(e) == None
    {
      SearchEntryRejected(e);
    }
    CollectNone(entries, ParseSearchEntry);
  }

  /** `[s.model_dump() for s in scholarships]`. */
  function DumpAll(ss: seq<ScholarshipInfo>): (r: seq<Json>)
    ensures |r| == |ss| && forall i :: 0 <= i < |ss| ==> r[i] == JObj(DumpScholarshipInfo(ss[i]))
  {
    seq(|ss|, i requires 0 <= i < |ss| => JObj(DumpScholarshipInfo(ss[i])))
  }

  /** `fetch_scholarship_info(student_info)`: `{}` for a falsy argument
      (without asking the model) or when the model call fails; a non-dict
      argument raises on `.get`; otherwise `{'scholarships': [...]}`, which
      is always empty. `asked` lists the prompts sent. */
  method FetchScholarshipInfo(student: StudentArg, llm: Query -> Reply)
    returns (r: Outcome<Json>, asked: seq<Query>)
    ensures var v := AsValue(student);
      (!Truthy(v) ==> r == Returned(JObj([])) && asked == []) &&
      (Truthy(v) && !v.JObj? ==> r.Raised? && asked == []) &&
      (Truthy(v) && v.JObj? ==> asked == [Query(v.fields, Countries(v.fields))])
    ensures var v := AsValue(student);
      Truthy(v) && v.JObj? ==>
        match llm(Query(v.fields, Countries(v.fields)))
        case Failed(_) => r == Returned(JObj([]))
        case Answered(_) => r == Returned(JObj([Field("scholarships", JList([]))]))
  {
    var v := AsValue(student);
    asked := [];
    if !Truthy(v) {
      r := Returned(JObj([]));
      return;
    }
    if !v.JObj? {
      r := Raised("AttributeError: object has no attribute 'get'");
      return;
    }
    var q := Query(v.fields, Countries(v.fields));
    asked := [q];
    match llm(q)
    case Failed(_) =>
      r := Returned(JObj([]));
    case Answered(text) =>
      var scholarships := ParseSearchReply(text);
      r := Returned(JObj([Field("scholarships", JList(DumpAll(scholarships)))]));
  }

  // The record the five-line format evidently describes, as the agent's
  // display code reads it (`name`, `country`, `eligibility_criteria`,
  // `award_amount`, `application_deadline`).

  datatype SearchScholarship = SearchScholarship(
    name: string, country: string, eligibilityCriteria: string, awardAmount: string, applicationDeadline: string)

  function ValidateSearchScholarship(kw: seq<Field>): (r: Option<SearchScholarship>)
    ensures r.Some? ==>
      Get(kw, "name") == Some(JStr(r.value.name)) && Get(kw, "country") == Some(JStr(r.value.country)) &&
      Get(kw, "eligibility_criteria") == Some(JStr(r.value.eligibilityCriteria)) &&
      Get(kw, "award_amount") == Some(JStr(r.value.awardAmount)) &&
      Get(kw, "application_deadline") == Some(JStr(r.value.applicationDeadline))
  {
    var name :- ReqStr(kw, "name");
    var country :- ReqStr(kw, "country");
    var eligibility :- ReqStr(kw, "eligibility_criteria");
    var amount :- ReqStr(kw, "award_amount");
    var deadline :- ReqStr(kw, "application_deadline");
    Some(SearchScholarship(name, country, eligibility, amount, deadline))
  }

  /** The per-entry parse with the record the keywords were written for. */
  function ParseSearchEntryIntended(entry: string): (r: Option<SearchScholarship>)
    ensures r.Some? ==> |Split(entry, "\n")| >= 5
  {
    var lines := Split(entry, "\n");
    if |lines| < 5 then None else ValidateSearchScholarship(SearchEntryFields(lines))
  }

  lemma SearchKwargsGet(a: string, b: string, c: string, d: string, e: string, k: string)
    ensures Get(SearchKwargs(a, b, c, d, e), k) ==
      if k == "name" then Some(JStr(a))
      else if k == "country" then Some(JStr(b))
      else if k == "eligibility_criteria" then Some(JStr(c))
      else if k == "award_amount" then Some(JStr(d))
      else if k == "application_deadline" then Some(JStr(e))
      else None
  {
    var f := SearchKwargs(a, b, c, d, e);
    var f1 := f[1..]; var f2 := f1[1..]; var f3 := f2[1..]; var f4 := f3[1..];
    GetFirst(f, k); GetFirst(f1, k); GetFirst(f2, k); GetFirst(f3, k); GetFirst(f4, k);
  }

  /** The intended record accepts the agent's keywords and keeps each value. */
  lemma SearchKwargsAccepted(a: string, b: string, c: string, d: string, e: string)
    ensures ValidateSearchScholarship(SearchKwargs(a, b, c, d, e)) == Some(SearchScholarship(a, b, c, d, e))
  {
    var kw := SearchKwargs(a, b, c, d, e);
    SearchKwargsGet(a, b, c, d, e, "name"); ReqStrOf(kw, "name", a);
    SearchKwargsGet(a, b, c, d, e, "country"); ReqStrOf(kw, "country", b);
    SearchKwargsGet(a, b, c, d, e, "eligibility_criteria"); ReqStrOf(kw, "eligibility_criteria", c);
    SearchKwargsGet(a, b, c, d, e, "award_amount"); ReqStrOf(kw, "award_amount", d);
    SearchKwargsGet(a, b, c, d, e, "application_deadline"); ReqStrOf(kw, "application_deadline", e);
    ValidateSearchScholarshipOf(kw, SearchScholarship(a, b, c, d, e));
  }

  lemma ValidateSearchScholarshipOf(kw: seq<Field>, s: SearchScholarship)
    requires ReqStr(kw, "name") == Some(s.name)
    requires ReqStr(kw, "country") == Some(s.country)
    requires ReqStr(kw, "eligibility_criteria") == Some(s.eligibilityCriteria)
    requires ReqStr(kw, "award_amount") == Some(s.awardAmount)
    requires ReqStr(kw, "application_deadline") == Some(s.applicationDeadline)
    ensures ValidateSearchScholarship(kw) == Some(s)
  {
  }

  /** With the intended record every entry of five or more lines is accepted,
      its fields being the cleaned first five lines. */
  lemma IntendedAccepts(entry: string)
    requires |Split(entry, "\n")| >= 5
    ensures var lines := Split(entry, "\n");
      ParseSearchEntryIntended(entry) == Some(SearchScholarship(
        Clean(lines[0], "1. "), Clean(lines[1], "Country: "), Clean(lines[2], "Eligibility Criteria: "),
        Clean(lines[3], "Award Amount: "), Clean(lines[4], "Application Deadline: ")))
  {
    var lines := Split(entry, "\n");
    SearchKwargsAccepted(Clean(lines[0], "1. "), Clean(lines[1], "Country: "), Clean(lines[2], "Eligibility Criteria: "),
                         Clean(lines[3], "Award Amount: "), Clean(lines[4], "Application Deadline: "));
  }

  /** With the intended record a reply whose entries all have five or more
      lines yields one scholarship per non-blank entry, where the code as
      written yields none. */
  lemma IntendedKeepsWellFormed(reply: string)
    requires forall e :: e in Entries(reply) ==> |Split(e, "\n")| >= 5
    ensures |Collect(Entries(reply), ParseSearchEntryIntended)| == NonBlank(Entries(reply))
    ensures Collect(Entries(reply), ParseSearchEntry) == []
  {
    IntendedAll(Entries(reply));
    forall e: string
      ensures ParseSearchEntry(e) == None
    {
      SearchEntryRejected(e);
    }
    CollectNone(Entries(reply), ParseSearchEntry);
  }

  lemma IntendedAll(entries: seq<string>)
    requires forall e :: e in entries ==> |Split(e, "\n")| >= 5
    ensures |Collect(entries, ParseSearchEntryIntended)| == NonBlank(entries)
  {
    forall e | e in entries
      ensures ParseSearchEntryIntended(e).Some?
    {
      IntendedAccepts(e);
    }
    CollectAll(entries, ParseSearchEntryIntended);
  }
}
