/** The two visa lookups: a first-match scan of the visa data by `country`.
    src/agents/visa_requirement_agent.py lets every exception through;
    src/agents/visa_info_agent.py turns any exception into None. */
module VisaRequirementAgent {
  import opened PyJson
  import opened Models
  import Utils

  /** `v['country']`: a dict gives the stored value or raises KeyError; any
      other value cannot be indexed by a string. */
  function CountryOf(v: Json): (r: Outcome<Json>)
    ensures r.Returned? <==> v.JObj? && "country" in Keys(v.fields)
    ensures r.Returned? ==> Get(v.fields, "country") == Some(r.value)
  {
    match v
    case JObj(fs) =>
      (match Get(fs, "country")
       case Some(c) => Returned(c)
       case None => Raised("KeyError: 'country'"))
    case _ => Raised("TypeError: indices must be integers")
  }

  /** An entry the scan passes over: a dict whose `country` is something else. */
  predicate Skipped(v: Json, country: string)
  {
    v.JObj? && "country" in Keys(v.fields) && Get(v.fields, "country") != Some(JStr(country))
  }

  /** An entry the scan stops at. */
  predicate Matches(v: Json, country: string)
  {
    v.JObj? && Get(v.fields, "country") == Some(JStr(country))
  }

  /** The scan: the first entry whose `country` equals the argument is built
      into a VisaInfo (`VisaInfo(**v)`, which raises if invalid). */
  function Find(items: seq<Json>, country: string): (r: Outcome<Option<VisaInfo>>)
    ensures r.Returned? && r.value.Some? ==> r.value.value.country == country
  {
    if items == [] then Returned(None)
    else
      var c :- CountryOf(items[0]);
      if c == JStr(country) then
        match ValidateVisaInfo(items[0].fields)
        case Some(v) => Returned(Some(v))
        case None => Raised("ValidationError")
      else Find(items[1..], country)
  }

  /** `fetch_visa_info(country)` of src/agents/visa_requirement_agent.py. */
  function FetchVisaInfo(file: Utils.FileRead, country: string): (r: Outcome<Option<VisaInfo>>)
    ensures r.Returned? && r.value.Some? ==> r.value.value.country == country
  {
    var items :- Iterate(Utils.LoadSampleData(file));
    Find(items, country)
  }

  /** The scan returns the record of entry `i` when every earlier entry is
      passed over and entry `i` matches. */
  lemma {:induction false} FindFirstMatch(items: seq<Json>, country: string, i: nat)
    requires i < |items| && Matches(items[i], country)
    requires forall j :: 0 <= j < i ==> Skipped(items[j], country)
    ensures Find(items, country) ==
      match ValidateVisaInfo(items[i].fields)
      case Some(v) => Returned(Some(v))
      case None => Raised("ValidationError")
  {
    if i > 0 {
      assert Skipped(items[0], country);
      FindFirstMatch(items[1..], country, i - 1);
    }
  }

  /** The scan finds nothing exactly when every entry is passed over. */
  lemma {:induction false} FindNone(items: seq<Json>, country: string)
    ensures Find(items, country) == Returned(None) <==>
      forall j :: 0 <= j < |items| ==> Skipped(items[j], country)
  {
    if items != [] {
      FindNone(items[1..], country);
      if Skipped(items[0], country) {
        assert forall j :: 1 <= j < |items| ==> items[1..][j - 1] == items[j];
      }
    }
  }

  /** An entry without `country` before any match raises. */
  lemma {:induction false} FindMissingCountry(items: seq<Json>, country: string, i: nat)
    requires i < |items| && !(items[i].JObj? && "country" in Keys(items[i].fields))
    requires forall j :: 0 <= j < i ==> Skipped(items[j], country)
    ensures Find(items, country).Raised?
  {
    if i > 0 {
      assert Skipped(items[0], country);
      FindMissingCountry(items[1..], country, i - 1);
    }
  }

  /** An unreadable file and empty data give None. */
  lemma EmptyData(file: Utils.FileRead, country: string)
    requires file.Unreadable? || file == Utils.Parsed(JList([])) || file == Utils.Parsed(JObj([]))
    ensures FetchVisaInfo(file, country) == Returned(None)
  {
  }
}

module VisaInfoAgent {
  import opened PyJson
  import opened Models
  import Utils
  import VisaRequirementAgent

  /** `fetch_visa_info(country)` of src/agents/visa_info_agent.py: the same
      scan, with every exception turned into None. */
  function FetchVisaInfo(file: Utils.FileRead, country: string): (r: Option<VisaInfo>)
    ensures r.Some? ==> r.value.country == country
  {
    match VisaRequirementAgent.FetchVisaInfo(file, country)
    case Returned(o) => o
    case Raised(_) => None
  }

  /** Where the unguarded lookup returns, this one returns the same; where it
      raises, this one gives None. */
  lemma AgreesWhenNoError(file: Utils.FileRead, country: string)
    ensures VisaRequirementAgent.FetchVisaInfo(file, country).Returned? ==>
      FetchVisaInfo(file, country) == VisaRequirementAgent.FetchVisaInfo(file, country).value
    ensures VisaRequirementAgent.FetchVisaInfo(file, country).Raised? ==> FetchVisaInfo(file, country) == None
  {
  }

  /** A list of visa entries: the first match is returned if it validates,
      and None if it does not. */
  lemma FirstMatch(items: seq<Json>, country: string, i: nat)
    requires i < |items| && VisaRequirementAgent.Matches(items[i], country)
    requires forall j :: 0 <= j < i ==> VisaRequirementAgent.Skipped(items[j], country)
    ensures FetchVisaInfo(Utils.Parsed(JList(items)), country) == ValidateVisaInfo(items[i].fields)
  {
    VisaRequirementAgent.FindFirstMatch(items, country, i);
  }

  /** An entry lacking `country` before any match makes the result None. */
  lemma MissingCountry(items: seq<Json>, country: string, i: nat)
    requires i < |items| && !(items[i].JObj? && "country" in Keys(items[i].fields))
    requires forall j :: 0 <= j < i ==> VisaRequirementAgent.Skipped(items[j], country)
    ensures FetchVisaInfo(Utils.Parsed(JList(items)), country) == None
  {
    VisaRequirementAgent.FindMissingCountry(items, country, i);
  }
}
