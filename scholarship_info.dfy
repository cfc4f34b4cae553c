/** Reading scholarships out of a language-model reply: the reply is cut at
    blank lines ("\n\n"), whitespace-only entries are skipped, and every other
    entry goes through a per-entry parser whose failures are skipped too. */
module ReplyParsing {
  import opened PyJson
  import opened PyStr

  /** `reply.split('\n\n')`. */
  function Entries(reply: string): (r: seq<string>)
    ensures |r| >= 1
  {
    Split(reply, "\n\n")
  }

  /** How many entries are not whitespace only. */
  function NonBlank(entries: seq<string>): (n: nat)
    ensures n <= |entries|
  {
    if entries == [] then 0 else (if Strip(entries[0]) != [] then 1 else 0) + NonBlank(entries[1..])
  }

  /** What the loop keeps of one entry: nothing for a blank entry or one the
      parser rejects, else the parsed record. */
  function Kept<T>(entry: string, parse: string -> Option<T>): (r: seq<T>)
    ensures |r| <= 1
    ensures |r| == 1 ==> Strip(entry) != [] && parse(entry) == Some(r[0])
    ensures Strip(entry) != [] && parse(entry).Some? ==> r == [parse(entry).value]
  {
    if Strip(entry) == [] then []
    else match parse(entry)
      case Some(x) => [x]
      case None => []
  }

  /** The records the loop collects from `entries`, in order. */
  function Collect<T>(entries: seq<string>, parse: string -> Option<T>): (r: seq<T>)
    ensures |r| <= NonBlank(entries)
  {
    if entries == [] then [] else Kept(entries[0], parse) + Collect(entries[1..], parse)
  }

  /** Collecting over two runs of entries is collecting over each, in order. */
  lemma {:induction false} CollectAppend<T>(xs: seq<string>, ys: seq<string>, parse: string -> Option<T>)
    ensures Collect(xs + ys, parse) == Collect(xs, parse) + Collect(ys, parse)
  {
    if xs == [] {
      assert xs + ys == ys;
    } else {
      assert (xs + ys)[1..] == xs[1..] + ys;
      CollectAppend(xs[1..], ys, parse);
    }
  }

  lemma CollectOne<T>(e: string, parse: string -> Option<T>)
    ensures Collect([e], parse) == Kept(e, parse)
  {
    assert [e][1..] == [];
  }

  /** One more turn of the loop keeps what entry `i` contributes. */
  lemma CollectStep<T>(entries: seq<string>, i: nat, parse: string -> Option<T>)
    requires i < |entries|
    ensures Collect(entries[..i + 1], parse) == Collect(entries[..i], parse) + Kept(entries[i], parse)
  {
    var e := entries[i];
    assert entries[..i + 1] == entries[..i] + [e];
    CollectAppend(entries[..i], [e], parse);
    CollectOne(e, parse);
  }

  /** An entry that contributes nothing does not disturb the others. */
  lemma CollectSkip<T>(before: seq<string>, e: string, after: seq<string>, parse: string -> Option<T>)
    requires Kept(e, parse) == []
    ensures Collect(before + [e] + after, parse) == Collect(before, parse) + Collect(after, parse)
  {
    CollectAppend(before + [e], after, parse);
    CollectAppend(before, [e], parse);
    CollectOne(e, parse);
  }

  /** Every collected record comes from a non-blank entry the parser
      accepts; `i` is that entry's position. */
  lemma {:induction false} CollectFrom<T>(entries: seq<string>, parse: string -> Option<T>, k: nat) returns (i: nat)
    requires k < |Collect(entries, parse)|
    ensures i < |entries| && Strip(entries[i]) != [] && parse(entries[i]) == Some(Collect(entries, parse)[k])
  {
    var head := Kept(entries[0], parse);
    var rest := Collect(entries[1..], parse);
    assert Collect(entries, parse) == head + rest;
    if k < |head| {
      i := 0;
    } else {
      var j := CollectFrom(entries[1..], parse, k - |head|);
      assert entries[1..][j] == entries[j + 1];
      i := j + 1;
    }
  }

  /** When the parser rejects every entry, nothing is collected. */
  lemma {:induction false} CollectNone<T>(entries: seq<string>, parse: string -> Option<T>)
    requires forall e :: parse(e) == None
    ensures Collect(entries, parse) == []
  {
    if entries != [] {
      CollectNone(entries[1..], parse);
    }
  }

  /** One turn of the loop: a non-blank entry is parsed, and its record
      kept when the parse succeeds. */
  method KeepEntry<T>(entry: string, parse: string -> Option<T>) returns (r: seq<T>)
    ensures r == Kept(entry, parse)
  {
    r := [];
    if Strip(entry) != [] {
      var parsed := parse(entry);
      if parsed.Some? {
        r := [parsed.value];
      }
    }
  }

  /** The loop both agents run over the entries of a reply: each non-blank
      entry is parsed inside a `try`, and a record is appended when the parse
      succeeds. */
  method CollectEntries<T>(entries: seq<string>, parse: string -> Option<T>) returns (kept: seq<T>)
    ensures kept == Collect(entries, parse)
  {
    kept := [];
    var i := 0;
    while i < |entries|
      invariant 0 <= i <= |entries|
      invariant kept == Collect(entries[..i], parse)
    {
      var k := KeepEntry(entries[i], parse);
      kept := kept + k;
      CollectStep(entries, i, parse);
      i := i + 1;
    }
    assert entries[..|entries|] == entries;
  }

  /** When the parser accepts every entry, one record is kept per non-blank entry. */
  lemma {:induction false} CollectAll<T>(entries: seq<string>, parse: string -> Option<T>)
    requires forall e :: e in entries ==> parse(e).Some?
    ensures |Collect(entries, parse)| == NonBlank(entries)
  {
    if entries != [] {
      assert entries[0] in entries;
      assert forall e :: e in entries[1..] ==> e in entries;
      CollectAll(entries[1..], parse);
    }
  }
}

/** `fetch_scholarship_info` of src/agents/scholarship_info_agent.py. */
module ScholarshipInfoAgent {
  import opened PyJson
  import opened PyStr
  import opened Models
  import opened LlmInterface
  import opened ReplyParsing

  /** The student argument: a StudentInfo instance or a plain value. */
  datatype StudentArg = Instance(s: StudentInfo) | Plain(v: Json)

  /** What the prompt carries: the profile dict and the preferred countries. */
  datatype Query = Query(profile: seq<Field>, countries: Json)

  /** `student_info.model_dump()` when it has one. */
  function AsValue(a: StudentArg): (r: Json)
    ensures a.Instance? ==> r == JObj(DumpStudentInfo(a.s)) && Truthy(r)
  {
    match a
    case Instance(s) => JObj(DumpStudentInfo(s))
    case Plain(v) => v
  }

  /** `student_info.get('preferred_countries', ['USA'])`. */
  function Countries(profile: seq<Field>): (r: Json)
    ensures "preferred_countries" !in Keys(profile) ==> r == JList([JStr("USA")])
    ensures "preferred_countries" in Keys(profile) ==> Some(r) == Get(profile, "preferred_countries")
  {
    GetOr(profile, "preferred_countries", JList([JStr("USA")]))
  }

  /** One field: the line with every `marker` removed, then stripped. */
  function Clean(line: string, marker: string): (r: string)
    requires marker != []
    ensures Strip(r) == r
  {
    StripIdempotent(Replace(line, marker, ""));
    Strip(Replace(line, marker, ""))
  }

  /** A line without the marker is only stripped. */
  lemma CleanPlain(line: string, marker: string)
    requires marker != [] && !Occurs(line, marker)
    ensures Clean(line, marker) == Strip(line)
  {
    ReplaceAbsent(line, marker, "");
  }

  /** The keyword arguments built from the first four lines of an entry. */
  function EntryFields(lines: seq<string>): (r: seq<Field>)
    requires |lines| >= 4
    ensures Keys(r) == ["name", "description", "eligibility", "amount"]
  {
    [ Field("name", JStr(Clean(lines[0], "1. "))),
      Field("description", JStr(Clean(lines[1], "2. "))),
      Field("eligibility", JStr(Clean(lines[2], "3. "))),
      Field("amount", JStr(Clean(lines[3], "4. "))) ]
  }

  /** The body of the per-entry `try`: fewer than four lines raise
      IndexError (the entry is skipped), otherwise `ScholarshipInfo(**fields)`. */
  function ParseEntry(entry: string): (r: Option<ScholarshipInfo>)
    ensures r.Some? ==> |Split(entry, "\n")| >= 4
  {
    var lines := Split(entry, "\n");
    if |lines| < 4 then None else ValidateScholarshipInfo(EntryFields(lines))
  }

  /** An entry is accepted exactly when it has at least four lines; its
      fields are the cleaned first four lines and later lines are ignored. */
  lemma ParseEntryResult(entry: string)
    ensures var lines := Split(entry, "\n");
      ParseEntry(entry) ==
        if |lines| < 4 then None
        else Some(ScholarshipInfo(Clean(lines[0], "1. "), Clean(lines[1], "2. "),
                                  Clean(lines[2], "3. "), Clean(lines[3], "4. ")))
  {
    var lines := Split(entry, "\n");
    if |lines| >= 4 {
      ScholarshipInfoRoundTrip(ScholarshipInfo(Clean(lines[0], "1. "), Clean(lines[1], "2. "),
                                               Clean(lines[2], "3. "), Clean(lines[3], "4. ")));
    }
  }

  /** The parsing loop: entries in order, blank ones and malformed ones skipped. */
  method ParseReply(reply: string) returns (scholarships: seq<ScholarshipInfo>)
    ensures scholarships == Collect(Entries(reply), ParseEntry)
    ensures |scholarships| <= NonBlank(Entries(reply))
  {
    var entries := Split(reply, "\n\n");
    scholarships := CollectEntries(entries, ParseEntry);
  }

  /** `fetch_scholarship_info(student_info)`: None for a falsy argument
      (without asking the model) or when the model call fails; a non-dict
      argument raises on `.get`. `asked` lists the prompts sent. */
  method FetchScholarshipInfo(student: StudentArg, llm: Query -> Reply)
    returns (r: Outcome<Option<seq<ScholarshipInfo>>>, asked: seq<Query>)
    ensures var v := AsValue(student);
      (!Truthy(v) ==> r == Returned(None) && asked == []) &&
      (Truthy(v) && !v.JObj? ==> r.Raised? && asked == []) &&
      (Truthy(v) && v.JObj? ==> asked == [Query(v.fields, Countries(v.fields))])
    ensures var v := AsValue(student);
      Truthy(v) && v.JObj? ==>
        match llm(Query(v.fields, Countries(v.fields)))
        case Failed(_) => r == Returned(None)
        case Answered(text) => r == Returned(Some(Collect(Entries(text), ParseEntry)))
  {
    var v := AsValue(student);
    asked := [];
    if !Truthy(v) {
      r := Returned(None);
      return;
    }
    if !v.JObj? {
      r := Raised("AttributeError: object has no attribute 'get'");
      return;
    }
    var q := Query(v.fields, Countries(v.fields));
    asked := [q];
    match llm(q)
    case Failed(_) =>
      r := Returned(None);
    case Answered(text) =>
      var scholarships := ParseReply(text);
      r := Returned(Some(scholarships));
  }

  /** A reply whose entries all have four or more lines yields one
      scholarship per non-blank entry. */
  lemma WellFormedReply(reply: string)
    requires forall e :: e in Entries(reply) ==> |Split(e, "\n")| >= 4
    ensures |Collect(Entries(reply), ParseEntry)| == NonBlank(Entries(reply))
  {
    var entries := Entries(reply);
    forall e | e in entries
      ensures ParseEntry(e).Some?
    {
      ParseEntryResult(e);
    }
    WellFormedAll(entries);
  }

  lemma WellFormedAll(entries: seq<string>)
    requires forall e :: e in entries ==> ParseEntry(e).Some?
    ensures |Collect(entries, ParseEntry)| == NonBlank(entries)
  {
    CollectAll(entries, ParseEntry);
  }

  /** Whitespace-only entries and entries of fewer than four lines contribute
      nothing and do not stop the entries after them. */
  lemma SkippedEntry(before: seq<string>, entry: string, after: seq<string>)
    requires Strip(entry) == [] || |Split(entry, "\n")| < 4
    ensures Collect(before + [entry] + after, ParseEntry) == Collect(before, ParseEntry) + Collect(after, ParseEntry)
  {
    if Strip(entry) != [] {
      assert ParseEntry(entry) == None;
    }
    CollectSkip(before, entry, after, ParseEntry);
  }
}
