/** The pydantic records of src/models.py: each model is a datatype, built from
    keyword arguments by a validator (which fails where pydantic raises a
    ValidationError) and turned back into a dict by a dump (`model_dump`). */
module Models {
  import opened PyJson

  datatype StudentInfo = StudentInfo(
    name: string,
    contactInfo: string,
    marks10th: int,
    marks12th: int,
    btechCgpa: real,
    ieltsScore: Option<real>,
    toeflScore: Option<real>,
    workExperience: Option<string>,
    preferredCountries: seq<string>,
    btechBranch: string,
    interestedFieldForMasters: Option<string>)

  datatype University = University(
    name: string,
    url: string,
    ranking: Option<int>,
    tuitionFees: Option<string>,
    currency: Option<string>,
    eligibilityCriteria: Option<string>,
    deadlines: Option<string>,
    courseCurriculum: Option<string>,
    scholarshipOptions: Option<string>)

  datatype VisaInfo = VisaInfo(country: string, requirements: seq<string>, fees: string, currency: string)

  datatype ScholarshipInfo = ScholarshipInfo(name: string, description: string, eligibility: string, amount: string)

  datatype Document = Document(id: int, name: string, status: string, description: Option<string>, required: bool)

  // ---- field validators: None means the field makes validation fail ----

  predicate IsInt(n: real) { n == n.Floor as real }

  /** A required `str` field. */
  function ReqStr(kw: seq<Field>, k: string): (r: Option<string>)
    ensures r.Some? <==> Get(kw, k).Some? && Get(kw, k).value.JStr?
    ensures r.Some? ==> Get(kw, k) == Some(JStr(r.value))
  {
    match Get(kw, k)
    case Some(JStr(s)) => Some(s)
    case _ => None
  }

  /** A required `int` field (a float with no fractional part is accepted). */
  function ReqInt(kw: seq<Field>, k: string): (r: Option<int>)
    ensures r.Some? ==> Get(kw, k) == Some(JNum(r.value as real))
  {
    match Get(kw, k)
    case Some(JNum(n)) => if IsInt(n) then Some(n.Floor) else None
    case _ => None
  }

  /** A required `float` field. */
  function ReqReal(kw: seq<Field>, k: string): (r: Option<real>)
    ensures r.Some? <==> Get(kw, k).Some? && Get(kw, k).value.JNum?
    ensures r.Some? ==> Get(kw, k) == Some(JNum(r.value))
  {
    match Get(kw, k)
    case Some(JNum(n)) => Some(n)
    case _ => None
  }

  function StrItems(xs: seq<Json>): Option<seq<string>>
  {
    if xs == [] then Some([])
    else if xs[0].JStr? then
      var rest :- StrItems(xs[1..]);
      Some([xs[0].s] + rest)
    else None
  }

  /** A required `List[str]` field. */
  function ReqStrList(kw: seq<Field>, k: string): (r: Option<seq<string>>)
    ensures r.Some? ==> Get(kw, k).Some? && Get(kw, k).value.JList?
  {
    match Get(kw, k)
    case Some(JList(xs)) => StrItems(xs)
    case _ => None
  }

  /** An `Optional[str]` field; `hasDefault` says whether it may be left out. */
  function OptStr(kw: seq<Field>, k: string, hasDefault: bool): (r: Option<Option<string>>)
    ensures r.Some? && !hasDefault ==> Get(kw, k).Some?
    ensures hasDefault && Get(kw, k).None? ==> r == Some(None)
  {
    match Get(kw, k)
    case None => if hasDefault then Some(None) else None
    case Some(JNull) => Some(None)
    case Some(JStr(s)) => Some(Some(s))
    case Some(_) => None
  }

  /** An `Optional[float]` field with default None. */
  function OptReal(kw: seq<Field>, k: string): Option<Option<real>>
  {
    match Get(kw, k)
    case None => Some(None)
    case Some(JNull) => Some(None)
    case Some(JNum(n)) => Some(Some(n))
    case Some(_) => None
  }

  /** An `Optional[int]` field without a default. */
  function OptIntNoDefault(kw: seq<Field>, k: string): (r: Option<Option<int>>)
    ensures r.Some? ==> Get(kw, k).Some?
  {
    match Get(kw, k)
    case Some(JNull) => Some(None)
    case Some(JNum(n)) => if IsInt(n) then Some(Some(n.Floor)) else None
    case _ => None
  }

  /** A `bool` field with default True. */
  function BoolDefaultTrue(kw: seq<Field>, k: string): (r: Option<bool>)
    ensures Get(kw, k).None? ==> r == Some(true)
  {
    match Get(kw, k)
    case None => Some(true)
    case Some(JBool(b)) => Some(b)
    case Some(_) => None
  }

  // ---- validators (Model(**kw)) ----

  /** `StudentInfo(**kw)`: a built record carries the passed strings, and
      every field without a default was passed. */
  function ValidateStudentInfo(kw: seq<Field>): (r: Option<StudentInfo>)
    ensures r.Some? ==>
      Get(kw, "name") == Some(JStr(r.value.name)) &&
      Get(kw, "contact_info") == Some(JStr(r.value.contactInfo)) &&
      Get(kw, "btech_branch") == Some(JStr(r.value.btechBranch)) &&
      "marks_10th" in Keys(kw) && "marks_12th" in Keys(kw) && "btech_cgpa" in Keys(kw) &&
      "preferred_countries" in Keys(kw)
  {
    var name :- ReqStr(kw, "name");
    var contact :- ReqStr(kw, "contact_info");
    var m10 :- ReqInt(kw, "marks_10th");
    var m12 :- ReqInt(kw, "marks_12th");
    var cgpa :- ReqReal(kw, "btech_cgpa");
    var ielts :- OptReal(kw, "ielts_score");
    var toefl :- OptReal(kw, "toefl_score");
    var work :- OptStr(kw, "work_experience", true);
    var countries :- ReqStrList(kw, "preferred_countries");
    var branch :- ReqStr(kw, "btech_branch");
    var field :- OptStr(kw, "interested_field_for_masters", true);
    Some(StudentInfo(name, contact, m10, m12, cgpa, ielts, toefl, work, countries, branch, field))
  }

  /** `University(**kw)`: a built record carries the passed name and url,
      and the nullable fields without a default were passed. */
  function ValidateUniversity(kw: seq<Field>): (r: Option<University>)
    ensures r.Some? ==>
      Get(kw, "name") == Some(JStr(r.value.name)) && Get(kw, "url") == Some(JStr(r.value.url)) &&
      "ranking" in Keys(kw) && "tuition_fees" in Keys(kw) && "currency" in Keys(kw) &&
      "eligibility_criteria" in Keys(kw) && "deadlines" in Keys(kw)
  {
    var name :- ReqStr(kw, "name");
    var url :- ReqStr(kw, "url");
    var ranking :- OptIntNoDefault(kw, "ranking");
    var fees :- OptStr(kw, "tuition_fees", false);
    var currency :- OptStr(kw, "currency", false);
    var eligibility :- OptStr(kw, "eligibility_criteria", false);
    var deadlines :- OptStr(kw, "deadlines", false);
    var curriculum :- OptStr(kw, "course_curriculum", true);
    var scholarships :- OptStr(kw, "scholarship_options", true);
    Some(University(name, url, ranking, fees, currency, eligibility, deadlines, curriculum, scholarships))
  }

  /** `VisaInfo(**kw)`: a built record carries the passed strings. */
  function ValidateVisaInfo(kw: seq<Field>): (r: Option<VisaInfo>)
    ensures r.Some? ==>
      Get(kw, "country") == Some(JStr(r.value.country)) && Get(kw, "fees") == Some(JStr(r.value.fees)) &&
      Get(kw, "currency") == Some(JStr(r.value.currency)) && "requirements" in Keys(kw)
  {
    var country :- ReqStr(kw, "country");
    var requirements :- ReqStrList(kw, "requirements");
    var fees :- ReqStr(kw, "fees");
    var currency :- ReqStr(kw, "currency");
    Some(VisaInfo(country, requirements, fees, currency))
  }

  /** `ScholarshipInfo(**kw)`: a built record carries the four passed strings. */
  function ValidateScholarshipInfo(kw: seq<Field>): (r: Option<ScholarshipInfo>)
    ensures r.Some? ==>
      Get(kw, "name") == Some(JStr(r.value.name)) && Get(kw, "description") == Some(JStr(r.value.description)) &&
      Get(kw, "eligibility") == Some(JStr(r.value.eligibility)) && Get(kw, "amount") == Some(JStr(r.value.amount))
  {
    var name :- ReqStr(kw, "name");
    var description :- ReqStr(kw, "description");
    var eligibility :- ReqStr(kw, "eligibility");
    var amount :- ReqStr(kw, "amount");
    Some(ScholarshipInfo(name, description, eligibility, amount))
  }

  /** `Document(**kw)`: a built record carries the passed name and status,
      and `id` was passed. */
  function ValidateDocument(kw: seq<Field>): (r: Option<Document>)
    ensures r.Some? ==>
      Get(kw, "name") == Some(JStr(r.value.name)) && Get(kw, "status") == Some(JStr(r.value.status)) &&
      "id" in Keys(kw)
  {
    var id :- ReqInt(kw, "id");
    var name :- ReqStr(kw, "name");
    var status :- ReqStr(kw, "status");
    var description :- OptStr(kw, "description", true);
    var required :- BoolDefaultTrue(kw, "required");
    Some(Document(id, name, status, description, required))
  }

  // ---- dumps (model_dump), fields in declaration order ----

  function StrJson(xs: seq<string>): (r: seq<Json>)
    ensures |r| == |xs| && forall i :: 0 <= i < |xs| ==> r[i] == JStr(xs[i])
  {
    if xs == [] then [] else [JStr(xs[0])] + StrJson(xs[1..])
  }

  function OptStrJson(o: Option<string>): Json
  {
    match o
    case None => JNull
    case Some(s) => JStr(s)
  }

  function OptNumJson(o: Option<real>): Json
  {
    match o
    case None => JNull
    case Some(n) => JNum(n)
  }

  function DumpStudentInfo(s: StudentInfo): (r: seq<Field>)
    ensures Keys(r) == ["name", "contact_info", "marks_10th", "marks_12th", "btech_cgpa", "ielts_score",
      "toefl_score", "work_experience", "preferred_countries", "btech_branch", "interested_field_for_masters"]
  {
    [ Field("name", JStr(s.name)),
      Field("contact_info", JStr(s.contactInfo)),
      Field("marks_10th", JNum(s.marks10th as real)),
      Field("marks_12th", JNum(s.marks12th as real)),
      Field("btech_cgpa", JNum(s.btechCgpa)),
      Field("ielts_score", OptNumJson(s.ieltsScore)),
      Field("toefl_score", OptNumJson(s.toeflScore)),
      Field("work_experience", OptStrJson(s.workExperience)),
      Field("preferred_countries", JList(StrJson(s.preferredCountries))),
      Field("btech_branch", JStr(s.btechBranch)),
      Field("interested_field_for_masters", OptStrJson(s.interestedFieldForMasters)) ]
  }

  function DumpUniversity(u: University): (r: seq<Field>)
    ensures Keys(r) == ["name", "url", "ranking", "tuition_fees", "currency", "eligibility_criteria",
      "deadlines", "course_curriculum", "scholarship_options"]
  {
    [ Field("name", JStr(u.name)),
      Field("url", JStr(u.url)),
      Field("ranking", match u.ranking case None => JNull case Some(r) => JNum(r as real)),
      Field("tuition_fees", OptStrJson(u.tuitionFees)),
      Field("currency", OptStrJson(u.currency)),
      Field("eligibility_criteria", OptStrJson(u.eligibilityCriteria)),
      Field("deadlines", OptStrJson(u.deadlines)),
      Field("course_curriculum", OptStrJson(u.courseCurriculum)),
      Field("scholarship_options", OptStrJson(u.scholarshipOptions)) ]
  }

  function DumpVisaInfo(v: VisaInfo): (r: seq<Field>)
    ensures Keys(r) == ["country", "requirements", "fees", "currency"]
  {
    [ Field("country", JStr(v.country)),
      Field("requirements", JList(StrJson(v.requirements))),
      Field("fees", JStr(v.fees)),
      Field("currency", JStr(v.currency)) ]
  }

  function DumpScholarshipInfo(s: ScholarshipInfo): (r: seq<Field>)
    ensures Keys(r) == ["name", "description", "eligibility", "amount"]
  {
    [ Field("name", JStr(s.name)),
      Field("description", JStr(s.description)),
      Field("eligibility", JStr(s.eligibility)),
      Field("amount", JStr(s.amount)) ]
  }

  function DumpDocument(d: Document): (r: seq<Field>)
    ensures Keys(r) == ["id", "name", "status", "description", "required"]
  {
    [ Field("id", JNum(d.id as real)),
      Field("name", JStr(d.name)),
      Field("status", JStr(d.status)),
      Field("description", OptStrJson(d.description)),
      Field("required", JBool(d.required)) ]
  }

  // ---- properties ----

  lemma {:induction false} StrItemsRoundTrip(xs: seq<string>)
    ensures StrItems(StrJson(xs)) == Some(xs)
  {
    if xs != [] {
      StrItemsRoundTrip(xs[1..]);
      assert StrJson(xs)[1..] == StrJson(xs[1..]);
      assert [xs[0]] + xs[1..] == xs;
    }
  }

  // Each field validator accepts what the dump writes for that field.

  lemma ReqStrOf(kw: seq<Field>, k: string, v: string)
    requires Get(kw, k) == Some(JStr(v))
    ensures ReqStr(kw, k) == Some(v)
  {
  }

  lemma ReqIntOf(kw: seq<Field>, k: string, v: int)
    requires Get(kw, k) == Some(JNum(v as real))
    ensures ReqInt(kw, k) == Some(v)
  {
  }

  lemma ReqRealOf(kw: seq<Field>, k: string, v: real)
    requires Get(kw, k) == Some(JNum(v))
    ensures ReqReal(kw, k) == Some(v)
  {
  }

  lemma OptRealOf(kw: seq<Field>, k: string, v: Option<real>)
    requires Get(kw, k) == Some(OptNumJson(v))
    ensures OptReal(kw, k) == Some(v)
  {
  }

  lemma OptStrOf(kw: seq<Field>, k: string, v: Option<string>, hasDefault: bool)
    requires Get(kw, k) == Some(OptStrJson(v))
    ensures OptStr(kw, k, hasDefault) == Some(v)
  {
  }

  lemma OptIntOf(kw: seq<Field>, k: string, v: Option<int>)
    requires Get(kw, k) == Some(match v case None => JNull case Some(r) => JNum(r as real))
    ensures OptIntNoDefault(kw, k) == Some(v)
  {
  }

  lemma ReqStrListOf(kw: seq<Field>, k: string, v: seq<string>)
    requires Get(kw, k) == Some(JList(StrJson(v)))
    ensures ReqStrList(kw, k) == Some(v)
  {
    StrItemsRoundTrip(v);
  }

  // StudentInfo

  lemma DumpStudentInfoGet(s: StudentInfo, k: string)
    ensures Get(DumpStudentInfo(s), k) ==
      if k == "name" then Some(JStr(s.name))
      else if k == "contact_info" then Some(JStr(s.contactInfo))
      else if k == "marks_10th" then Some(JNum(s.marks10th as real))
      else if k == "marks_12th" then Some(JNum(s.marks12th as real))
      else if k == "btech_cgpa" then Some(JNum(s.btechCgpa))
      else if k == "ielts_score" then Some(OptNumJson(s.ieltsScore))
      else if k == "toefl_score" then Some(OptNumJson(s.toeflScore))
      else if k == "work_experience" then Some(OptStrJson(s.workExperience))
      else if k == "preferred_countries" then Some(JList(StrJson(s.preferredCountries)))
      else if k == "btech_branch" then Some(JStr(s.btechBranch))
      else if k == "interested_field_for_masters" then Some(OptStrJson(s.interestedFieldForMasters))
      else None
  {
    var d := DumpStudentInfo(s);
    var d1 := d[1..]; var d2 := d1[1..]; var d3 := d2[1..]; var d4 := d3[1..]; var d5 := d4[1..];
    var d6 := d5[1..]; var d7 := d6[1..]; var d8 := d7[1..]; var d9 := d8[1..]; var d10 := d9[1..];
    GetFirst(d, k); GetFirst(d1, k); GetFirst(d2, k); GetFirst(d3, k); GetFirst(d4, k); GetFirst(d5, k);
    GetFirst(d6, k); GetFirst(d7, k); GetFirst(d8, k); GetFirst(d9, k); GetFirst(d10, k);
  }

  lemma ValidateStudentInfoOf(kw: seq<Field>, s: StudentInfo)
    requires ReqStr(kw, "name") == Some(s.name)
    requires ReqStr(kw, "contact_info") == Some(s.contactInfo)
    requires ReqInt(kw, "marks_10th") == Some(s.marks10th)
    requires ReqInt(kw, "marks_12th") == Some(s.marks12th)
    requires ReqReal(kw, "btech_cgpa") == Some(s.btechCgpa)
    requires OptReal(kw, "ielts_score") == Some(s.ieltsScore)
    requires OptReal(kw, "toefl_score") == Some(s.toeflScore)
    requires OptStr(kw, "work_experience", true) == Some(s.workExperience)
    requires ReqStrList(kw, "preferred_countries") == Some(s.preferredCountries)
    requires ReqStr(kw, "btech_branch") == Some(s.btechBranch)
    requires OptStr(kw, "interested_field_for_masters", true) == Some(s.interestedFieldForMasters)
    ensures ValidateStudentInfo(kw) == Some(s)
  {
  }

  /** Validating a dumped student gives the same student back. */
  lemma StudentInfoRoundTrip(s: StudentInfo)
    ensures ValidateStudentInfo(DumpStudentInfo(s)) == Some(s)
  {
    var d := DumpStudentInfo(s);
    DumpStudentInfoGet(s, "name"); ReqStrOf(d, "name", s.name);
    DumpStudentInfoGet(s, "contact_info"); ReqStrOf(d, "contact_info", s.contactInfo);
    DumpStudentInfoGet(s, "marks_10th"); ReqIntOf(d, "marks_10th", s.marks10th);
    DumpStudentInfoGet(s, "marks_12th"); ReqIntOf(d, "marks_12th", s.marks12th);
    DumpStudentInfoGet(s, "btech_cgpa"); ReqRealOf(d, "btech_cgpa", s.btechCgpa);
    DumpStudentInfoGet(s, "ielts_score"); OptRealOf(d, "ielts_score", s.ieltsScore);
    DumpStudentInfoGet(s, "toefl_score"); OptRealOf(d, "toefl_score", s.toeflScore);
    DumpStudentInfoGet(s, "work_experience"); OptStrOf(d, "work_experience", s.workExperience, true);
    DumpStudentInfoGet(s, "preferred_countries"); ReqStrListOf(d, "preferred_countries", s.preferredCountries);
    DumpStudentInfoGet(s, "btech_branch"); ReqStrOf(d, "btech_branch", s.btechBranch);
    DumpStudentInfoGet(s, "interested_field_for_masters");
    OptStrOf(d, "interested_field_for_masters", s.interestedFieldForMasters, true);
    ValidateStudentInfoOf(d, s);
  }

  /** A student validates exactly when every field does, and each field
      of the result is what that field's validator gives. */
  lemma StudentInfoParts(kw: seq<Field>)
    ensures ValidateStudentInfo(kw).Some? <==>
      ReqStr(kw, "name").Some? && ReqStr(kw, "contact_info").Some? &&
      ReqInt(kw, "marks_10th").Some? && ReqInt(kw, "marks_12th").Some? &&
      ReqReal(kw, "btech_cgpa").Some? && OptReal(kw, "ielts_score").Some? &&
      OptReal(kw, "toefl_score").Some? && OptStr(kw, "work_experience", true).Some? &&
      ReqStrList(kw, "preferred_countries").Some? && ReqStr(kw, "btech_branch").Some? &&
      OptStr(kw, "interested_field_for_masters", true).Some?
    ensures ValidateStudentInfo(kw).Some? ==>
      var r := ValidateStudentInfo(kw).value;
      OptReal(kw, "ielts_score") == Some(r.ieltsScore) &&
      OptReal(kw, "toefl_score") == Some(r.toeflScore) &&
      OptStr(kw, "work_experience", true) == Some(r.workExperience) &&
      OptStr(kw, "interested_field_for_masters", true) == Some(r.interestedFieldForMasters)
  {
  }

  /** The four optional student fields are None when left out, and every
      other field must be passed. */
  lemma StudentInfoDefaults(kw: seq<Field>)
    requires ValidateStudentInfo(kw).Some?
    ensures "ielts_score" !in Keys(kw) ==> ValidateStudentInfo(kw).value.ieltsScore == None
    ensures "toefl_score" !in Keys(kw) ==> ValidateStudentInfo(kw).value.toeflScore == None
    ensures "work_experience" !in Keys(kw) ==> ValidateStudentInfo(kw).value.workExperience == None
    ensures "interested_field_for_masters" !in Keys(kw) ==>
      ValidateStudentInfo(kw).value.interestedFieldForMasters == None
    ensures "name" in Keys(kw) && "contact_info" in Keys(kw) && "marks_10th" in Keys(kw)
    ensures "marks_12th" in Keys(kw) && "btech_cgpa" in Keys(kw)
    ensures "preferred_countries" in Keys(kw) && "btech_branch" in Keys(kw)
  {
    StudentInfoParts(kw);
  }

  // University

  lemma DumpUniversityGet(u: University, k: string)
    ensures Get(DumpUniversity(u), k) ==
      if k == "name" then Some(JStr(u.name))
      else if k == "url" then Some(JStr(u.url))
      else if k == "ranking" then Some(match u.ranking case None => JNull case Some(r) => JNum(r as real))
      else if k == "tuition_fees" then Some(OptStrJson(u.tuitionFees))
      else if k == "currency" then Some(OptStrJson(u.currency))
      else if k == "eligibility_criteria" then Some(OptStrJson(u.eligibilityCriteria))
      else if k == "deadlines" then Some(OptStrJson(u.deadlines))
      else if k == "course_curriculum" then Some(OptStrJson(u.courseCurriculum))
      else if k == "scholarship_options" then Some(OptStrJson(u.scholarshipOptions))
      else None
  {
    var d := DumpUniversity(u);
    var d1 := d[1..]; var d2 := d1[1..]; var d3 := d2[1..]; var d4 := d3[1..];
    var d5 := d4[1..]; var d6 := d5[1..]; var d7 := d6[1..]; var d8 := d7[1..];
    GetFirst(d, k); GetFirst(d1, k); GetFirst(d2, k); GetFirst(d3, k); GetFirst(d4, k);
    GetFirst(d5, k); GetFirst(d6, k); GetFirst(d7, k); GetFirst(d8, k);
  }

  lemma ValidateUniversityOf(kw: seq<Field>, u: University)
    requires ReqStr(kw, "name") == Some(u.name)
    requires ReqStr(kw, "url") == Some(u.url)
    requires OptIntNoDefault(kw, "ranking") == Some(u.ranking)
    requires OptStr(kw, "tuition_fees", false) == Some(u.tuitionFees)
    requires OptStr(kw, "currency", false) == Some(u.currency)
    requires OptStr(kw, "eligibility_criteria", false) == Some(u.eligibilityCriteria)
    requires OptStr(kw, "deadlines", false) == Some(u.deadlines)
    requires OptStr(kw, "course_curriculum", true) == Some(u.courseCurriculum)
    requires OptStr(kw, "scholarship_options", true) == Some(u.scholarshipOptions)
    ensures ValidateUniversity(kw) == Some(u)
  {
  }

  lemma UniversityRoundTrip(u: University)
    ensures ValidateUniversity(DumpUniversity(u)) == Some(u)
  {
    var d := DumpUniversity(u);
    DumpUniversityGet(u, "name"); ReqStrOf(d, "name", u.name);
    DumpUniversityGet(u, "url"); ReqStrOf(d, "url", u.url);
    DumpUniversityGet(u, "ranking"); OptIntOf(d, "ranking", u.ranking);
    DumpUniversityGet(u, "tuition_fees"); OptStrOf(d, "tuition_fees", u.tuitionFees, false);
    DumpUniversityGet(u, "currency"); OptStrOf(d, "currency", u.currency, false);
    DumpUniversityGet(u, "eligibility_criteria"); OptStrOf(d, "eligibility_criteria", u.eligibilityCriteria, false);
    DumpUniversityGet(u, "deadlines"); OptStrOf(d, "deadlines", u.deadlines, false);
    DumpUniversityGet(u, "course_curriculum"); OptStrOf(d, "course_curriculum", u.courseCurriculum, true);
    DumpUniversityGet(u, "scholarship_options"); OptStrOf(d, "scholarship_options", u.scholarshipOptions, true);
    ValidateUniversityOf(d, u);
  }

  lemma UniversityParts(kw: seq<Field>)
    ensures ValidateUniversity(kw).Some? <==>
      ReqStr(kw, "name").Some? && ReqStr(kw, "url").Some? &&
      OptIntNoDefault(kw, "ranking").Some? && OptStr(kw, "tuition_fees", false).Some? &&
      OptStr(kw, "currency", false).Some? && OptStr(kw, "eligibility_criteria", false).Some? &&
      OptStr(kw, "deadlines", false).Some? && OptStr(kw, "course_curriculum", true).Some? &&
      OptStr(kw, "scholarship_options", true).Some?
    ensures ValidateUniversity(kw).Some? ==>
      var r := ValidateUniversity(kw).value;
      OptStr(kw, "course_curriculum", true) == Some(r.courseCurriculum) &&
      OptStr(kw, "scholarship_options", true) == Some(r.scholarshipOptions)
  {
  }

  /** University's nullable fields without a default must still be passed;
      the two with a default are None when left out. */
  lemma UniversityFields(kw: seq<Field>)
    requires ValidateUniversity(kw).Some?
    ensures "name" in Keys(kw) && "url" in Keys(kw) && "ranking" in Keys(kw)
    ensures "tuition_fees" in Keys(kw) && "currency" in Keys(kw)
    ensures "eligibility_criteria" in Keys(kw) && "deadlines" in Keys(kw)
    ensures "course_curriculum" !in Keys(kw) ==> ValidateUniversity(kw).value.courseCurriculum == None
    ensures "scholarship_options" !in Keys(kw) ==> ValidateUniversity(kw).value.scholarshipOptions == None
  {
    UniversityParts(kw);
  }

  // VisaInfo

  lemma VisaInfoRoundTrip(v: VisaInfo)
    ensures ValidateVisaInfo(DumpVisaInfo(v)) == Some(v)
  {
    var d := DumpVisaInfo(v);
    var d1 := d[1..]; var d2 := d1[1..]; var d3 := d2[1..];
    GetFirst(d, "country");
    GetFirst(d, "requirements"); GetFirst(d1, "requirements");
    GetFirst(d, "fees"); GetFirst(d1, "fees"); GetFirst(d2, "fees");
    GetFirst(d, "currency"); GetFirst(d1, "currency"); GetFirst(d2, "currency"); GetFirst(d3, "currency");
    StrItemsRoundTrip(v.requirements);
    assert ReqStr(d, "country") == Some(v.country);
    assert ReqStrList(d, "requirements") == Some(v.requirements);
    assert ReqStr(d, "fees") == Some(v.fees);
    assert ReqStr(d, "currency") == Some(v.currency);
  }

  /** VisaInfo has no defaults: all four fields must be passed. */
  lemma VisaInfoRequired(kw: seq<Field>)
    requires ValidateVisaInfo(kw).Some?
    ensures "country" in Keys(kw) && "requirements" in Keys(kw)
    ensures "fees" in Keys(kw) && "currency" in Keys(kw)
  {
  }

  // ScholarshipInfo

  lemma ScholarshipInfoRoundTrip(s: ScholarshipInfo)
    ensures ValidateScholarshipInfo(DumpScholarshipInfo(s)) == Some(s)
  {
    var d := DumpScholarshipInfo(s);
    var d1 := d[1..]; var d2 := d1[1..]; var d3 := d2[1..];
    GetFirst(d, "name");
    GetFirst(d, "description"); GetFirst(d1, "description");
    GetFirst(d, "eligibility"); GetFirst(d1, "eligibility"); GetFirst(d2, "eligibility");
    GetFirst(d, "amount"); GetFirst(d1, "amount"); GetFirst(d2, "amount"); GetFirst(d3, "amount");
    assert ReqStr(d, "name") == Some(s.name);
    assert ReqStr(d, "description") == Some(s.description);
    assert ReqStr(d, "eligibility") == Some(s.eligibility);
    assert ReqStr(d, "amount") == Some(s.amount);
  }

  /** ScholarshipInfo needs exactly its four string fields; any other keyword is ignored. */
  lemma ScholarshipInfoFields(kw: seq<Field>)
    ensures ValidateScholarshipInfo(kw).Some? <==>
      ReqStr(kw, "name").Some? && ReqStr(kw, "description").Some? &&
      ReqStr(kw, "eligibility").Some? && ReqStr(kw, "amount").Some?
  {
  }

  // Document

  lemma DumpDocumentGet(doc: Document, k: string)
    ensures Get(DumpDocument(doc), k) ==
      if k == "id" then Some(JNum(doc.id as real))
      else if k == "name" then Some(JStr(doc.name))
      else if k == "status" then Some(JStr(doc.status))
      else if k == "description" then Some(OptStrJson(doc.description))
      else if k == "required" then Some(JBool(doc.required))
      else None
  {
    var d := DumpDocument(doc);
    var d1 := d[1..]; var d2 := d1[1..]; var d3 := d2[1..]; var d4 := d3[1..];
    GetFirst(d, k); GetFirst(d1, k); GetFirst(d2, k); GetFirst(d3, k); GetFirst(d4, k);
  }

  lemma DocumentRoundTrip(doc: Document)
    ensures ValidateDocument(DumpDocument(doc)) == Some(doc)
  {
    var d := DumpDocument(doc);
    DumpDocumentGet(doc, "id"); ReqIntOf(d, "id", doc.id);
    DumpDocumentGet(doc, "name"); ReqStrOf(d, "name", doc.name);
    DumpDocumentGet(doc, "status"); ReqStrOf(d, "status", doc.status);
    DumpDocumentGet(doc, "description"); OptStrOf(d, "description", doc.description, true);
    DumpDocumentGet(doc, "required");
    assert BoolDefaultTrue(d, "required") == Some(doc.required);
  }

  /** A document needs id, name and status; `required` defaults to True and
      `description` to None. */
  lemma DocumentDefaults(kw: seq<Field>)
    requires ValidateDocument(kw).Some?
    ensures "id" in Keys(kw) && "name" in Keys(kw) && "status" in Keys(kw)
    ensures "required" !in Keys(kw) ==> ValidateDocument(kw).value.required
    ensures "description" !in Keys(kw) ==> ValidateDocument(kw).value.description == None
  {
  }
}
