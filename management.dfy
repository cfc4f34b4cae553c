/** `manage_state` of src/agents/management_agent.py without its Streamlit
    output: pydantic inputs are dumped to dicts, progress is the share of the
    five components that are truthy, and falsy components default to empty
    containers. */
module ManagementAgent {
  import opened PyJson

  /** An argument as the function receives it: a pydantic model instance
      (which has `model_dump`), a plain JSON-like value, or a Python list
      whose items may be models. */
  datatype Arg = Model(dump: seq<Field>) | Plain(v: Json) | ListOf(items: seq<Arg>)

  /** `bool(a)`: a pydantic model defines neither `__bool__` nor `__len__`. */
  predicate IsTrue(a: Arg)
  {
    match a
    case Model(_) => true
    case Plain(v) => Truthy(v)
    case ListOf(xs) => xs != []
  }

  /** `if hasattr(x, 'model_dump'): x = x.model_dump()`, used for
      `student_info` and `visa_info` (a model is always truthy, so the extra
      `visa_info and` test changes nothing). */
  function DumpIfModel(a: Arg): (r: Arg)
    ensures a.Model? ==> r == Plain(JObj(a.dump))
    ensures !a.Model? ==> r == a
  {
    if a.Model? then Plain(JObj(a.dump)) else a
  }

  /** `[x.model_dump() for x in xs]`: an item without `model_dump` raises. */
  function DumpAll(xs: seq<Arg>): (r: Outcome<seq<Json>>)
    ensures r.Returned? <==> forall i :: 0 <= i < |xs| ==> xs[i].Model?
    ensures r.Returned? ==> |r.value| == |xs| && forall i :: 0 <= i < |xs| ==> r.value[i] == JObj(xs[i].dump)
  {
    if xs == [] then Returned([])
    else if !xs[0].Model? then Raised("AttributeError: object has no attribute 'model_dump'")
    else
      var rest :- DumpAll(xs[1..]);
      Returned([JObj(xs[0].dump)] + rest)
  }

  /** `if xs and hasattr(xs[0], 'model_dump'): xs = [x.model_dump() for x in xs]`,
      used for `universities`, `scholarships` and `documents`. Indexing a
      truthy value that is not a sequence raises. */
  function DumpListIfModels(a: Arg): (r: Outcome<Arg>)
    ensures !IsTrue(a) ==> r == Returned(a)
    ensures a.ListOf? && a.items != [] && !a.items[0].Model? ==> r == Returned(a)
    ensures a.ListOf? && a.items != [] && a.items[0].Model? ==>
      (r.Returned? <==> forall i :: 0 <= i < |a.items| ==> a.items[i].Model?)
    ensures r.Returned? ==> IsTrue(r.value) == IsTrue(a)
  {
    match a
    case ListOf(xs) =>
      if xs != [] && xs[0].Model? then
        var ds :- DumpAll(xs);
        Returned(Plain(JList(ds)))
      else Returned(a)
    case Model(_) => Raised("TypeError: object is not subscriptable")
    case Plain(v) =>
      match v
      case JObj(fs) => if fs == [] then Returned(a) else Raised("KeyError: 0")
      case JNum(n) => if n == 0.0 then Returned(a) else Raised("TypeError: object is not subscriptable")
      case JBool(b) => if b then Raised("TypeError: object is not subscriptable") else Returned(a)
      case _ => Returned(a)
  }

  /** The number of true entries. */
  function CountTrue(steps: seq<bool>): (n: nat)
    ensures n <= |steps|
  {
    if steps == [] then 0 else (if steps[0] then 1 else 0) + CountTrue(steps[1..])
  }

  /** `sum(progress_steps) / len(progress_steps) * 100`. */
  function Progress(steps: seq<bool>): (p: real)
    requires |steps| == 5
    ensures 0.0 <= p <= 100.0
    ensures p == 20.0 * CountTrue(steps) as real
  {
    CountTrue(steps) as real / 5.0 * 100.0
  }

  /** `x or default`. */
  function OrDefault(a: Arg, default: Json): (r: Arg)
    ensures IsTrue(a) ==> r == a
    ensures !IsTrue(a) ==> r == Plain(default)
  {
    if IsTrue(a) then a else Plain(default)
  }

  /** The consolidated state dictionary. */
  datatype AppState = AppState(
    studentInfo: Arg,
    universities: Arg,
    visaInfo: Arg,
    scholarships: Arg,
    documents: Arg,
    progressPercentage: real)

  function ManageState(studentInfo: Arg, universities: Arg, visaInfo: Arg, scholarships: Arg, documents: Arg)
    : (r: Outcome<AppState>)
    ensures r.Returned? <==>
      DumpListIfModels(universities).Returned? && DumpListIfModels(scholarships).Returned? &&
      DumpListIfModels(documents).Returned?
    ensures r.Returned? ==> r.value.progressPercentage in {0.0, 20.0, 40.0, 60.0, 80.0, 100.0}
    ensures r.Returned? ==> (r.value.progressPercentage ==
      Progress([IsTrue(DumpIfModel(studentInfo)), IsTrue(DumpListIfModels(universities).value),
                IsTrue(DumpIfModel(visaInfo)), IsTrue(DumpListIfModels(scholarships).value),
                IsTrue(DumpListIfModels(documents).value)]))
    ensures r.Returned? && IsTrue(studentInfo) ==> r.value.studentInfo == DumpIfModel(studentInfo)
    ensures r.Returned? && IsTrue(visaInfo) ==> r.value.visaInfo == DumpIfModel(visaInfo)
    ensures r.Returned? && IsTrue(universities) ==> r.value.universities == DumpListIfModels(universities).value
    ensures r.Returned? && IsTrue(scholarships) ==> r.value.scholarships == DumpListIfModels(scholarships).value
    ensures r.Returned? && IsTrue(documents) ==> r.value.documents == DumpListIfModels(documents).value
    ensures r.Returned? ==> IsTrue(r.value.studentInfo) == IsTrue(DumpIfModel(studentInfo))
    ensures r.Returned? && !IsTrue(studentInfo) ==> r.value.studentInfo == Plain(JObj([]))
    ensures r.Returned? && !IsTrue(universities) ==> r.value.universities == Plain(JList([]))
    ensures r.Returned? && !IsTrue(visaInfo) ==> r.value.visaInfo == Plain(JObj([]))
    ensures r.Returned? && !IsTrue(scholarships) ==> r.value.scholarships == Plain(JList([]))
    ensures r.Returned? && !IsTrue(documents) ==> r.value.documents == Plain(JList([]))
  {
    var s := DumpIfModel(studentInfo);
    var u :- DumpListIfModels(universities);
    var v := DumpIfModel(visaInfo);
    var sc :- DumpListIfModels(scholarships);
    var d :- DumpListIfModels(documents);
    var p := Progress([IsTrue(s), IsTrue(u), IsTrue(v), IsTrue(sc), IsTrue(d)]);
    Returned(AppState(OrDefault(s, JObj([])), OrDefault(u, JList([])), OrDefault(v, JObj([])),
                      OrDefault(sc, JList([])), OrDefault(d, JList([])), p))
  }

  /** Turning one false step true adds one to the count. */
  lemma {:induction false} CountTrueSet(steps: seq<bool>, i: nat)
    requires i < |steps| && !steps[i]
    ensures CountTrue(steps[i := true]) == CountTrue(steps) + 1
  {
    if i == 0 {
      assert steps[i := true][1..] == steps[1..];
    } else {
      CountTrueSet(steps[1..], i - 1);
      assert steps[i := true][1..] == steps[1..][i - 1 := true];
    }
  }

  /** Making one falsy component truthy, the others fixed, raises progress by 20. */
  lemma ProgressStep(steps: seq<bool>, i: nat)
    requires |steps| == 5 && i < 5 && !steps[i]
    ensures Progress(steps[i := true]) == Progress(steps) + 20.0
  {
    CountTrueSet(steps, i);
  }

  /** The count over five steps, spelled out. */
  lemma CountTrueFive(a: bool, b: bool, c: bool, d: bool, e: bool)
    ensures CountTrue([a, b, c, d, e]) ==
      (if a then 1 else 0) + (if b then 1 else 0) + (if c then 1 else 0) + (if d then 1 else 0) + (if e then 1 else 0)
  {
    assert [e][1..] == [];
    assert [d, e][1..] == [e];
    assert [c, d, e][1..] == [d, e];
    assert [b, c, d, e][1..] == [c, d, e];
    assert [a, b, c, d, e][1..] == [b, c, d, e];
    assert CountTrue([e]) == (if e then 1 else 0);
    assert CountTrue([d, e]) == (if d then 1 else 0) + CountTrue([e]);
    assert CountTrue([c, d, e]) == (if c then 1 else 0) + CountTrue([d, e]);
    assert CountTrue([b, c, d, e]) == (if b then 1 else 0) + CountTrue([c, d, e]);
  }

  /** Model inputs, which are always truthy, each count one step. */
  lemma ProgressOfModels(s: seq<Field>, v: seq<Field>)
    requires s != []
    ensures ManageState(Model(s), Plain(JNull), Plain(JNull), Plain(JNull), Plain(JNull))
         == Returned(AppState(Plain(JObj(s)), Plain(JList([])), Plain(JObj([])), Plain(JList([])), Plain(JList([])), 20.0))
    ensures v != [] ==>
      ManageState(Model(s), Plain(JNull), Model(v), Plain(JNull), Plain(JNull)).value.progressPercentage == 40.0
  {
    CountTrueFive(true, false, false, false, false);
    CountTrueFive(true, false, v != [], false, false);
  }

  /** Lists of models come back as lists of their dumps, in order. */
  lemma DumpsModelLists(xs: seq<Arg>)
    requires xs != [] && forall i :: 0 <= i < |xs| ==> xs[i].Model?
    ensures DumpListIfModels(ListOf(xs)).Returned?
    ensures var r := DumpListIfModels(ListOf(xs)).value;
      r.Plain? && r.v.JList? && |r.v.items| == |xs| &&
      forall i :: 0 <= i < |xs| ==> r.v.items[i] == JObj(xs[i].dump)
  {
  }

  /** A list whose first item is a model but a later one is not raises
      AttributeError, so the call raises. */
  lemma MixedListRaises(s: Arg, model: seq<Field>, x: Json)
    ensures ManageState(s, ListOf([Model(model), Plain(x)]), Plain(JNull), Plain(JNull), Plain(JNull)).Raised?
  {
    assert !DumpAll([Model(model), Plain(x)]).Returned?;
  }

  /** A list whose first item is plain is kept as it is, models inside it included. */
  lemma PlainFirstKept(x: Json, rest: seq<Arg>)
    ensures DumpListIfModels(ListOf([Plain(x)] + rest)) == Returned(ListOf([Plain(x)] + rest))
  {
  }
}
