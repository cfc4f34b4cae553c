/** src/json_storage.py: a JSON file holding `{"students": {contact: profile}}`,
    read and rewritten whole by every operation. The file is a field of the
    store: missing, unreadable (not JSON, or not readable) or holding a
    document; whether it can be written is a field too. */
module JsonStore {
  import opened PyJson

  /** What is on disk at the store's path. */
  datatype Disk = Missing | Unreadable | Stored(doc: Json)

  /** `{"students": {}}`. */
  const Empty: Json := JObj([Field("students", JObj([]))])

  /** `load_data()`: the stored document, or `{"students": {}}` when the
      file is missing or cannot be decoded. */
  function Loaded(disk: Disk): (r: Json)
    ensures disk.Stored? ==> r == disk.doc
    ensures !disk.Stored? ==> r == Empty
  {
    match disk
    case Stored(doc) => doc
    case _ => Empty
  }

  /** The key `update_student_info` files a profile under:
      `student_data.get('contact_info')` when it is a non-empty string. */
  function ContactOf(studentData: Json): (r: Option<string>)
    ensures r.Some? <==> (studentData.JObj? && Get(studentData.fields, "contact_info").Some? &&
      Get(studentData.fields, "contact_info").value.JStr? && Get(studentData.fields, "contact_info").value.s != [])
    ensures r.Some? ==> Get(studentData.fields, "contact_info") == Some(JStr(r.value))
  {
    if !studentData.JObj? then None
    else match Get(studentData.fields, "contact_info")
      case Some(JStr(s)) => if s != [] then Some(s) else None
      case _ => None
  }

  /** The document `update_student_info` saves, or None when it returns
      False before saving: no usable contact, or a document without a
      `students` dict (the lookup or the assignment raises). */
  function Updated(data: Json, studentData: Json, replaceExisting: bool): (r: Option<Json>)
    ensures r.Some? ==> ContactOf(studentData).Some? && data.JObj? && r.value.JObj?
    ensures !replaceExisting ==>
      (r.Some? <==> ContactOf(studentData).Some? && data.JObj? &&
                    Get(data.fields, "students").Some? && Get(data.fields, "students").value.JObj?)
  {
    match ContactOf(studentData)
    case None => None
    case Some(id) =>
      if !data.JObj? then None
      else
        var fields := if replaceExisting then Set(data.fields, "students", JObj([])) else data.fields;
        match Get(fields, "students")
        case Some(JObj(students)) => Some(JObj(Set(fields, "students", JObj(Set(students, id, studentData)))))
        case _ => None
  }

  /** `data.get('students', {}).get(contact_info, {})`, where a non-dict
      raises and the handler answers `{}`. */
  function StudentOf(data: Json, contactInfo: string): (r: Json)
    ensures r != JObj([]) ==>
      data.JObj? && Get(data.fields, "students").Some? && Get(data.fields, "students").value.JObj? &&
      Get(Get(data.fields, "students").value.fields, contactInfo) == Some(r)
  {
    if !data.JObj? then JObj([])
    else match Get(data.fields, "students")
      case Some(JObj(students)) =>
        (match Get(students, contactInfo)
         case Some(v) => v
         case None => JObj([]))
      case _ => JObj([])
  }

  class JsonStorage {
    var filePath: string
    var disk: Disk
    /** Whether `open(self.file_path, 'w')` succeeds. */
    var writable: bool

    /** `JsonStorage(file_path)`: a missing file is created holding
        `{"students": {}}` when it can be written. */
    constructor (path: string, initial: Disk, canWrite: bool)
      ensures filePath == path && writable == canWrite
      ensures disk == if initial.Missing? && canWrite then Stored(Empty) else initial
    {
      filePath := path;
      disk := initial;
      writable := canWrite;
      new;
      if disk.Missing? {
        var _ := SaveData(Empty);
      }
    }

    /** `load_data()`. */
    method LoadData() returns (r: Json)
      ensures r == Loaded(disk)
    {
      if disk.Stored? {
        r := disk.doc;
      } else {
        r := Empty;
      }
    }

    /** `save_data(data)`: True and the file replaced, or False and the file
        as it was. */
    method SaveData(data: Json) returns (ok: bool)
      modifies this
      ensures ok == writable && filePath == old(filePath) && writable == old(writable)
      ensures disk == if ok then Stored(data) else old(disk)
    {
      if !writable {
        return false;
      }
      disk := Stored(data);
      ok := true;
    }

    /** `clear_data()`. */
    method ClearData() returns (ok: bool)
      modifies this
      ensures ok == writable && filePath == old(filePath) && writable == old(writable)
      ensures disk == if ok then Stored(Empty) else old(disk)
    {
      ok := SaveData(Empty);
    }

    /** `update_student_info(student_data, replace_existing)`: load, file the
        profile under its contact, save. */
    method UpdateStudentInfo(studentData: Json, replaceExisting: bool) returns (ok: bool)
      modifies this
      ensures var u := Updated(Loaded(old(disk)), studentData, replaceExisting);
        ok == (u.Some? && writable) && disk == (if ok then Stored(u.value) else old(disk))
      ensures filePath == old(filePath) && writable == old(writable)
    {
      var data := LoadData();
      var studentId := ContactOf(studentData);
      if studentId.None? {
        return false;
      }
      if !data.JObj? {
        return false;
      }
      var fields := data.fields;
      if replaceExisting {
        fields := Set(fields, "students", JObj([]));
      }
      var students := Get(fields, "students");
      if students.None? || !students.value.JObj? {
        return false;
      }
      fields := Set(fields, "students", JObj(Set(students.value.fields, studentId.value, studentData)));
      ok := SaveData(JObj(fields));
    }

    /** `get_student_info(contact_info)`. */
    method GetStudentInfo(contactInfo: string) returns (r: Json)
      ensures r == StudentOf(Loaded(disk), contactInfo)
    {
      var data := LoadData();
      if !data.JObj? {
        return JObj([]);
      }
      var students := GetOr(data.fields, "students", JObj([]));
      if !students.JObj? {
        return JObj([]);
      }
      r := GetOr(students.fields, contactInfo, JObj([]));
    }
  }

  /** A profile without a non-empty string `contact_info` is refused, so
      nothing is saved. */
  lemma NoContactRefused(data: Json, studentData: Json, replaceExisting: bool)
    requires !studentData.JObj? || !Truthy(GetOr(studentData.fields, "contact_info", JNull))
    ensures Updated(data, studentData, replaceExisting) == None
  {
  }

  /** With `replace_existing`, a dict document ends with exactly one student. */
  lemma ReplaceLeavesOne(data: Json, studentData: Json, id: string)
    requires data.JObj? && ContactOf(studentData) == Some(id)
    ensures var u := Updated(data, studentData, true);
      u.Some? && Get(u.value.fields, "students") == Some(JObj([Field(id, studentData)]))
  {
    var fields := Set(data.fields, "students", JObj([]));
    GetSet(data.fields, "students", JObj([]), "students");
    GetSet(fields, "students", JObj([Field(id, studentData)]), "students");
  }

  /** Without `replace_existing`, the profile is filed under its contact and
      every other student, and every other key of the document, is kept. */
  lemma AddKeepsOthers(data: Json, studentData: Json, id: string, students: seq<Field>, other: string, key: string)
    requires data.JObj? && ContactOf(studentData) == Some(id)
    requires Get(data.fields, "students") == Some(JObj(students))
    requires key != "students"
    ensures var u := Updated(data, studentData, false);
      u.Some? &&
      Get(u.value.fields, "students") == Some(JObj(Set(students, id, studentData))) &&
      Get(Set(students, id, studentData), other) == (if other == id then Some(studentData) else Get(students, other)) &&
      Get(u.value.fields, key) == Get(data.fields, key)
  {
    var s' := JObj(Set(students, id, studentData));
    GetSet(data.fields, "students", s', "students");
    GetSet(data.fields, "students", s', key);
    GetSet(students, id, studentData, other);
  }

  /** A saved update is read back by `get_student_info`. */
  lemma UpdateThenGet(data: Json, studentData: Json, replaceExisting: bool, id: string)
    requires ContactOf(studentData) == Some(id)
    requires Updated(data, studentData, replaceExisting).Some?
    ensures StudentOf(Loaded(Stored(Updated(data, studentData, replaceExisting).value)), id) == studentData
  {
    var fields, students := UpdatedParts(data, studentData, replaceExisting, id);
    var filed := Set(students, id, studentData);
    var u := JObj(Set(fields, "students", JObj(filed)));
    assert Get(u.fields, "students") == Some(JObj(filed)) by {
      GetSet(fields, "students", JObj(filed), "students");
    }
    assert Get(filed, id) == Some(studentData) by {
      GetSet(students, id, studentData, id);
    }
    StudentOfFiled(u, filed, id, studentData);
  }

  /** The document a successful update saves: `students` set to the old
      students dict (emptied with `replace_existing`) with the profile filed
      under `id`. */
  lemma UpdatedParts(data: Json, studentData: Json, replaceExisting: bool, id: string)
    returns (fields: seq<Field>, students: seq<Field>)
    requires ContactOf(studentData) == Some(id)
    requires Updated(data, studentData, replaceExisting).Some?
    ensures data.JObj? && fields == (if replaceExisting then Set(data.fields, "students", JObj([])) else data.fields)
    ensures Get(fields, "students") == Some(JObj(students))
    ensures Updated(data, studentData, replaceExisting) ==
      Some(JObj(Set(fields, "students", JObj(Set(students, id, studentData)))))
  {
    fields := if replaceExisting then Set(data.fields, "students", JObj([])) else data.fields;
    students := Get(fields, "students").value.fields;
  }

  /** A profile filed under `id` in the `students` dict is what is read back. */
  lemma StudentOfFiled(data: Json, students: seq<Field>, id: string, v: Json)
    requires data.JObj? && Get(data.fields, "students") == Some(JObj(students)) && Get(students, id) == Some(v)
    ensures StudentOf(data, id) == v
  {
  }

  /** A contact that was never filed reads as `{}`, and so does every contact
      of a cleared, fresh or unreadable store. */
  lemma AbsentIsEmpty(data: Json, contactInfo: string)
    requires data.JObj? && Get(data.fields, "students").Some? && Get(data.fields, "students").value.JObj?
    requires contactInfo !in Keys(Get(data.fields, "students").value.fields)
    ensures StudentOf(data, contactInfo) == JObj([])
  {
  }

  lemma EmptyHasNoStudents(disk: Disk, contactInfo: string)
    requires !disk.Stored? || disk.doc == Empty
    ensures StudentOf(Loaded(disk), contactInfo) == JObj([])
  {
  }

  /** A fresh or cleared store accepts any profile with a contact, in either mode. */
  lemma EmptyAcceptsProfile(studentData: Json, replaceExisting: bool, id: string)
    requires ContactOf(studentData) == Some(id)
    ensures Updated(Empty, studentData, replaceExisting) == Some(JObj([Field("students", JObj([Field(id, studentData)]))]))
  {
    var fs := [Field("students", JObj([]))];
    assert Set(fs, "students", JObj([])) == fs;
    assert Set([], id, studentData) == [Field(id, studentData)];
    assert Set(fs, "students", JObj([Field(id, studentData)])) == [Field("students", JObj([Field(id, studentData)]))];
  }
}
