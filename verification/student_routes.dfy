/**
 * The `/students` router (server/routes/students.js): the scoped, searched and
 * paged list, fetch by id, create, update, add-grade with its notification for
 * the parent, and delete. The authenticated caller (what the auth middleware
 * puts in `req.user`) is the `actor` parameter.
 */
module StudentRoutes {
  import opened Wrappers
  import opened Text
  import opened Seqs
  import opened Schema
  import opened Store

  // ---------------------------------------------------------------------
  // GET / — the list
  // ---------------------------------------------------------------------

  /** The query string; an absent parameter takes its default (page 1, limit 10, no search, no class). */
  datatype ListQuery = ListQuery(page: Option<int>, limit: Option<int>, search: Option<string>, className: Option<string>)

  /** The Mongo filter the handler assembles: one optional clause per field. */
  datatype StudentFilter = StudentFilter(
    teacherId: Option<Id>,
    parentEmail: Option<string>,
    search: Option<string>,
    className: Option<string>)

  predicate Matches(f: StudentFilter, s: StudentRecord) {
    && (f.teacherId.Some? ==> s.teacherId == f.teacherId.value)
    && (f.parentEmail.Some? ==> s.parentEmail == f.parentEmail.value)
    && (f.search.Some? ==> ContainsIgnoringCase(s.name, f.search.value) || ContainsIgnoringCase(s.studentId, f.search.value))
    && (f.className.Some? ==> s.className == f.className.value)
  }

  /** Whom each role may list: a teacher their own students, a parent the students whose
      parent email is exactly theirs, and a student-role user everyone. */
  predicate InScope(actor: User, s: StudentRecord) {
    match actor.role
    case Teacher => s.teacherId == actor.id
    case Parent => s.parentEmail == actor.email
    case StudentRole => true
  }

  /** An empty search matches everything; otherwise the name or the student id must contain it, ignoring case. */
  predicate SearchHit(search: string, s: StudentRecord) {
    search == "" || ContainsIgnoringCase(s.name, search) || ContainsIgnoringCase(s.studentId, search)
  }

  /** An empty class matches everything; otherwise the class must be exactly it. */
  predicate ClassHit(className: string, s: StudentRecord) {
    className == "" || s.className == className
  }

  /** The filter built clause by clause from the caller's role, the search and the class. */
  function BuildFilter(actor: User, search: string, className: string): (f: StudentFilter)
    ensures forall s :: Matches(f, s) <==> InScope(actor, s) && SearchHit(search, s) && ClassHit(className, s)
  {
    StudentFilter(
      if actor.role == Teacher then Some(actor.id) else None,
      if actor.role == Parent then Some(actor.email) else None,
      if search != "" then Some(search) else None,
      if className != "" then Some(className) else None)
  }

  /** `.sort({ name: 1 })`. */
  function NameLe(a: StudentRecord, b: StudentRecord): bool {
    TextLe(a.name, b.name)
  }

  lemma NameOrder()
    ensures TotalPreorder(NameLe)
  {
    forall a: StudentRecord, b: StudentRecord ensures NameLe(a, b) || NameLe(b, a) {
      TextLeTotal(a.name, b.name);
    }
    forall a: StudentRecord, b: StudentRecord, c: StudentRecord | NameLe(a, b) && NameLe(b, c) ensures NameLe(a, c) {
      TextLeTransitive(a.name, b.name, c.name);
    }
  }

  /** The JSON body of a successful list. */
  datatype StudentPage = StudentPage(students: seq<StudentRecord>, totalPages: nat, currentPage: int, total: nat)

  /** `GET /students`. The ghost `ids` are the documents the filter selects, in the order
      the collection yields them; `total` counts them and the page is cut from them. A page
      below 1 makes the skip negative, which the database refuses. */
  method ListStudents(db: Database, actor: User, q: ListQuery) returns (r: Response<StudentPage>, ghost ids: seq<Id>)
    requires q.limit.GetOr(10) >= 1
    ensures NoDuplicates(ids)
    ensures forall id :: id in ids <==>
      (id in db.students && InScope(actor, db.students[id])
       && SearchHit(q.search.GetOr(""), db.students[id]) && ClassHit(q.className.GetOr(""), db.students[id]))
    ensures q.page.GetOr(1) < 1 ==> r == Fail(500, ServerError)
    ensures q.page.GetOr(1) >= 1 ==> r.Ok? && r.status == 200 && r.message == ""
    ensures r.Ok? ==> r.body.total == |ids| && r.body.currentPage == q.page.GetOr(1)
    ensures r.Ok? ==> r.body.totalPages == CeilDiv(|ids|, q.limit.GetOr(10))
    ensures r.Ok? ==> r.body.students == Page(ValuesAt(db.students, ids), NameLe, q.page.GetOr(1), q.limit.GetOr(10))
    ensures r.Ok? ==> SortedBy(r.body.students, NameLe) && |r.body.students| <= q.limit.GetOr(10)
    ensures r.Ok? ==> forall i :: 0 <= i < |r.body.students| ==>
      && r.body.students[i] in db.students.Values
      && InScope(actor, r.body.students[i])
      && SearchHit(q.search.GetOr(""), r.body.students[i])
      && ClassHit(q.className.GetOr(""), r.body.students[i])
  {
    var page, limit := q.page.GetOr(1), q.limit.GetOr(10);
    var search, className := q.search.GetOr(""), q.className.GetOr("");
    var f := BuildFilter(actor, search, className);
    var found := Select(db.students, s => Matches(f, s));
    ids := found;
    if page < 1 {
      return Fail(500, ServerError), ids;
    }
    var all := ValuesAt(db.students, found);
    var students := Page(all, NameLe, page, limit);
    NameOrder();
    PageSorted(all, NameLe, page, limit);
    forall i | 0 <= i < |students|
      ensures students[i] in db.students.Values && Matches(f, students[i])
    {
      var j :| 0 <= j < |all| && all[j] == students[i];
      assert db.students[found[j]] == students[i];
    }
    r := Ok(200, "", StudentPage(students, CeilDiv(|found|, limit), page, |found|));
  }

  // ---------------------------------------------------------------------
  // GET /:id
  // ---------------------------------------------------------------------

  /** `GET /students/:id`: any authenticated caller gets the record, whoever owns it. */
  method FetchStudent(db: Database, actor: User, id: Id) returns (r: Response<StudentRecord>)
    ensures id in db.students ==> r == Ok(200, "", db.students[id])
    ensures id !in db.students ==> r == Fail(404, "Student not found")
  {
    if id !in db.students {
      return Fail(404, "Student not found");
    }
    r := Ok(200, "", db.students[id]);
  }

  // ---------------------------------------------------------------------
  // POST / — create
  // ---------------------------------------------------------------------

  /** The four fields the handler takes from the body; everything else in the body is ignored. */
  datatype NewStudentBody = NewStudentBody(name: string, studentId: string, className: string, parentEmail: string)

  /** `POST /students`: a duplicate student id is refused before anything is built; the new record
      belongs to the caller and has the schema defaults; a validation failure is a 500. */
  method CreateStudent(db: Database, actor: User, body: NewStudentBody) returns (r: Response<StudentRecord>)
    requires db.Valid()
    modifies db`students, db`nextId
    ensures db.Valid()
    ensures actor.role != Teacher ==> r == TeacherOnlyRejected && unchanged(db)
    ensures actor.role == Teacher && StudentIdTaken(old(db.students), body.studentId) ==>
      r == Fail(400, "Student ID already exists") && unchanged(db)
    ensures actor.role == Teacher && !StudentIdTaken(old(db.students), body.studentId) ==>
      var s := NewStudent(old(db.nextId), body.name, body.studentId, body.className, body.parentEmail, actor.id);
      if ValidStudent(s) then
        && r == Ok(201, "Student created successfully", s)
        && db.students == old(db.students)[s.id := s]
        && db.nextId == old(db.nextId) + 1
      else
        r == Fail(500, ServerError) && unchanged(db)
  {
    if actor.role != Teacher {
      return TeacherOnlyRejected;
    }
    if StudentIdTaken(db.students, body.studentId) {
      return Fail(400, "Student ID already exists");
    }
    var s := NewStudent(db.nextId, body.name, body.studentId, body.className, body.parentEmail, actor.id);
    if !ValidStudent(s) {
      return Fail(500, ServerError);
    }
    db.students := db.students[s.id := s];
    db.nextId := db.nextId + 1;
    r := Ok(201, "Student created successfully", s);
  }

  // ---------------------------------------------------------------------
  // PUT /:id — update
  // ---------------------------------------------------------------------

  /** The body of an update: every field the schema knows, each possibly absent. */
  datatype StudentPatch = StudentPatch(
    name: Option<string>,
    studentId: Option<string>,
    className: Option<string>,
    parentEmail: Option<string>,
    grades: Option<seq<Grade>>,
    attendance: Option<real>,
    behavior: Option<string>,
    notes: Option<string>,
    teacherId: Option<Id>)

  const NoChanges: StudentPatch := StudentPatch(None, None, None, None, None, None, None, None, None)

  /** `Object.assign(student, req.body)`: each field present in the body replaces the stored one,
      the owner included; `None` when the behavior is not one of the enumeration's values. */
  function ApplyPatch(s: StudentRecord, p: StudentPatch): (r: Option<StudentRecord>)
    ensures r.Some? <==> p.behavior.None? || ParseBehavior(p.behavior.value).Some?
    ensures r.Some? ==> r.value.id == s.id
    ensures r.Some? ==> r.value.name == p.name.GetOr(s.name) && r.value.studentId == p.studentId.GetOr(s.studentId)
    ensures r.Some? ==> r.value.className == p.className.GetOr(s.className) && r.value.parentEmail == p.parentEmail.GetOr(s.parentEmail)
    ensures r.Some? ==> r.value.grades == p.grades.GetOr(s.grades) && r.value.attendance == p.attendance.GetOr(s.attendance)
    ensures r.Some? ==> r.value.notes == p.notes.GetOr(s.notes) && r.value.teacherId == p.teacherId.GetOr(s.teacherId)
    ensures r.Some? && p.behavior.None? ==> r.value.behavior == s.behavior
    ensures r.Some? && p.behavior.Some? ==> BehaviorName(r.value.behavior) == p.behavior.value
  {
    var behavior := if p.behavior.None? then Some(s.behavior) else ParseBehavior(p.behavior.value);
    if behavior.None? then None
    else Some(StudentRecord(
      s.id,
      p.name.GetOr(s.name),
      p.studentId.GetOr(s.studentId),
      p.className.GetOr(s.className),
      p.parentEmail.GetOr(s.parentEmail),
      p.grades.GetOr(s.grades),
      p.attendance.GetOr(s.attendance),
      behavior.value,
      p.notes.GetOr(s.notes),
      p.teacherId.GetOr(s.teacherId)))
  }

  /** An empty body changes nothing. */
  lemma NoChangesIsIdentity(s: StudentRecord)
    ensures ApplyPatch(s, NoChanges) == Some(s)
  {
  }

  /** Assigning the same body a second time changes nothing more. */
  lemma ApplyPatchIdempotent(s: StudentRecord, p: StudentPatch)
    requires ApplyPatch(s, p).Some?
    ensures ApplyPatch(ApplyPatch(s, p).value, p) == ApplyPatch(s, p)
  {
  }

  /** Another document than `id` already holds `studentId`, so the unique index refuses the save. */
  predicate StudentIdTakenByOther(m: map<Id, StudentRecord>, id: Id, studentId: string) {
    exists other :: other in m && other != id && m[other].studentId == studentId
  }

  /** `PUT /students/:id`: 404 before 403, then the body is copied over the record; a cast,
      validation or unique-index failure is a 500 that leaves the store unchanged. */
  method UpdateStudent(db: Database, actor: User, id: Id, patch: StudentPatch) returns (r: Response<StudentRecord>)
    requires db.Valid()
    modifies db`students
    ensures db.Valid()
    ensures actor.role != Teacher ==> r == TeacherOnlyRejected && unchanged(db)
    ensures actor.role == Teacher && id !in old(db.students) ==> r == Fail(404, "Student not found") && unchanged(db)
    ensures actor.role == Teacher && id in old(db.students) && old(db.students[id].teacherId) != actor.id ==>
      r == Fail(403, "Access denied") && unchanged(db)
    ensures actor.role == Teacher && id in old(db.students) && old(db.students[id].teacherId) == actor.id ==>
      var patched := ApplyPatch(old(db.students[id]), patch);
      if patched.Some? && ValidStudent(patched.value) && !StudentIdTakenByOther(old(db.students), id, patched.value.studentId) then
        r == Ok(200, "Student updated successfully", patched.value) && db.students == old(db.students)[id := patched.value]
      else
        r == Fail(500, ServerError) && unchanged(db)
  {
    if actor.role != Teacher {
      return TeacherOnlyRejected;
    }
    if id !in db.students {
      return Fail(404, "Student not found");
    }
    var s := db.students[id];
    if s.teacherId != actor.id {
      return Fail(403, "Access denied");
    }
    var patched := ApplyPatch(s, patch);
    if patched.None? || !ValidStudent(patched.value) || StudentIdTakenByOther(db.students, id, patched.value.studentId) {
      return Fail(500, ServerError);
    }
    db.students := db.students[id := patched.value];
    r := Ok(200, "Student updated successfully", patched.value);
  }

  // ---------------------------------------------------------------------
  // POST /:id/grades — add a grade and notify the parent
  // ---------------------------------------------------------------------

  const GradeTitle: string := "Điểm số mới"

  /** The message of a grade notification; `scoreText` is the score as the request renders it. */
  function GradeMessage(name: string, subject: string, scoreText: string): (m: string)
    ensures |m| > |name| + |subject| + |scoreText|
  {
    name + " vừa có điểm " + subject + ": " + scoreText + "/10"
  }

  /** The notification created for the parent of `s` after a grade in `subject` was saved. */
  function GradeNotification(id: Id, s: StudentRecord, subject: string, scoreText: string, sender: Id, now: int): (n: Notification)
    requires ValidStudent(s)
    ensures ValidNotification(n) && n.id == id && !n.isRead && n.createdAt == now
    ensures n.kind == GradeUpdate && n.title == GradeTitle && n.message == GradeMessage(s.name, subject, scoreText)
    ensures n.recipientEmail == s.parentEmail && n.studentId == Some(s.studentId) && n.senderId == sender
  {
    NewNotification(id, GradeTitle, GradeMessage(s.name, subject, scoreText), Some("grade_update"), s.parentEmail, Some(s.studentId), sender, now).value
  }

  /** Appending a valid grade keeps a student valid. */
  lemma AppendGradeKeepsValid(s: StudentRecord, g: Grade)
    requires ValidStudent(s) && ValidGrade(g)
    ensures ValidStudent(s.(grades := s.grades + [g]))
  {
    var gs := s.grades + [g];
    forall i | 0 <= i < |gs| ensures ValidGrade(gs[i]) {
      if i < |s.grades| {
        assert gs[i] == s.grades[i];
      }
    }
  }

  /** `POST /students/:id/grades`. The grade is saved first, then the notification; when saving the
      notification fails (`notificationSaveFails`), the answer is a 500 although the grade stays. */
  method AddGrade(db: Database, actor: User, id: Id, subject: string, score: real, kind: Option<string>,
                  scoreText: string, now: int, notificationSaveFails: bool) returns (r: Response<StudentRecord>)
    requires db.Valid()
    modifies db`students, db`notifications, db`nextId
    ensures db.Valid()
    ensures actor.role != Teacher ==> r == TeacherOnlyRejected && unchanged(db)
    ensures actor.role == Teacher && id !in old(db.students) ==> r == Fail(404, "Student not found") && unchanged(db)
    ensures actor.role == Teacher && id in old(db.students) && old(db.students[id].teacherId) != actor.id ==>
      r == Fail(403, "Access denied") && unchanged(db)
    ensures actor.role == Teacher && id in old(db.students) && old(db.students[id].teacherId) == actor.id ==>
      var s := old(db.students[id]);
      var g := NewGrade(subject, score, kind, now);
      if g.None? then
        r == Fail(500, ServerError) && unchanged(db)
      else
        var s' := s.(grades := s.grades + [g.value]);
        var n := GradeNotification(old(db.nextId), s, subject, scoreText, actor.id, now);
        && db.students == old(db.students)[id := s']
        && (notificationSaveFails ==>
              r == Fail(500, ServerError) && db.notifications == old(db.notifications) && db.nextId == old(db.nextId))
        && (!notificationSaveFails ==>
              && r == Ok(200, "Grade added successfully", s')
              && db.notifications == old(db.notifications)[n.id := n]
              && db.nextId == old(db.nextId) + 1)
  {
    if actor.role != Teacher {
      return TeacherOnlyRejected;
    }
    if id !in db.students {
      return Fail(404, "Student not found");
    }
    var s := db.students[id];
    if s.teacherId != actor.id {
      return Fail(403, "Access denied");
    }
    var g := NewGrade(subject, score, kind, now);
    if g.None? {
      return Fail(500, ServerError);
    }
    var s' := s.(grades := s.grades + [g.value]);
    AppendGradeKeepsValid(s, g.value);
    db.students := db.students[id := s'];
    if notificationSaveFails {
      return Fail(500, ServerError);
    }
    var n := GradeNotification(db.nextId, s, subject, scoreText, actor.id, now);
    db.notifications := db.notifications[n.id := n];
    db.nextId := db.nextId + 1;
    r := Ok(200, "Grade added successfully", s');
  }

  // ---------------------------------------------------------------------
  // DELETE /:id
  // ---------------------------------------------------------------------

  /** `DELETE /students/:id`: 404 before 403; the owner's delete removes exactly that record. */
  method DeleteStudent(db: Database, actor: User, id: Id) returns (r: Response<()>)
    requires db.Valid()
    modifies db`students
    ensures db.Valid()
    ensures actor.role != Teacher ==> r == TeacherOnlyRejected && unchanged(db)
    ensures actor.role == Teacher && id !in old(db.students) ==> r == Fail(404, "Student not found") && unchanged(db)
    ensures actor.role == Teacher && id in old(db.students) && old(db.students[id].teacherId) != actor.id ==>
      r == Fail(403, "Access denied") && unchanged(db)
    ensures actor.role == Teacher && id in old(db.students) && old(db.students[id].teacherId) == actor.id ==>
      r == Ok(200, "Student deleted successfully", ()) && db.students == old(db.students) - {id}
  {
    if actor.role != Teacher {
      return TeacherOnlyRejected;
    }
    if id !in db.students {
      return Fail(404, "Student not found");
    }
    if db.students[id].teacherId != actor.id {
      return Fail(403, "Access denied");
    }
    db.students := db.students - {id};
    r := Ok(200, "Student deleted successfully", ());
  }
}
