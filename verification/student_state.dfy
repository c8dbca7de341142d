/**
 * The client's student store (client/src/contexts/StudentContext.tsx): the state,
 * its reducer, and the provider actions, each a short sequence of dispatches
 * around one server call. Actions that change data rethrow a failure to their
 * caller after recording it; the two loads only record it.
 */
module StudentState {
  import opened Wrappers
  import opened Seqs
  import opened ClientTypes

  datatype Pagination = Pagination(currentPage: int, totalPages: int, total: int)

  datatype State = State(
    students: seq<Student>,
    currentStudent: Option<Student>,
    isLoading: bool,
    error: Option<string>,
    pagination: Pagination)

  const Initial: State := State([], None, false, None, Pagination(1, 1, 0))

  /** The body of `GET /students`. */
  datatype StudentsResponse = StudentsResponse(students: seq<Student>, totalPages: int, currentPage: int, total: int)

  datatype Action =
    | SetLoading(loading: bool)
    | SetError(message: Option<string>)
    | SetStudents(response: StudentsResponse)
    | SetCurrentStudent(student: Student)
    | AddStudent(student: Student)
    | UpdateStudent(student: Student)
    | DeleteStudent(id: string)
    | ClearCurrentStudent

  /** `students.map(s => s._id === p._id ? p : s)`. */
  function ReplaceById(students: seq<Student>, p: Student): (r: seq<Student>)
    ensures |r| == |students|
    ensures forall i :: 0 <= i < |r| ==> r[i] == if students[i].id == p.id then p else students[i]
  {
    MapSeq(students, (s: Student) => if s.id == p.id then p else s)
  }

  /** `students.filter(s => s._id !== id)`. */
  function RemoveById(students: seq<Student>, id: string): (r: seq<Student>)
    ensures |r| <= |students|
    ensures forall i :: 0 <= i < |r| ==> r[i].id != id && r[i] in students
    ensures forall i :: 0 <= i < |students| && students[i].id != id ==> students[i] in r
  {
    Filter(students, (s: Student) => s.id != id)
  }

  /** Removal keeps the surviving students in their order. */
  lemma RemoveKeepsOrder(students: seq<Student>, id: string)
    ensures IsSubsequence(RemoveById(students, id), students)
  {
    FilterIsSubsequence(students, (s: Student) => s.id != id);
  }

  /** Removal drops every copy of a matching student and keeps every copy of the others. */
  lemma RemoveCounts(students: seq<Student>, id: string, x: Student)
    ensures multiset(RemoveById(students, id))[x] == if x.id == id then 0 else multiset(students)[x]
  {
    FilterCount(students, (s: Student) => s.id != id, x);
  }

  /** Removing an id that no student has changes nothing. */
  lemma RemoveAbsentId(students: seq<Student>, id: string)
    requires forall i :: 0 <= i < |students| ==> students[i].id != id
    ensures RemoveById(students, id) == students
  {
    FilterAll(students, (s: Student) => s.id != id);
  }

  /** `studentReducer`. */
  function Reduce(s: State, a: Action): (r: State)
    ensures a.SetLoading? ==> r == s.(isLoading := a.loading, error := None)
    ensures a.SetError? ==> r == s.(error := a.message, isLoading := false)
    ensures a.SetStudents? ==>
      && r.students == a.response.students && r.currentStudent == s.currentStudent
      && r.pagination == Pagination(a.response.currentPage, a.response.totalPages, a.response.total)
      && !r.isLoading && r.error == None
    ensures a.SetCurrentStudent? ==> r == s.(currentStudent := Some(a.student), isLoading := false, error := None)
    ensures a.AddStudent? ==> r == s.(students := [a.student] + s.students, isLoading := false, error := None)
    ensures a.UpdateStudent? ==>
      && r.students == ReplaceById(s.students, a.student)
      && r.currentStudent == (if s.currentStudent.Some? && s.currentStudent.value.id == a.student.id then Some(a.student) else s.currentStudent)
      && r.pagination == s.pagination && !r.isLoading && r.error == None
    ensures a.DeleteStudent? ==>
      && r.students == RemoveById(s.students, a.id)
      && (r.currentStudent == None <==> s.currentStudent == None || s.currentStudent.value.id == a.id)
      && (r.currentStudent.Some? ==> r.currentStudent == s.currentStudent)
      && r.pagination == s.pagination && !r.isLoading && r.error == None
    ensures a.ClearCurrentStudent? ==> r == s.(currentStudent := None)
  {
    match a
    case SetLoading(b) => s.(isLoading := b, error := None)
    case SetError(m) => s.(error := m, isLoading := false)
    case SetStudents(resp) =>
      s.(students := resp.students, pagination := Pagination(resp.currentPage, resp.totalPages, resp.total),
         isLoading := false, error := None)
    case SetCurrentStudent(st) => s.(currentStudent := Some(st), isLoading := false, error := None)
    case AddStudent(st) => s.(students := [st] + s.students, isLoading := false, error := None)
    case UpdateStudent(st) =>
      s.(students := ReplaceById(s.students, st),
         currentStudent := if s.currentStudent.Some? && s.currentStudent.value.id == st.id then Some(st) else s.currentStudent,
         isLoading := false, error := None)
    case DeleteStudent(id) =>
      s.(students := RemoveById(s.students, id),
         currentStudent := if s.currentStudent.Some? && s.currentStudent.value.id == id then None else s.currentStudent,
         isLoading := false, error := None)
    case ClearCurrentStudent => s.(currentStudent := None)
  }

  /** Receiving the same updated student twice leaves the list as receiving it once. */
  lemma {:induction false} ReplaceIdempotent(students: seq<Student>, p: Student)
    ensures ReplaceById(ReplaceById(students, p), p) == ReplaceById(students, p)
  {
    var once := ReplaceById(students, p);
    var twice := ReplaceById(once, p);
    assert |twice| == |once|;
    forall i | 0 <= i < |once| ensures twice[i] == once[i] {
      if students[i].id == p.id {
        assert once[i] == p;
      }
    }
  }

  // ---------------------------------------------------------------------
  // Provider actions
  // ---------------------------------------------------------------------

  /** Where a provider action leaves the store, and whether it rethrew. */
  datatype Settled = Settled(state: State, rethrown: bool)

  /** `loadStudents`: a failure is recorded and not rethrown. */
  function LoadStudents(s: State, outcome: Outcome<StudentsResponse>): (r: State)
    ensures !r.isLoading
    ensures outcome.Success? ==> r == s.(students := outcome.value.students,
      pagination := Pagination(outcome.value.currentPage, outcome.value.totalPages, outcome.value.total),
      isLoading := false, error := None)
    ensures outcome.Failure? ==> r == s.(isLoading := false, error := Some(ErrorText(outcome.message, "Failed to load students")))
  {
    var loading := Reduce(s, SetLoading(true));
    match outcome
    case Success(resp) => Reduce(loading, SetStudents(resp))
    case Failure(m) => Reduce(loading, SetError(Some(ErrorText(m, "Failed to load students"))))
  }

  /** `loadStudent`: a failure is recorded and not rethrown. */
  function LoadStudent(s: State, outcome: Outcome<Student>): (r: State)
    ensures !r.isLoading && r.students == s.students
    ensures outcome.Success? ==> r == s.(currentStudent := Some(outcome.value), isLoading := false, error := None)
    ensures outcome.Failure? ==> r == s.(isLoading := false, error := Some(ErrorText(outcome.message, "Failed to load student")))
  {
    var loading := Reduce(s, SetLoading(true));
    match outcome
    case Success(st) => Reduce(loading, SetCurrentStudent(st))
    case Failure(m) => Reduce(loading, SetError(Some(ErrorText(m, "Failed to load student"))))
  }

  /** `createStudent`: the created student goes first in the list; a failure is recorded and rethrown. */
  function CreateStudent(s: State, outcome: Outcome<Student>): (r: Settled)
    ensures r.rethrown <==> outcome.Failure?
    ensures !r.state.isLoading
    ensures outcome.Success? ==> r.state == s.(students := [outcome.value] + s.students, isLoading := false, error := None)
    ensures outcome.Failure? ==> r.state == s.(isLoading := false, error := Some(ErrorText(outcome.message, "Failed to create student")))
  {
    var loading := Reduce(s, SetLoading(true));
    match outcome
    case Success(st) => Settled(Reduce(loading, AddStudent(st)), false)
    case Failure(m) => Settled(Reduce(loading, SetError(Some(ErrorText(m, "Failed to create student")))), true)
  }

  /** `updateStudent`: the returned student replaces every entry with its id; a failure is recorded and rethrown. */
  function UpdateStudentAction(s: State, outcome: Outcome<Student>): (r: Settled)
    ensures r.rethrown <==> outcome.Failure?
    ensures !r.state.isLoading
    ensures outcome.Success? ==> r.state == s.(students := ReplaceById(s.students, outcome.value),
      currentStudent := if s.currentStudent.Some? && s.currentStudent.value.id == outcome.value.id
                        then Some(outcome.value) else s.currentStudent,
      isLoading := false, error := None)
    ensures outcome.Failure? ==> r.state == s.(isLoading := false, error := Some(ErrorText(outcome.message, "Failed to update student")))
  {
    var loading := Reduce(s, SetLoading(true));
    match outcome
    case Success(st) => Settled(Reduce(loading, UpdateStudent(st)), false)
    case Failure(m) => Settled(Reduce(loading, SetError(Some(ErrorText(m, "Failed to update student")))), true)
  }

  /** `deleteStudent(id)`: on success every entry with that id goes; a failure is recorded and rethrown. */
  function DeleteStudentAction(s: State, id: string, outcome: Outcome<()>): (r: Settled)
    ensures r.rethrown <==> outcome.Failure?
    ensures !r.state.isLoading
    ensures outcome.Success? ==> r.state == s.(students := RemoveById(s.students, id),
      currentStudent := if s.currentStudent.Some? && s.currentStudent.value.id == id then None else s.currentStudent,
      isLoading := false, error := None)
    ensures outcome.Failure? ==> r.state == s.(isLoading := false, error := Some(ErrorText(outcome.message, "Failed to delete student")))
  {
    var loading := Reduce(s, SetLoading(true));
    match outcome
    case Success(_) => Settled(Reduce(loading, DeleteStudent(id)), false)
    case Failure(m) => Settled(Reduce(loading, SetError(Some(ErrorText(m, "Failed to delete student")))), true)
  }

  /** `addGrade`: the student the server returns replaces the entries with its id; a failure is
      recorded and rethrown. */
  function AddGrade(s: State, outcome: Outcome<Student>): (r: Settled)
    ensures r.rethrown <==> outcome.Failure?
    ensures !r.state.isLoading
    ensures outcome.Success? ==> r.state == s.(students := ReplaceById(s.students, outcome.value),
      currentStudent := if s.currentStudent.Some? && s.currentStudent.value.id == outcome.value.id
                        then Some(outcome.value) else s.currentStudent,
      isLoading := false, error := None)
    ensures outcome.Failure? ==> r.state == s.(isLoading := false, error := Some(ErrorText(outcome.message, "Failed to add grade")))
  {
    var loading := Reduce(s, SetLoading(true));
    match outcome
    case Success(st) => Settled(Reduce(loading, UpdateStudent(st)), false)
    case Failure(m) => Settled(Reduce(loading, SetError(Some(ErrorText(m, "Failed to add grade")))), true)
  }

  /** `clearCurrentStudent`. */
  function ClearCurrent(s: State): (r: State)
    ensures r == s.(currentStudent := None)
  {
    Reduce(s, ClearCurrentStudent)
  }
}
