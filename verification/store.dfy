/**
 * The in-memory stand-in for the MongoDB database behind the Express routers:
 * one map per collection from document id to document, and a single counter
 * that hands out fresh ids. `Valid` collects what the schemas and the unique
 * indexes guarantee about every stored document.
 */
module Store {
  import opened Wrappers
  import opened Text
  import opened Schema

  /** What a route handler answers. `Ok` carries the status, the `message` field of the
      JSON body (`""` when the body has none) and the payload; `Fail` is an error status with
      its message; `TeacherOnlyRejected` is the rejection of the `teacherOnly` middleware,
      whose status is decided by code that is not part of this model. */
  datatype Response<T> =
    | Ok(status: nat, message: string, body: T)
    | Fail(status: nat, message: string)
    | TeacherOnlyRejected

  /** The body every caught exception turns into. */
  const ServerError: string := "Server error"

  /** The `unique` index on `studentId`. */
  predicate UniqueStudentIds(m: map<Id, StudentRecord>) {
    forall a, b :: a in m && b in m && m[a].studentId == m[b].studentId ==> a == b
  }

  /** `Student.findOne({ studentId })` finds a document. */
  predicate StudentIdTaken(m: map<Id, StudentRecord>, studentId: string) {
    exists id :: id in m && m[id].studentId == studentId
  }

  /** The `unique` index on `email`. */
  predicate UniqueEmails(m: map<Id, User>) {
    forall a, b :: a in m && b in m && m[a].email == m[b].email ==> a == b
  }

  /** `User.findOne({ email })` finds a document; the schema's `lowercase` setter applies to the
      query value as it does to stored values. */
  predicate EmailRegistered(m: map<Id, User>, email: string) {
    exists id :: id in m && m[id].email == ToLower(email)
  }

  class Database {
    var students: map<Id, StudentRecord>
    var notifications: map<Id, Notification>
    var users: map<Id, User>
    /** The next id to hand out; every stored id is below it. */
    var nextId: Id

    predicate Valid()
      reads this
    {
      && (forall id :: id in students ==> id < nextId && students[id].id == id && ValidStudent(students[id]))
      && UniqueStudentIds(students)
      && (forall id :: id in notifications ==> id < nextId && notifications[id].id == id && ValidNotification(notifications[id]))
      && (forall id :: id in users ==> id < nextId && users[id].id == id && ValidStoredUser(users[id]))
      && UniqueEmails(users)
    }

    /** An empty database. */
    constructor ()
      ensures Valid()
      ensures students == map[] && notifications == map[] && users == map[] && nextId == 0
    {
      students := map[];
      notifications := map[];
      users := map[];
      nextId := 0;
    }
  }
}
