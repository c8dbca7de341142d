/**
 * The server's document schemas (server/models/Student.js, Notification.js, User.js):
 * one datatype per document kind, the enumerations they use, the validation that
 * `save()` runs (required fields, ranges, enumerations), the defaults a new
 * document receives, and the password hook of the user model.
 *
 * A Mongoose `required` string rejects both an absent value and the empty
 * string; request fields that may be absent are `Option`s, and where absence and
 * `''` behave the same the model takes `''`.
 */
module Schema {
  import opened Wrappers
  import opened Text

  /** A document's ObjectId. */
  type Id = nat

  // ---------------------------------------------------------------------
  // Enumerations
  // ---------------------------------------------------------------------

  datatype Role = Teacher | Parent | StudentRole

  function RoleName(r: Role): string {
    match r
    case Teacher => "teacher"
    case Parent => "parent"
    case StudentRole => "student"
  }

  /** Casting a request string to the `role` enumeration of the user model. */
  function ParseRole(s: string): (r: Option<Role>)
    ensures forall v :: r == Some(v) <==> s == RoleName(v)
  {
    if s == "teacher" then Some(Teacher)
    else if s == "parent" then Some(Parent)
    else if s == "student" then Some(StudentRole)
    else None
  }

  datatype GradeType = Test | Exam | Homework | Project | Performance | Practical | Essay

  function GradeTypeName(t: GradeType): string {
    match t
    case Test => "test"
    case Exam => "exam"
    case Homework => "homework"
    case Project => "project"
    case Performance => "performance"
    case Practical => "practical"
    case Essay => "essay"
  }

  function ParseGradeType(s: string): (r: Option<GradeType>)
    ensures forall v :: r == Some(v) <==> s == GradeTypeName(v)
  {
    if s == "test" then Some(Test)
    else if s == "exam" then Some(Exam)
    else if s == "homework" then Some(Homework)
    else if s == "project" then Some(Project)
    else if s == "performance" then Some(Performance)
    else if s == "practical" then Some(Practical)
    else if s == "essay" then Some(Essay)
    else None
  }

  datatype Behavior = Excellent | Good | Average | Poor

  function BehaviorName(b: Behavior): string {
    match b
    case Excellent => "excellent"
    case Good => "good"
    case Average => "average"
    case Poor => "poor"
  }

  function ParseBehavior(s: string): (r: Option<Behavior>)
    ensures forall v :: r == Some(v) <==> s == BehaviorName(v)
  {
    if s == "excellent" then Some(Excellent)
    else if s == "good" then Some(Good)
    else if s == "average" then Some(Average)
    else if s == "poor" then Some(Poor)
    else None
  }

  datatype NotificationType = GradeUpdate | Attendance | General

  function NotificationTypeName(t: NotificationType): string {
    match t
    case GradeUpdate => "grade_update"
    case Attendance => "attendance"
    case General => "general"
  }

  function ParseNotificationType(s: string): (r: Option<NotificationType>)
    ensures forall v :: r == Some(v) <==> s == NotificationTypeName(v)
  {
    if s == "grade_update" then Some(GradeUpdate)
    else if s == "attendance" then Some(Attendance)
    else if s == "general" then Some(General)
    else None
  }

  // ---------------------------------------------------------------------
  // Grades and students
  // ---------------------------------------------------------------------

  /** A grade sub-document; `date` is a timestamp in milliseconds. */
  datatype Grade = Grade(subject: string, score: real, kind: GradeType, date: int)

  predicate ValidGrade(g: Grade) {
    |g.subject| > 0 && 0.0 <= g.score <= 10.0
  }

  /** The grade that `grades.push({ subject, score, type })` adds, as the next `save()` validates it:
      `None` when validation fails. An absent type takes the default `homework`; `now` stands for `Date.now`. */
  function NewGrade(subject: string, score: real, kind: Option<string>, now: int): (r: Option<Grade>)
    ensures r.Some? <==> |subject| > 0 && 0.0 <= score <= 10.0 && (kind.None? || ParseGradeType(kind.value).Some?)
    ensures r.Some? ==> ValidGrade(r.value) && r.value.subject == subject && r.value.score == score
    ensures r.Some? ==> r.value.date == now
    ensures r.Some? && kind.None? ==> r.value.kind == Homework
    ensures r.Some? && kind.Some? ==> GradeTypeName(r.value.kind) == kind.value
  {
    var t := if kind.None? then Some(Homework) else ParseGradeType(kind.value);
    if t.Some? && |subject| > 0 && 0.0 <= score <= 10.0 then Some(Grade(subject, score, t.value, now)) else None
  }

  /** The boundary scores 0 and 10 are accepted; anything outside them is refused. */
  lemma ScoreBounds(subject: string, now: int)
    requires |subject| > 0
    ensures NewGrade(subject, 0.0, None, now).Some?
    ensures NewGrade(subject, 10.0, None, now).Some?
    ensures forall x: real :: x < 0.0 || x > 10.0 ==> NewGrade(subject, x, None, now).None?
  {
  }

  datatype StudentRecord = StudentRecord(
    id: Id,
    name: string,
    studentId: string,
    className: string,
    parentEmail: string,
    grades: seq<Grade>,
    attendance: real,
    behavior: Behavior,
    notes: string,
    teacherId: Id)

  predicate ValidStudent(s: StudentRecord) {
    && |s.name| > 0 && |s.studentId| > 0 && |s.className| > 0 && |s.parentEmail| > 0
    && 0.0 <= s.attendance <= 100.0
    && forall i :: 0 <= i < |s.grades| ==> ValidGrade(s.grades[i])
  }

  /** `new Student({ name, studentId, class, parentEmail, teacherId })` with the schema defaults. */
  function NewStudent(id: Id, name: string, studentId: string, className: string, parentEmail: string, teacherId: Id): (s: StudentRecord)
    ensures s.grades == [] && s.attendance == 0.0 && s.behavior == Good && s.notes == ""
    ensures ValidStudent(s) <==> |name| > 0 && |studentId| > 0 && |className| > 0 && |parentEmail| > 0
  {
    StudentRecord(id, name, studentId, className, parentEmail, [], 0.0, Good, "", teacherId)
  }

  // ---------------------------------------------------------------------
  // Notifications
  // ---------------------------------------------------------------------

  /** A notification; `createdAt` is the timestamp the `timestamps` option records. */
  datatype Notification = Notification(
    id: Id,
    title: string,
    message: string,
    kind: NotificationType,
    recipientEmail: string,
    studentId: Option<string>,
    isRead: bool,
    senderId: Id,
    createdAt: int)

  predicate ValidNotification(n: Notification) {
    |n.title| > 0 && |n.message| > 0 && |n.recipientEmail| > 0
  }

  /** `new Notification({ ... })` followed by validation: `None` when `save()` would fail.
      An absent type takes the default `general`, and the new notification is unread. */
  function NewNotification(id: Id, title: string, message: string, kind: Option<string>, recipientEmail: string,
                           studentId: Option<string>, senderId: Id, now: int): (r: Option<Notification>)
    ensures r.Some? <==> |title| > 0 && |message| > 0 && |recipientEmail| > 0
                         && (kind.None? || ParseNotificationType(kind.value).Some?)
    ensures r.Some? ==> ValidNotification(r.value) && !r.value.isRead && r.value.studentId == studentId
    ensures r.Some? ==> r.value.id == id && r.value.senderId == senderId && r.value.recipientEmail == recipientEmail
    ensures r.Some? ==> r.value.title == title && r.value.message == message && r.value.createdAt == now
    ensures r.Some? && kind.None? ==> r.value.kind == General
    ensures r.Some? && kind.Some? ==> NotificationTypeName(r.value.kind) == kind.value
  {
    var t := if kind.None? then Some(General) else ParseNotificationType(kind.value);
    if t.Some? && |title| > 0 && |message| > 0 && |recipientEmail| > 0 then
      Some(Notification(id, title, message, t.value, recipientEmail, studentId, false, senderId, now))
    else None
  }

  // ---------------------------------------------------------------------
  // Users
  // ---------------------------------------------------------------------

  /** A stored user; `password` holds what the pre-save hook left there (normally a bcrypt hash). */
  datatype User = User(id: Id, email: string, password: string, name: string, role: Role, phone: string)

  /** What every stored user satisfies: the required fields are present and the email is stored lower-case. */
  predicate ValidStoredUser(u: User) {
    |u.email| > 0 && ToLower(u.email) == u.email && |u.name| > 0
  }

  /** The validation `save()` runs on a new user, before the pre-save hook replaces the password. */
  predicate ValidNewUser(email: string, password: string, name: string) {
    |email| > 0 && |password| >= 6 && |name| > 0
  }

  /** A bcrypt hash starts with `$2a$`, `$2b$` or `$2y$`. */
  predicate AlreadyHashed(p: string) {
    |p| >= 4 && p[0] == '$' && p[1] == '2' && (p[2] == 'a' || p[2] == 'b' || p[2] == 'y') && p[3] == '$'
  }

  /** The password the pre-save hook leaves: untouched when the path was not modified or already
      looks hashed, otherwise the hash (`hashed` stands for what `bcrypt.hash` returned). */
  function PasswordAfterPreSave(password: string, modified: bool, hashed: string): (r: string)
    ensures !modified ==> r == password
    ensures AlreadyHashed(password) ==> r == password
    ensures modified && !AlreadyHashed(password) ==> r == hashed
  {
    if !modified then password
    else if AlreadyHashed(password) then password
    else hashed
  }

  /** A user document being saved; `save()` runs `PreSave` on it. */
  class UserDocument {
    var email: string
    var password: string
    var name: string
    var role: Role
    var phone: string
    var passwordModified: bool

    /** `new User({ email, password, name, role, phone })`: the `lowercase` setter lower-cases the email,
        and every path of a new document counts as modified. */
    constructor (email: string, password: string, name: string, role: Role, phone: string)
      ensures this.email == ToLower(email) && this.password == password && this.name == name
      ensures this.role == role && this.phone == phone && this.passwordModified
    {
      this.email := ToLower(email);
      this.password := password;
      this.name := name;
      this.role := role;
      this.phone := phone;
      this.passwordModified := true;
    }

    /** The `pre('save')` hook: replaces the password by its hash unless it is unmodified or already hashed. */
    method PreSave(hashed: string)
      modifies this`password
      ensures password == PasswordAfterPreSave(old(password), passwordModified, hashed)
    {
      if !passwordModified {
        return;
      }
      if AlreadyHashed(password) {
        return;
      }
      password := hashed;
    }
  }

  /** What `bcrypt.compare` did: it matched, it did not, or it threw. */
  datatype CompareOutcome = Matched | Mismatched | Threw

  /** `comparePassword`: the comparison's answer, with a thrown error turned into `false`. */
  function ComparePassword(outcome: CompareOutcome): (ok: bool)
    ensures ok <==> outcome == Matched
  {
    match outcome
    case Matched => true
    case Mismatched => false
    case Threw => false
  }
}
