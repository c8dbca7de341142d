/**
 * The submit handlers of the sign-in, sign-up and add-student screens
 * (client/src/screens/LoginScreen.tsx, RegisterScreen.tsx, AddStudentScreen.tsx):
 * checks in a fixed order, the first failure shown as an alert with nothing sent,
 * otherwise one normalised payload handed to the store.
 */
module Forms {
  import opened Wrappers
  import opened Text
  import Schema

  /** What a submit handler does: show `alert` and stop, or send `payload`. */
  datatype Check<T> = Rejected(alert: string) | Accepted(payload: T)

  /** `s.includes('@')`. */
  predicate HasAt(s: string) {
    '@' in s
  }

  // ---------------------------------------------------------------------
  // Sign in
  // ---------------------------------------------------------------------

  datatype Credentials = Credentials(email: string, password: string)

  /** `handleLogin`: both fields filled, an `@` in the email, then the lower-cased and trimmed
      email with the password as typed. */
  function HandleLogin(email: string, password: string): (r: Check<Credentials>)
    ensures email == "" || password == "" ==> r == Rejected("Please fill in all fields")
    ensures email != "" && password != "" && !HasAt(email) ==> r == Rejected("Please enter a valid email address")
    ensures r.Accepted? <==> email != "" && password != "" && HasAt(email)
    ensures r.Accepted? ==> r.payload.password == password && r.payload.email == NormalizeEmail(email)
  {
    if email == "" || password == "" then Rejected("Please fill in all fields")
    else if !HasAt(email) then Rejected("Please enter a valid email address")
    else Accepted(Credentials(NormalizeEmail(email), password))
  }

  /** The email a sign-in sends is lower-case, trimmed, and still holds its `@`. */
  lemma LoginEmailNormalised(email: string, password: string)
    requires HandleLogin(email, password).Accepted?
    ensures var e := HandleLogin(email, password).payload.email;
      ToLower(e) == e && Trim(e) == e && HasAt(e)
  {
    NormalizeEmailStable(email);
    NormalizeKeepsMark(email, '@');
  }

  // ---------------------------------------------------------------------
  // Sign up
  // ---------------------------------------------------------------------

  /** The sign-up form; the role picker starts at `"parent"`. */
  datatype RegisterForm = RegisterForm(name: string, email: string, password: string, confirmPassword: string, phone: string, role: string)

  const EmptyRegisterForm: RegisterForm := RegisterForm("", "", "", "", "", "parent")

  datatype RegisterPayload = RegisterPayload(name: string, email: string, password: string, role: string, phone: string)

  predicate RegisterMissing(f: RegisterForm) {
    f.name == "" || f.email == "" || f.password == "" || f.confirmPassword == ""
  }

  /** `handleRegister`: required fields, `@`, at least six characters, matching confirmation,
      in that order; then the trimmed name and phone, the normalised email, the password as typed. */
  function HandleRegister(f: RegisterForm): (r: Check<RegisterPayload>)
    ensures RegisterMissing(f) ==> r == Rejected("Please fill in all required fields")
    ensures !RegisterMissing(f) && !HasAt(f.email) ==> r == Rejected("Please enter a valid email address")
    ensures !RegisterMissing(f) && HasAt(f.email) && |f.password| < 6 ==>
      r == Rejected("Password must be at least 6 characters long")
    ensures !RegisterMissing(f) && HasAt(f.email) && |f.password| >= 6 && f.password != f.confirmPassword ==>
      r == Rejected("Passwords do not match")
    ensures r.Accepted? <==> !RegisterMissing(f) && HasAt(f.email) && |f.password| >= 6 && f.password == f.confirmPassword
    ensures r.Accepted? ==> r.payload == RegisterPayload(Trim(f.name), NormalizeEmail(f.email), f.password, f.role, Trim(f.phone))
  {
    if RegisterMissing(f) then Rejected("Please fill in all required fields")
    else if !HasAt(f.email) then Rejected("Please enter a valid email address")
    else if |f.password| < 6 then Rejected("Password must be at least 6 characters long")
    else if f.password != f.confirmPassword then Rejected("Passwords do not match")
    else Accepted(RegisterPayload(Trim(f.name), NormalizeEmail(f.email), f.password, f.role, Trim(f.phone)))
  }

  /** An accepted sign-up passes the server's validation of a new user, provided the name is
      not all whitespace: the email keeps its `@` and the password its length. */
  lemma RegisterPayloadValidOnServer(f: RegisterForm)
    requires HandleRegister(f).Accepted? && !AllSpace(f.name)
    ensures var p := HandleRegister(f).payload;
      Schema.ValidNewUser(p.email, p.password, p.name)
  {
    NormalizeKeepsMark(f.email, '@');
  }

  /** The required-field check reads the untrimmed name, so a name of spaces passes it and the
      server then receives an empty name, which its validation refuses. */
  lemma BlankNamePassesCheck()
    ensures var r := HandleRegister(RegisterForm(" ", "a@b.c", "secret", "secret", "", "parent"));
      r.Accepted? && r.payload.name == "" && !Schema.ValidNewUser(r.payload.email, r.payload.password, r.payload.name)
  {
    assert AllSpace(" ");
  }

  // ---------------------------------------------------------------------
  // Add a student
  // ---------------------------------------------------------------------

  /** The add-student form; attendance starts at `"100"` and behavior at `"good"`. */
  datatype StudentForm = StudentForm(name: string, studentId: string, className: string, parentEmail: string,
                                     attendance: string, behavior: string, notes: string)

  const EmptyStudentForm: StudentForm := StudentForm("", "", "", "", "100", "good", "")

  /** The four fields `createStudent` receives. */
  datatype StudentPayload = StudentPayload(name: string, studentId: string, className: string, parentEmail: string)

  predicate StudentMissing(f: StudentForm) {
    f.name == "" || f.studentId == "" || f.className == "" || f.parentEmail == ""
  }

  /** `parseInt(attendance)` is a number between 0 and 100. */
  predicate AttendanceOk(attendance: string) {
    var n := ParseInt(attendance);
    n.Some? && 0 <= n.value <= 100
  }

  /** `handleSubmit`: required fields, `@` in the parent's email, attendance in range, in that
      order; the payload carries only the four normalised identity fields. */
  function HandleSubmit(f: StudentForm): (r: Check<StudentPayload>)
    ensures StudentMissing(f) ==> r == Rejected("Please fill in all required fields")
    ensures !StudentMissing(f) && !HasAt(f.parentEmail) ==> r == Rejected("Please enter a valid parent email address")
    ensures !StudentMissing(f) && HasAt(f.parentEmail) && !AttendanceOk(f.attendance) ==>
      r == Rejected("Attendance must be a number between 0 and 100")
    ensures r.Accepted? <==> !StudentMissing(f) && HasAt(f.parentEmail) && AttendanceOk(f.attendance)
    ensures r.Accepted? ==>
      r.payload == StudentPayload(Trim(f.name), ToUpper(Trim(f.studentId)), Trim(f.className), NormalizeEmail(f.parentEmail))
  {
    if StudentMissing(f) then Rejected("Please fill in all required fields")
    else if !HasAt(f.parentEmail) then Rejected("Please enter a valid parent email address")
    else if !AttendanceOk(f.attendance) then Rejected("Attendance must be a number between 0 and 100")
    else Accepted(StudentPayload(Trim(f.name), ToUpper(Trim(f.studentId)), Trim(f.className), NormalizeEmail(f.parentEmail)))
  }

  /** The untouched attendance field passes its check. */
  lemma DefaultAttendanceOk()
    ensures AttendanceOk(EmptyStudentForm.attendance)
  {
    assert NatToDecimal(100) == "100" by {
      assert NatToDecimal(1) == "1";
      assert NatToDecimal(10) == NatToDecimal(1) + "0";
    }
    ParseDecimalRoundTrip(100);
  }

  /** Attendance, behavior and notes are checked or collected but never sent: changing them,
      as long as attendance still passes, leaves the outcome as it was. */
  lemma PayloadIgnoresExtras(f: StudentForm, attendance: string, behavior: string, notes: string)
    requires AttendanceOk(f.attendance) && AttendanceOk(attendance)
    ensures HandleSubmit(f.(attendance := attendance, behavior := behavior, notes := notes)) == HandleSubmit(f)
  {
  }

  /** The student id sent has no lower-case letters. */
  lemma StudentIdNormalised(f: StudentForm)
    requires HandleSubmit(f).Accepted?
    ensures var id := HandleSubmit(f).payload.studentId;
      forall i :: 0 <= i < |id| ==> !IsLower(id[i])
  {
  }
}
