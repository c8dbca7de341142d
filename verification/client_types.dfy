/**
 * The shapes the mobile client receives from the server (client/src/utils/types.ts),
 * reduced to the fields the client logic reads. Ids are the strings JSON carries.
 */
module ClientTypes {
  import opened Schema

  /** A student as the client holds it; the remaining fields are carried along unread. */
  datatype Student = Student(id: string, name: string, studentId: string, className: string, parentEmail: string)

  /** The signed-in user as the auth responses describe it. */
  datatype AppUser = AppUser(id: string, email: string, name: string, role: Role, phone: string)

  /** A notification as the screens show it; `createdAt` in milliseconds, `kind` the type string. */
  datatype NotificationItem = NotificationItem(id: string, title: string, message: string, kind: string, isRead: bool, createdAt: int)

  /** What a client call to the server produced: its value, or the thrown error's message
      (`""` when the error has none). */
  datatype Outcome<T> = Success(value: T) | Failure(message: string)

  /** `error.message || fallback`. */
  function ErrorText(message: string, fallback: string): (t: string)
    ensures message != "" ==> t == message
    ensures message == "" ==> t == fallback
  {
    if message == "" then fallback else message
  }
}
