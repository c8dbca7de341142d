/**
 * The parent's "My Children" screen (client/src/screens/ParentStudentsScreen.tsx):
 * it asks the server for up to 100 students, keeps those whose parent email is
 * exactly the signed-in user's, and shows them only to a parent.
 */
module Children {
  import opened Wrappers
  import opened Seqs
  import opened Text
  import opened Schema
  import opened ClientTypes
  import StudentState
  import StudentRoutes

  /** The page size `loadMyChildren` asks for. */
  const ChildrenLimit: int := 100

  /** The query `loadMyChildren` sends: the first page of at most `ChildrenLimit` students,
      with no search and no class filter. */
  const ChildrenQuery: StudentRoutes.ListQuery := StudentRoutes.ListQuery(None, Some(ChildrenLimit), None, None)

  /** `student.parentEmail === authState.user?.email`: with nobody signed in nothing matches. */
  predicate ChildOf(user: Option<AppUser>, s: Student) {
    user.Some? && s.parentEmail == user.value.email
  }

  /** The filter `loadMyChildren` applies to the server's page, in the server's order. */
  function MyChildren(response: seq<Student>, user: Option<AppUser>): (r: seq<Student>)
    ensures forall i :: 0 <= i < |r| ==> r[i] in response && ChildOf(user, r[i])
    ensures forall i :: 0 <= i < |response| && ChildOf(user, response[i]) ==> response[i] in r
  {
    Filter(response, (s: Student) => ChildOf(user, s))
  }

  /** The displayed children keep the server's order, and each of them exactly as often. */
  lemma MyChildrenKeepsOrder(response: seq<Student>, user: Option<AppUser>, s: Student)
    ensures IsSubsequence(MyChildren(response, user), response)
    ensures multiset(MyChildren(response, user))[s] == if ChildOf(user, s) then multiset(response)[s] else 0
  {
    FilterIsSubsequence(response, (x: Student) => ChildOf(user, x));
    FilterCount(response, (x: Student) => ChildOf(user, x), s);
  }

  /** The server already limits a parent's list to students with exactly their email, so for
      a page it answered the client's filter changes nothing. */
  lemma FilterRedundantForServerPage(response: seq<Student>, user: AppUser)
    requires forall i :: 0 <= i < |response| ==> response[i].parentEmail == user.email
    ensures MyChildren(response, Some(user)) == response
  {
    FilterAll(response, (x: Student) => ChildOf(Some(user), x));
  }

  /** `loadMyChildren`: the query it sends, the students shown after the answer, and the
      alert of a failed one. */
  datatype Loaded = Loaded(request: StudentRoutes.ListQuery, students: seq<Student>, alert: Option<string>)

  function LoadMyChildren(shown: seq<Student>, user: Option<AppUser>, outcome: Outcome<StudentState.StudentsResponse>): (r: Loaded)
    ensures r.request.page.GetOr(1) == 1 && r.request.limit == Some(ChildrenLimit)
    ensures r.request.search.None? && r.request.className.None?
    ensures outcome.Success? ==> r.students == MyChildren(outcome.value.students, user) && r.alert == None
    ensures outcome.Success? ==> |r.students| <= |outcome.value.students|
    ensures outcome.Failure? ==> r.students == shown && r.alert == Some("Failed to load your children data")
  {
    match outcome
    case Success(response) => Loaded(ChildrenQuery, MyChildren(response.students, user), None)
    case Failure(_) => Loaded(ChildrenQuery, shown, Some("Failed to load your children data"))
  }

  /** A server that honours the query's limit answers at most 100 students, so a successful
      load never shows more than 100 children, whatever the parent has on the server. */
  lemma AtMostLimitShown(shown: seq<Student>, user: Option<AppUser>, response: StudentState.StudentsResponse)
    requires |response.students| <= LoadMyChildren(shown, user, Success(response)).request.limit.GetOr(10)
    ensures |LoadMyChildren(shown, user, Success(response)).students| <= ChildrenLimit
  {
  }

  /** What the screen renders: the access-denied view, or the list with its optional
      `"N child(ren) found"` header, the "No Children Found" notice and the loading overlay. */
  datatype View = AccessDenied | ChildList(students: seq<Student>, header: Option<string>, emptyNotice: bool, spinner: bool)

  /** The role guard: anyone but a signed-in parent sees the access-denied view. A parent sees
      the list; the header only above a non-empty list, the empty notice only for an empty list
      that is not loading, and the overlay only while an empty list is loading. */
  function Render(user: Option<AppUser>, shown: seq<Student>, isLoading: bool): (r: View)
    ensures r.AccessDenied? <==> user.None? || user.value.role != Parent
    ensures r.ChildList? ==> r.students == shown
    ensures r.ChildList? ==> (r.header.None? <==> shown == [])
    ensures r.ChildList? && |shown| == 1 ==> r.header == Some("1 child found")
    ensures r.ChildList? && |shown| > 1 ==> r.header == Some(NatToDecimal(|shown|) + " children found")
    ensures r.ChildList? ==> (r.emptyNotice <==> shown == [] && !isLoading)
    ensures r.ChildList? ==> (r.spinner <==> shown == [] && isLoading)
  {
    if user.None? || user.value.role != Parent then AccessDenied
    else
      var h := NatToDecimal(|shown|) + " child" + (if |shown| != 1 then "ren" else "") + " found";
      assert |shown| == 1 ==> h == "1 child found";
      assert |shown| > 1 ==> h == NatToDecimal(|shown|) + " children found";
      var header := if shown == [] then None else Some(h);
      ChildList(shown, header, shown == [] && !isLoading, isLoading && shown == [])
  }

  /** After a successful load a parent sees the list, and every child on it is theirs. */
  lemma ShownChildrenAreOwn(user: AppUser, response: StudentState.StudentsResponse, shown: seq<Student>)
    requires user.role == Parent
    ensures var v := Render(Some(user), LoadMyChildren(shown, Some(user), Success(response)).students, false);
      v.ChildList? && forall i :: 0 <= i < |v.students| ==> v.students[i].parentEmail == user.email
  {
  }
}
