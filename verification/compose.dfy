/**
 * The compose screen (client/src/screens/ComposeNotificationScreen.tsx): the
 * class and parent-email pickers, the recipient list each audience yields, and
 * the send handler, which checks the form in order and then issues one create
 * request per recipient.
 */
module Compose {
  import opened Wrappers
  import opened Text
  import opened Seqs
  import opened ClientTypes
  import opened Forms

  /** Who a notification goes to: every loaded parent, one address, or the parents of one class. */
  datatype Audience = All | Specific | ByClass

  datatype ComposeForm = ComposeForm(title: string, message: string, kind: string, audience: Audience,
                                     recipientEmail: string, className: string)

  const EmptyComposeForm: ComposeForm := ComposeForm("", "", "general", All, "", "")

  /** `students.map(s => s.parentEmail)`. */
  function ParentEmails(students: seq<Student>): (r: seq<string>)
    ensures |r| == |students|
    ensures forall i :: 0 <= i < |r| ==> r[i] == students[i].parentEmail
  {
    MapSeq(students, (s: Student) => s.parentEmail)
  }

  /** `students.map(s => s.class)`. */
  function ClassNames(students: seq<Student>): (r: seq<string>)
    ensures |r| == |students|
    ensures forall i :: 0 <= i < |r| ==> r[i] == students[i].className
  {
    MapSeq(students, (s: Student) => s.className)
  }

  /** `students.filter(s => s.class === className)`. */
  function InClass(students: seq<Student>, className: string): (r: seq<Student>)
    ensures forall i :: 0 <= i < |r| ==> r[i] in students && r[i].className == className
    ensures forall i :: 0 <= i < |students| && students[i].className == className ==> students[i] in r
  {
    Filter(students, (s: Student) => s.className == className)
  }

  /** Some loaded student has `email` as parent email. */
  predicate ParentOf(students: seq<Student>, email: string) {
    exists i :: 0 <= i < |students| && students[i].parentEmail == email
  }

  /** Some loaded student is in class `className`. */
  predicate ClassOf(students: seq<Student>, className: string) {
    exists i :: 0 <= i < |students| && students[i].className == className
  }

  /** Some loaded student of class `className` has `email` as parent email. */
  predicate ParentInClass(students: seq<Student>, className: string, email: string) {
    exists i :: 0 <= i < |students| && students[i].className == className && students[i].parentEmail == email
  }

  /** Each distinct parent email once: exactly the parents of some loaded student. */
  lemma {:induction false} DistinctParents(students: seq<Student>)
    ensures forall e :: e in Dedup(ParentEmails(students)) <==> ParentOf(students, e)
  {
    var emails := ParentEmails(students);
    var r := Dedup(emails);
    forall e ensures e in r <==> ParentOf(students, e) {
      if e in r {
        var k :| 0 <= k < |r| && r[k] == e;
        var i :| 0 <= i < |emails| && emails[i] == e;
        assert students[i].parentEmail == e;
      }
      if ParentOf(students, e) {
        var i :| 0 <= i < |students| && students[i].parentEmail == e;
        assert emails[i] in r;
      }
    }
  }

  /** A parent of the class's students is a parent of a student of that class, and back. */
  lemma ParentOfClassMembers(students: seq<Student>, className: string, e: string)
    ensures ParentOf(InClass(students, className), e) <==> ParentInClass(students, className, e)
  {
    var members := InClass(students, className);
    if ParentOf(members, e) {
      var i :| 0 <= i < |members| && members[i].parentEmail == e;
      var j :| 0 <= j < |students| && students[j] == members[i];
      assert students[j].className == className && students[j].parentEmail == e;
    }
    if ParentInClass(students, className, e) {
      var i :| 0 <= i < |students| && students[i].className == className && students[i].parentEmail == e;
      var j :| 0 <= j < |members| && members[j] == students[i];
      assert members[j].parentEmail == e;
    }
  }

  /** The parents of one class's students: exactly the parents of some loaded student of that class. */
  lemma DistinctParentsInClass(students: seq<Student>, className: string)
    ensures forall e :: e in Dedup(ParentEmails(InClass(students, className))) <==> ParentInClass(students, className, e)
  {
    DistinctParents(InClass(students, className));
    forall e ensures ParentOf(InClass(students, className), e) <==> ParentInClass(students, className, e) {
      ParentOfClassMembers(students, className, e);
    }
  }

  /** `getRecipientEmails`: every distinct parent email once, exactly the typed address,
      or every distinct parent email of the chosen class once. */
  function RecipientEmails(students: seq<Student>, f: ComposeForm): (r: seq<string>)
    ensures f.audience == Specific ==> r == [f.recipientEmail]
    ensures f.audience != Specific ==> NoDuplicates(r)
    ensures f.audience == All ==> forall e :: e in r <==> ParentOf(students, e)
    ensures f.audience == ByClass ==> forall e :: e in r <==> ParentInClass(students, f.className, e)
  {
    match f.audience
    case All =>
      DistinctParents(students);
      Dedup(ParentEmails(students))
    case Specific => [f.recipientEmail]
    case ByClass =>
      DistinctParentsInClass(students, f.className);
      Dedup(ParentEmails(InClass(students, f.className)))
  }

  /** Sending to everyone lists each parent at the position of their first child in the loaded list. */
  lemma AllInFirstOccurrenceOrder(students: seq<Student>, f: ComposeForm)
    requires f.audience == All
    ensures var r := RecipientEmails(students, f);
      forall i, j :: 0 <= i < j < |r| ==> IndexOf(ParentEmails(students), r[i]) < IndexOf(ParentEmails(students), r[j])
  {
    DedupFirstOccurrenceOrder(ParentEmails(students));
  }

  // ---------------------------------------------------------------------
  // Sending
  // ---------------------------------------------------------------------

  /** One `createNotification` call. */
  datatype CreateRequest = CreateRequest(title: string, message: string, kind: string, recipientEmail: string)

  predicate BlankContent(f: ComposeForm) {
    Trim(f.title) == "" || Trim(f.message) == ""
  }

  /** `handleSend`: title and message not blank, an address for one recipient, a class for a
      class, at least one recipient, in that order; then one request per recipient carrying the
      trimmed title and message and the chosen type. */
  function HandleSend(students: seq<Student>, f: ComposeForm): (r: Check<seq<CreateRequest>>)
    ensures BlankContent(f) ==> r == Rejected("Please fill in title and message")
    ensures !BlankContent(f) && f.audience == Specific && f.recipientEmail == "" ==>
      r == Rejected("Please select a recipient email")
    ensures !BlankContent(f) && f.audience == ByClass && f.className == "" ==> r == Rejected("Please select a class")
    ensures (&& !BlankContent(f)
             && !(f.audience == Specific && f.recipientEmail == "")
             && !(f.audience == ByClass && f.className == "")
             && RecipientEmails(students, f) == []) ==>
      r == Rejected("No recipients found for your selection")
    ensures r.Accepted? <==>
      && !BlankContent(f)
      && !(f.audience == Specific && f.recipientEmail == "")
      && !(f.audience == ByClass && f.className == "")
      && RecipientEmails(students, f) != []
    ensures r.Accepted? ==>
      && |r.payload| == |RecipientEmails(students, f)|
      && forall i :: 0 <= i < |r.payload| ==>
           r.payload[i] == CreateRequest(Trim(f.title), Trim(f.message), f.kind, RecipientEmails(students, f)[i])
  {
    if BlankContent(f) then Rejected("Please fill in title and message")
    else if f.audience == Specific && f.recipientEmail == "" then Rejected("Please select a recipient email")
    else if f.audience == ByClass && f.className == "" then Rejected("Please select a class")
    else
      var emails := RecipientEmails(students, f);
      if emails == [] then Rejected("No recipients found for your selection")
      else Accepted(MapSeq(emails, (e: string) => CreateRequest(Trim(f.title), Trim(f.message), f.kind, e)))
  }

  /** A send to everyone reaches every loaded parent with exactly one request. */
  lemma EveryParentOnce(students: seq<Student>, f: ComposeForm, email: string)
    requires f.audience == All && HandleSend(students, f).Accepted? && ParentOf(students, email)
    ensures var reqs := HandleSend(students, f).payload;
      exists i :: 0 <= i < |reqs| && reqs[i].recipientEmail == email
    ensures var reqs := HandleSend(students, f).payload;
      forall i, j :: 0 <= i < j < |reqs| ==> reqs[i].recipientEmail != reqs[j].recipientEmail
  {
    var reqs := HandleSend(students, f).payload;
    var emails := RecipientEmails(students, f);
    var k :| 0 <= k < |emails| && emails[k] == email;
    assert reqs[k].recipientEmail == email;
  }

  // ---------------------------------------------------------------------
  // Pickers
  // ---------------------------------------------------------------------

  datatype Pickers = Pickers(classes: seq<string>, parentEmails: seq<string>)

  /** `r` is `[...new Set(xs)]` by its properties: each value of `xs` once, nothing else, in the
      order of first appearance. */
  ghost predicate FirstOccurrences(xs: seq<string>, r: seq<string>) {
    && NoDuplicates(r)
    && (forall x :: x in xs <==> x in r)
    && forall i, j :: 0 <= i < j < |r| ==> r[i] in xs && r[j] in xs && IndexOf(xs, r[i]) < IndexOf(xs, r[j])
  }

  lemma DedupFirstOccurrences(xs: seq<string>)
    ensures FirstOccurrences(xs, Dedup(xs))
  {
    DedupFirstOccurrenceOrder(xs);
  }

  /** The de-duplicated class list holds exactly the loaded classes. */
  lemma ClassPicker(students: seq<Student>)
    ensures forall i :: 0 <= i < |students| ==> students[i].className in Dedup(ClassNames(students))
    ensures forall c :: c in Dedup(ClassNames(students)) ==> ClassOf(students, c)
  {
    var classes := ClassNames(students);
    forall i | 0 <= i < |students| ensures students[i].className in Dedup(classes) {
      assert classes[i] in Dedup(classes);
    }
    forall c | c in Dedup(classes) ensures ClassOf(students, c) {
      var j :| 0 <= j < |classes| && classes[j] == c;
      assert students[j].className == c;
    }
  }

  /** The de-duplicated parent-email list holds exactly the loaded parents. */
  lemma EmailPicker(students: seq<Student>)
    ensures forall i :: 0 <= i < |students| ==> students[i].parentEmail in Dedup(ParentEmails(students))
    ensures forall e :: e in Dedup(ParentEmails(students)) ==> ParentOf(students, e)
  {
    DistinctParents(students);
    forall i | 0 <= i < |students| ensures students[i].parentEmail in Dedup(ParentEmails(students)) {
      assert ParentOf(students, students[i].parentEmail);
    }
  }

  /** The effect that refreshes the pickers when the loaded students change: nothing while the
      list is empty, otherwise each distinct loaded class and each distinct loaded parent email
      once, in the order of their first appearance in the list. */
  function RefreshPickers(prev: Pickers, students: seq<Student>): (r: Pickers)
    ensures |students| == 0 ==> r == prev
    ensures |students| > 0 ==> FirstOccurrences(ClassNames(students), r.classes)
    ensures |students| > 0 ==> FirstOccurrences(ParentEmails(students), r.parentEmails)
    ensures |students| > 0 ==> forall i :: 0 <= i < |students| ==> students[i].className in r.classes
    ensures |students| > 0 ==> forall i :: 0 <= i < |students| ==> students[i].parentEmail in r.parentEmails
    ensures |students| > 0 ==> forall c :: c in r.classes ==> ClassOf(students, c)
    ensures |students| > 0 ==> forall e :: e in r.parentEmails ==> ParentOf(students, e)
  {
    if |students| == 0 then prev
    else
      DedupFirstOccurrences(ClassNames(students));
      DedupFirstOccurrences(ParentEmails(students));
      ClassPicker(students);
      EmailPicker(students);
      Pickers(Dedup(ClassNames(students)), Dedup(ParentEmails(students)))
  }
}
