/** A run in which reopening a report leaves it with an account that can no longer work on it. */
module AccountsLimits {
  import opened Basics
  import opened Accounts
  import opened AccountsSafety
  import R = Reports
  import ReportSafety
  import Text

  const Admin := R.Viewer(0, R.AdminRole)
  const Place := R.Category(0, "Other")

  /** Two accounts join; the first becomes the administrator and makes the second an agency account. */
  const Team: seq<Action> := [
    Join("Ada", Address("ada"), true, true), Join("Bo", Address("bo"), true, true),
    Bootstrap(0), Mutate(1, 0, Changes(None, Some(R.AgencyRole), None), None)]

  const Filing: seq<Action> := [FileReport(2, "Pothole", "Here", None, Place, R.Medium, 0)]
  const Suspending: seq<Action> := [Mutate(1, 0, Changes(None, None, Some(false)), None)]

  /** The administrator asks for a change of report 0, which is then written. */
  function Asks(c: R.Change): seq<Action> {
    [OnReport(0, R.Read(0, Admin, c, None, 1)), OnReport(0, R.Write(0))]
  }

  const Assigning := R.Assign(Some(1))
  const Rejecting := R.Update(Some(R.Rejected), None, Some("No"), None)
  const Reopening := R.Update(Some(R.Pending), None, Some("Go"), None)

  lemma {:induction false} RunMore(s: State, first: seq<Action>, rest: seq<Action>)
    ensures Run(s, first + rest) == Run(Run(s, first), rest)
    decreases |first|
  {
    if first == [] {
      assert first + rest == rest;
    } else {
      assert (first + rest)[1..] == first[1..] + rest;
      RunMore(Step(s, first[0]), first[1..], rest);
    }
  }

  lemma RunOne(s: State, a: Action)
    ensures Run(s, [a]) == Step(s, a)
  {
  }

  lemma Staffed()
    ensures
      var s := Run(Start, Team);
      s.docs == [] && HasActiveAdmin(s.accounts, 0) && MayHold(s.accounts, 1) && |s.accounts| == 2
  {
    var s1 := Step(Start, Team[0]);
    var s2 := Step(s1, Team[1]);
    assert ActiveAdmins(s2.accounts) == {};
    var s3 := Step(s2, Team[2]);
    var s4 := Step(s3, Team[3]);
    assert Run(s2, Team[2..]) == Run(s3, Team[2..][1..]);
    assert Run(s3, Team[2..][1..]) == s4;
    assert Team[1..][1..] == Team[2..];
    assert Run(Start, Team) == Run(s1, Team[1..]) == Run(s2, Team[2..]);
  }

  /** Only report 0 exists, no change of it is pending, and its status and assignee are these. */
  predicate OneReport(s: State, status: R.Status, assignee: Option<nat>) {
    && |s.docs| == 1 && s.docs[0].pending == map[]
    && s.docs[0].report.status == status && s.docs[0].report.assignee == assignee
  }

  predicate IsNote(text: string) {
    Text.Trim(text) == text && 0 < |text| <= 500
  }

  /** A change the administrator may make now is made. */
  lemma AsksDoes(s: State, c: R.Change)
    requires |s.docs| == 1 && s.docs[0].pending == map[]
    requires R.Prepare(s.docs[0].report, Admin, c, None, 1).Ok?
    requires c.Assign? ==> CheckAssignment(s, 0, c.target).Ok?
    ensures
      var q := R.Request(s.docs[0].report, Admin, c, None, 1);
      && Run(s, Asks(c)).accounts == s.accounts
      && |Run(s, Asks(c)).docs| == 1
      && Run(s, Asks(c)).docs[0].pending == map[]
      && Run(s, Asks(c)).docs[0].report == R.Apply(R.PlanOf(q).value.patch, s.docs[0].report)
  {
    var q := R.Request(s.docs[0].report, Admin, c, None, 1);
    var t := Step(s, Asks(c)[0]);
    assert t.docs[0].pending == map[0 := q];
    ReportSafety.PreparedMatches(s.docs[0].report, Admin, c, None, 1);
    var u := Step(t, Asks(c)[1]);
    assert u.docs[0].pending == map[];
    assert Asks(c)[1..] == [Asks(c)[1]];
    RunOne(t, Asks(c)[1]);
  }

  lemma Assigned(s: State)
    requires OneReport(s, R.Pending, None) && HasActiveAdmin(s.accounts, 0) && MayHold(s.accounts, 1)
    ensures OneReport(Run(s, Asks(Assigning)), R.Pending, Some(1)) && Run(s, Asks(Assigning)).accounts == s.accounts
  {
    AsksDoes(s, Assigning);
  }

  lemma Moved(s: State, to: R.Status, note: string, assignee: Option<nat>)
    requires |s.docs| == 1 && OneReport(s, s.docs[0].report.status, assignee)
    requires R.Allowed(s.docs[0].report.status, to) && IsNote(note)
    ensures
      var asks := Asks(R.Update(Some(to), None, Some(note), None));
      OneReport(Run(s, asks), to, assignee) && Run(s, asks).accounts == s.accounts
  {
    AsksDoes(s, R.Update(Some(to), None, Some(note), None));
  }

  lemma Suspended(s: State)
    requires OneReport(s, R.Rejected, Some(1)) && HasActiveAdmin(s.accounts, 0) && MayHold(s.accounts, 1)
    ensures OneReport(Run(s, Suspending), R.Rejected, Some(1)) && !MayHold(Run(s, Suspending).accounts, 1)
  {
    RunOne(s, Suspending[0]);
    assert OpenReports(s.docs, 1) == {};
  }

  lemma AssignedAndRejected() returns (acts: seq<Action>)
    ensures OneReport(Run(Start, acts), R.Rejected, Some(1))
    ensures HasActiveAdmin(Run(Start, acts).accounts, 0) && MayHold(Run(Start, acts).accounts, 1)
  {
    Staffed();
    var s := Run(Start, Team);
    acts := Team + Filing;
    RunMore(Start, Team, Filing);
    RunOne(s, Filing[0]);
    Assigned(Run(Start, acts));
    RunMore(Start, acts, Asks(Assigning));
    acts := acts + Asks(Assigning);
    assert Text.Trim("No") == "No";
    Moved(Run(Start, acts), R.Rejected, "No", Some(1));
    RunMore(Start, acts, Asks(Rejecting));
    acts := acts + Asks(Rejecting);
  }

  /** From an empty system, a report is assigned, rejected and reopened, and ends open with a suspended account. */
  lemma ReopeningBreaksFit() returns (acts: seq<Action>)
    ensures AllOpenFit(Start) && !AllOpenFit(Run(Start, acts))
    ensures OneReport(Run(Start, acts), R.Pending, Some(1)) && !MayHold(Run(Start, acts).accounts, 1)
  {
    acts := AssignedAndRejected();
    Suspended(Run(Start, acts));
    RunMore(Start, acts, Suspending);
    acts := acts + Suspending;
    assert Text.Trim("Go") == "Go";
    Moved(Run(Start, acts), R.Pending, "Go", Some(1));
    RunMore(Start, acts, Asks(Reopening));
    acts := acts + Asks(Reopening);
    assert !OpenFits(Run(Start, acts), 0);
  }
}
