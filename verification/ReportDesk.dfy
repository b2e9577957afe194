/**
 The request handlers that change one stored report. Each reads the report, assembles a filter and an
 update from what it read, and writes with that filter; between the read and the write anything else
 may happen to the report. `Reports` says what each decides; here each is shown to do, at its write,
 what that decision gives for the report as it then stands.
 */
module ReportDesk {
  import opened Basics
  import opened Reports
  import opened ReportSafety
  import opened ReportEffects

  /** Whatever others did between two readings, the later report is the same or a later version. */
  lemma {:induction false} RunIsLater(d: Doc, acts: seq<Action>)
    requires Inv(d)
    ensures Inv(Run(d, acts)) && Since(d.report, Run(d, acts).report)
    decreases |acts|
  {
    if acts != [] {
      StepKeeps(d, acts[0]);
      StepIsLater(d, acts[0]);
      RunIsLater(Step(d, acts[0]), acts[1..]);
      SinceTransitive(d.report, Step(d, acts[0]).report, Run(d, acts).report);
    }
  }

  /** A write decided from an earlier reading keeps the invariant. */
  lemma WriteKeepsInv(d: Doc, q: Request)
    requires Inv(d) && RequestOk(q, d.report) && Matches(PlanOf(q).value.filter, d.report)
    ensures Inv(d.(report := Apply(PlanOf(q).value.patch, d.report)))
  {
    var key := FreshNat(d.pending.Keys);
    var waiting := d.(pending := d.pending[key := q]);
    StoredWaiting(d, q, key);
    StepKeeps(waiting, Write(key));
  }

  lemma StoredWaiting(d: Doc, q: Request, key: nat)
    requires key !in d.pending && PlanOf(q).Ok? && Matches(PlanOf(q).value.filter, d.report)
    ensures Step(d.(pending := d.pending[key := q]), Write(key)) == d.(report := Apply(PlanOf(q).value.patch, d.report))
  {
    assert d.pending[key := q] - {key} == d.pending;
  }

  /**
   Decided from `first`, written when the report was `at`: the write matched, and its effect is the one
   the decision function gives for the report at the write; or nothing was written.
   */
  ghost predicate DecidedAtWrite(first: Doc, at: Doc, after: Doc, v: Viewer, c: Change, expected: Option<nat>, now: nat,
                                 result: Result<Report, Refusal>) {
    match Prepare(first.report, v, c, expected, now)
    case Refused(why) => after == first && result == Result.Refused(why)
    case Ok(plan) =>
      && Since(first.report, at.report)
      && (result.Ok? <==> Matches(plan.filter, at.report))
      && (result.Refused? ==> after == at)
      && (result.Ok? ==>
            && after == at.(report := result.value)
            && Prepare(at.report, v, c, expected, now).Ok?
            && result.value == Apply(Prepare(at.report, v, c, expected, now).value.patch, at.report))
  }

  /**
   Told from the request: refused for its objection to the report as first read; else written exactly if
   the report is undisturbed, and then it leaves the report as asked, to which there is still no objection.
   */
  ghost predicate CarriedOut(first: Doc, at: Doc, after: Doc, v: Viewer, c: Change, expected: Option<nat>, now: nat,
                             result: Result<Report, Refusal>) {
    match Objection(first.report, v, c, expected)
    case Some(why) => after == first && result == Result.Refused(why)
    case None =>
      && Since(first.report, at.report)
      && (if Undisturbed(first.report, at.report, v, c) then result.Ok? else result == Result.Refused(Stale))
      && (result.Refused? ==> after == at)
      && (result.Ok? ==>
            && after == at.(report := result.value) && Leaves(at.report, v, c, now, result.value)
            && (c.Recategorise? || Objection(at.report, v, c, expected).None?))
  }

  lemma DecidedIsCarriedOut(first: Doc, at: Doc, after: Doc, v: Viewer, c: Change, expected: Option<nat>, now: nat,
                            result: Result<Report, Refusal>)
    requires DecidedAtWrite(first, at, after, v, c, expected, now, result)
    requires result.Refused? && Prepare(first.report, v, c, expected, now).Ok? ==> result.reason.Stale?
    ensures CarriedOut(first, at, after, v, c, expected, now, result)
  {
    RefusedFor(first.report, v, c, expected, now);
    if Prepare(first.report, v, c, expected, now).Ok? {
      MatchesUndisturbed(first.report, at.report, v, c, expected, now);
      if result.Ok? {
        RefusedFor(at.report, v, c, expected, now);
        AppliedLeaves(at.report, v, c, expected, now);
      }
    }
  }

  class ReportStore {
    var doc: Doc

    /** Anyone else, for any number of steps. */
    method Others()
      requires Inv(doc)
      modifies this
      ensures Inv(doc) && Since(old(doc.report), doc.report)
    {
      var acts: seq<Action> := *;
      RunIsLater(doc, acts);
      doc := Run(doc, acts);
    }

    /** The history entry and the other fields of a status change. */
    method DecideTransition(r: Report, v: Viewer, c: Change, now: nat) returns (decision: Result<Patch, Refusal>)
      requires c.Update? && c.status.Some?
      ensures decision == Reports.DecideTransition(r, v, c, now)
      ensures decision.Ok? ==> decision.value.event == Some(UpdateEvent(r, v, c, now))
    {
      var to := c.status.value;
      if !Allowed(r.status, to) {
        return Result.Refused(BadMove);
      }
      var publicText := NormaliseNote(c.publicNote, 500);
      var internalText := NormaliseNote(c.internalNote, 1000);
      if publicText.Refused? || internalText.Refused? {
        return Result.Refused(NoteTooLong);
      }
      if (PublicNoteRequired(r.status, to) || to.Rejected?) && publicText.value.None? {
        return Result.Refused(NoteMissing);
      }
      var patch := NoPatch.(status := Some(to));
      if to.Resolved? {
        patch := patch.(resolved := SetTo(now));
      } else if r.status.Resolved? {
        patch := patch.(resolved := Clear);
      }
      var entry := Event(StatusChanged, to, None, None, None, None, v.id, now);
      if publicText.value.Some? {
        entry := entry.(publicNote := publicText.value);
      }
      if internalText.value.Some? {
        entry := entry.(internalNote := internalText.value);
      }
      if c.priority.Some? && c.priority.value != r.priority {
        entry := entry.(priorityChange := Some(PriorityChange(r.priority, c.priority.value)));
        patch := patch.(priority := c.priority);
      }
      return Ok(patch.(event := Some(entry)));
    }

    method DecidePriorityChange(r: Report, v: Viewer, c: Change, now: nat) returns (decision: Result<Patch, Refusal>)
      requires c.Update?
      ensures decision == Reports.DecidePriorityChange(r, v, c, now)
      ensures decision.Ok? && c.status.None? ==> decision.value.event == Some(UpdateEvent(r, v, c, now))
    {
      if c.priority.None? {
        return Result.Refused(BadRequest);
      }
      if c.priority.value == r.priority {
        return Result.Refused(NoChange);
      }
      var publicText := NormaliseNote(c.publicNote, 500);
      var internalText := NormaliseNote(c.internalNote, 1000);
      if publicText.Refused? || internalText.Refused? {
        return Result.Refused(NoteTooLong);
      }
      var entry := Event(PriorityChanged, r.status, Some(PriorityChange(r.priority, c.priority.value)),
        None, None, None, v.id, now);
      if publicText.value.Some? {
        entry := entry.(publicNote := publicText.value);
      }
      if internalText.value.Some? {
        entry := entry.(internalNote := internalText.value);
      }
      return Ok(NoPatch.(event := Some(entry), priority := c.priority));
    }

    method UpdateStatus(v: Viewer, c: Change, expected: Option<nat>, now: nat)
      returns (result: Result<Report, Refusal>, ghost at: Doc)
      requires Inv(doc) && c.Update?
      modifies this
      ensures Inv(doc) && DecidedAtWrite(old(doc), at, doc, v, c, expected, now, result)
      ensures CarriedOut(old(doc), at, doc, v, c, expected, now, result)
    {
      var seen := doc.report;
      at := doc;
      RefusedFor(seen, v, c, expected, now);
      if !CanManageStatus(v, seen) {
        return Result.Refused(NotAllowed), at;
      }
      if c.status.None? && seen.status.Withdrawn? {
        return Result.Refused(IsWithdrawn), at;
      }
      if IsStale(seen, expected) {
        return Result.Refused(Stale), at;
      }
      var decision;
      if c.status.Some? {
        decision := DecideTransition(seen, v, c, now);
      } else {
        decision := DecidePriorityChange(seen, v, c, now);
      }
      if decision.Refused? {
        return Result.Refused(decision.reason), at;
      }
      var filter := Filter(seen.version, Some(seen.status), false, None, None, None, None);
      if c.priority.Some? {
        filter := filter.(priority := Some((seen.priority, seen.prioritySource)));
      }
      if v.role.AgencyRole? {
        filter := filter.(assignee := Some(seen.assignee));
      }
      result, at := WriteIf(Request(seen, v, c, expected, now), Plan(filter, decision.value));
    }

    /** The conditional write: others first, then the filter and the update in one step. */
    method WriteIf(ghost q: Request, plan: Plan) returns (result: Result<Report, Refusal>, ghost at: Doc)
      requires Inv(doc) && q.seen == doc.report && PlanOf(q) == Ok(plan) && !q.change.Recategorise?
      modifies this
      ensures Inv(doc) && DecidedAtWrite(old(doc), at, doc, q.viewer, q.change, q.expected, q.now, result)
      ensures CarriedOut(old(doc), at, doc, q.viewer, q.change, q.expected, q.now, result)
      ensures result.Refused? ==> result.reason == Stale
    {
      ghost var first := doc;
      Others();
      at := doc;
      if !Matches(plan.filter, doc.report) {
        DecidedIsCarriedOut(first, at, doc, q.viewer, q.change, q.expected, q.now, Result.Refused(Stale));
        return Result.Refused(Stale), at;
      }
      WriteKeepsInv(doc, q);
      WriteRefines(q.seen, doc.report, q.viewer, q.change, q.expected, q.now);
      doc := doc.(report := Apply(plan.patch, doc.report));
      DecidedIsCarriedOut(first, at, doc, q.viewer, q.change, q.expected, q.now, Ok(doc.report));
      return Ok(doc.report), at;
    }

    method EditReport(v: Viewer, c: Change, expected: Option<nat>, now: nat)
      returns (result: Result<Report, Refusal>, ghost at: Doc)
      requires Inv(doc) && c.Edit?
      modifies this
      ensures Inv(doc) && DecidedAtWrite(old(doc), at, doc, v, c, expected, now, result)
      ensures CarriedOut(old(doc), at, doc, v, c, expected, now, result)
    {
      var seen := doc.report;
      at := doc;
      RefusedFor(seen, v, c, expected, now);
      if !IsReporter(v, seen) {
        return Result.Refused(NotAllowed), at;
      }
      if !seen.status.Pending? {
        return Result.Refused(NotEditable), at;
      }
      if IsStale(seen, expected) {
        return Result.Refused(Stale), at;
      }
      var material := IsMaterial(seen.description, c.description);
      if |seen.edits| >= MAX_EDITS || (material && seen.ai.analyses >= MAX_ANALYSES) {
        return Result.Refused(EditLimit), at;
      }
      var patch := NoPatch;
      var edited := Edited(false, false, material, now);
      if c.description.Some? && c.description.value != seen.description {
        patch := patch.(description := c.description);
        edited := edited.(description := true);
      }
      if c.location.Some? {
        patch := patch.(location := c.location);
        edited := edited.(location := true);
      }
      if !edited.description && !edited.location {
        return Result.Refused(NothingToWrite), at;
      }
      patch := patch.(edited := Some(edited));
      result, at := WriteIf(Request(seen, v, c, expected, now),
        Plan(Filter(seen.version, Some(Pending), false, Some(seen.reporter), None, None, None), patch));
    }

    /**
     Repeating a withdrawal answers with the report as it is. After a miss the handler looks again: the
     withdrawal may have been its own.
     */
    method WithdrawReport(v: Viewer, c: Change, expected: Option<nat>, now: nat)
      returns (result: Result<Report, Refusal>, ghost written: Result<Report, Refusal>, ghost at: Doc, ghost wrote: Doc)
      requires Inv(doc) && c.Withdraw?
      modifies this
      ensures Inv(doc) && DecidedAtWrite(old(doc), at, wrote, v, c, expected, now, written)
      ensures CarriedOut(old(doc), at, wrote, v, c, expected, now, written)
      ensures Objection(old(doc).report, v, c, expected).None? ==>
        (result.Ok? <==> written.Ok? || WithdrawnBy(doc.report, v.id))
      ensures Objection(old(doc).report, v, c, expected).Some? ==>
        (result.Ok? <==> v.id == doc.report.reporter && WithdrawnBy(doc.report, v.id))
      ensures result.Ok? ==> result.value == doc.report && doc.report.status.Withdrawn?
      ensures result.Refused? && Objection(old(doc).report, v, c, expected).Some? ==>
        result.reason == Objection(old(doc).report, v, c, expected).value
      ensures result.Refused? && Objection(old(doc).report, v, c, expected).None? ==>
        result.reason == if doc.report.status.Pending? then Stale else NotEditable
      ensures written.Ok? || Objection(old(doc).report, v, c, expected).Some? ==> doc == wrote
    {
      var seen := doc.report;
      at := doc;
      wrote := doc;
      RefusedFor(seen, v, c, expected, now);
      if !IsReporter(v, seen) {
        written := Result.Refused(NotAllowed);
        return Result.Refused(NotAllowed), written, at, wrote;
      }
      if OwnWithdrawal(seen, v) {
        written := Result.Refused(AlreadyWithdrawn);
        return Ok(seen), written, at, wrote;
      }
      if !seen.status.Pending? {
        written := Result.Refused(NotEditable);
        return Result.Refused(NotEditable), written, at, wrote;
      }
      if IsStale(seen, expected) {
        written := Result.Refused(Stale);
        return Result.Refused(Stale), written, at, wrote;
      }
      var note := if c.reason.Some? && c.reason.value != "" then c.reason.value else "Withdrawn by reporter";
      var patch := NoPatch.(status := Some(Withdrawn),
                            event := Some(Event(WithdrawnByReporter,
                              Withdrawn, None, None, Some(note), None, v.id, now)));
      if seen.assignee.Some? {
        patch := patch.(assignment := Some(Assignment(WithdrawalUnassignment, seen.assignee, None, v.id, now)));
      }
      result, at := WriteIf(Request(seen, v, c, expected, now),
        Plan(Filter(seen.version, Some(Pending), false, Some(seen.reporter), Some(seen.assignee), None, None), patch));
      written := result;
      wrote := doc;
      if result.Refused? {
        Others();
        if OwnWithdrawal(doc.report, v) {
          result := Ok(doc.report);
        } else if !doc.report.status.Pending? {
          result := Result.Refused(NotEditable);
        }
      }
    }

    /**
     The recorded change starts from the category and status at the write, though classification
     results change categories without a new version.
     */
    method RecategoriseReport(v: Viewer, c: Change, expected: Option<nat>, now: nat)
      returns (result: Result<Report, Refusal>, ghost at: Doc)
      requires Inv(doc) && c.Recategorise?
      modifies this
      ensures Inv(doc)
      ensures CarriedOut(old(doc), at, doc, v, c, expected, now, result)
    {
      var seen := doc.report;
      at := doc;
      RefusedFor(seen, v, c, expected, now);
      if !CanManageStatus(v, seen) {
        return Result.Refused(NotAllowed), at;
      }
      if seen.status.Withdrawn? {
        return Result.Refused(IsWithdrawn), at;
      }
      if IsStale(seen, expected) {
        return Result.Refused(Stale), at;
      }
      if c.category.id == seen.category && seen.ai.disagreement.None? {
        return Result.Refused(CategoryUnchanged), at;
      }
      var from := seen.snapshot;
      var filter := Filter(seen.version, None, true, None, None, None,
        Some((seen.category, seen.categorySource, seen.snapshot.name)));
      if v.role.AgencyRole? {
        filter := filter.(assignee := Some(Some(v.id)));
      }
      var patch := NoPatch.(
        event := Some(Event(CategoryChanged, seen.status, None, Some(CategoryChange(from, c.category)),
          None, Some(c.remark), v.id, now)),
        category := Some(c.category));
      ghost var q := Request(seen, v, c, expected, now);
      assert PlanOf(q) == Ok(Plan(filter, patch));
      Others();
      at := doc;
      MatchesUndisturbed(seen, doc.report, v, c, expected, now);
      if !Matches(filter, doc.report) {
        return Result.Refused(Stale), at;
      }
      WriteKeepsInv(doc, q);
      WriteLeaves(q, doc.report);
      doc := doc.(report := Apply(patch, doc.report));
      return Ok(doc.report), at;
    }
  }
}
