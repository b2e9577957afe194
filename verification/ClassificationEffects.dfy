/**
 What a classification does to a report, told from the answer, the active categories and the report at the
 write: which category it gets, what stays as people chose it, and when a disagreement is noted.
 */
module ClassificationEffects {
  import opened Basics
  import opened Reports

  predicate Names(categories: seq<Category>, name: string) {
    exists i :: 0 <= i < |categories| && categories[i].name == name
  }

  /** The active category of that name; if there are several, the last. */
  predicate IsNamed(categories: seq<Category>, name: string, c: Category) {
    exists i :: 0 <= i < |categories| && categories[i] == c && c.name == name
      && forall j :: i < j < |categories| ==> categories[j].name != name
  }

  /** The category an answer means: the one it names, or Other if there is none of that name. */
  predicate Means(categories: seq<Category>, answer: Answer, c: Category) {
    IsNamed(categories, if Names(categories, answer.category) then answer.category else "Other", c)
  }

  lemma {:induction false} FindsLast(categories: seq<Category>, name: string)
    ensures FindCategory(categories, name).None? <==> !Names(categories, name)
    ensures FindCategory(categories, name).Some? ==> IsNamed(categories, name, FindCategory(categories, name).value)
    decreases |categories|
  {
    if categories != [] && categories[|categories| - 1].name != name {
      var init := categories[..|categories| - 1];
      FindsLast(init, name);
      if Names(init, name) {
        var i :| 0 <= i < |init| && init[i] == FindCategory(init, name).value && init[i].name == name
          && forall j :: i < j < |init| ==> init[j].name != name;
        assert categories[i] == init[i];
        forall j | i < j < |categories| ensures categories[j].name != name {
          if j < |init| { assert categories[j] == init[j]; }
        }
      } else {
        forall i | 0 <= i < |categories| ensures categories[i].name != name {
          if i < |init| { assert categories[i] == init[i]; }
        }
      }
    }
  }

  lemma NamedIsOne(categories: seq<Category>, name: string, c: Category, d: Category)
    requires IsNamed(categories, name, c) && IsNamed(categories, name, d)
    ensures c == d
  {
  }

  /** The chosen category is the one the answer means; there is none only if neither name is there. */
  lemma ChosenIsMeant(categories: seq<Category>, answer: Answer)
    ensures ChosenCategory(categories, answer).None? <==>
      !Names(categories, answer.category) && !Names(categories, "Other")
    ensures forall c :: Means(categories, answer, c) <==> ChosenCategory(categories, answer) == Some(c)
  {
    FindsLast(categories, answer.category);
    FindsLast(categories, "Other");
    forall c ensures Means(categories, answer, c) <==> ChosenCategory(categories, answer) == Some(c) {
      var name := if Names(categories, answer.category) then answer.category else "Other";
      if Means(categories, answer, c) {
        assert Names(categories, name);
        NamedIsOne(categories, name, c, ChosenCategory(categories, answer).value);
      }
    }
  }

  /** A person chose the category: staff, or the citizen who filed the report. */
  predicate ByPerson(source: CategorySource) {
    source.Staff? || source.Citizen?
  }

  /** A confident answer that means another category than the citizen chose is kept beside it. */
  function Objects(r: Report, answer: Answer, c: Category, threshold: real): Option<Disagreement> {
    if r.categorySource.Citizen? && c.id != r.category && answer.confidence >= threshold
    then Some(Disagreement(c, answer.confidence)) else None
  }

  /** The report after a result, from the report at the write and the category the answer means. */
  predicate ResultLeaves(at: Report, answer: Answer, c: Category, threshold: real, r: Report) {
    r == at.(
      category := if ByPerson(at.categorySource) then at.category else c.id,
      snapshot := if ByPerson(at.categorySource) then at.snapshot else c,
      categorySource := if ByPerson(at.categorySource) then at.categorySource else ByAi,
      priority := if at.prioritySource.StaffPriority? then at.priority else answer.priority,
      prioritySource := if at.prioritySource.StaffPriority? then StaffPriority else AiPriority,
      ai := Ai(AiDone, at.ai.request, None, at.ai.analyses, Some(answer), Objects(at, answer, c, threshold), None))
  }

  lemma DecisionLeaves(at: Report, answer: Answer, c: Category, threshold: real)
    ensures ResultLeaves(at, answer, c, threshold,
                         ApplyClassification(DecideClassification(at, answer, c, threshold), at))
  {
  }

  /** What can be told from a classified report alone. */
  ghost predicate IsClassified(r: Report, categories: seq<Category>, answer: Answer, threshold: real) {
    && r.ai.status.AiDone? && r.ai.answer == Some(answer) && r.ai.token.None? && r.ai.failure.None?
    && (ByPerson(r.categorySource) || r.categorySource.ByAi?)
    && (r.categorySource.ByAi? ==> Means(categories, answer, r.snapshot) && r.category == r.snapshot.id)
    && (r.prioritySource.StaffPriority? || (r.prioritySource.AiPriority? && r.priority == answer.priority))
    && exists c :: Means(categories, answer, c) && r.ai.disagreement == Objects(r, answer, c, threshold)
  }

  lemma ResultIsClassified(at: Report, categories: seq<Category>, answer: Answer, c: Category, threshold: real,
                           r: Report)
    requires Means(categories, answer, c) && ResultLeaves(at, answer, c, threshold, r)
    ensures IsClassified(r, categories, answer, threshold)
  {
  }

  /** A final failure: the request fails with its code, and a provisional category becomes the fallback. */
  predicate FailureLeaves(at: Report, code: Code, now: nat, r: Report) {
    r == at.(categorySource := if at.categorySource.Provisional? then Fallback else at.categorySource,
             ai := at.ai.(status := AiFailed, failure := Some(AiFailure(code, now)), token := None))
  }

  /** An invalid answer gets one more try, a passing or unknown failure as many as the queue allows, others none. */
  predicate MayTryAgain(code: Code, lastError: Option<Code>) {
    match code
    case InvalidOutput => lastError != Some(InvalidOutput)
    case ProviderDown => true
    case RateLimited => true
    case Timeout => true
    case Internal => true
    case _ => false
  }

  /** The failures the daily sweep asks again about: those that pass by themselves. */
  predicate Passes(code: Code) {
    code in {Timeout, RateLimited, ProviderDown}
  }

  /** The report asked again: a higher request number, and nothing of older results. */
  predicate AskLeaves(at: Report, r: Report) {
    r == at.(ai := Ai(AiPending, at.ai.request + 1, None, at.ai.analyses, None, None, None))
  }
}
