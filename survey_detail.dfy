/** The survey page a respondent opens: it looks the survey up, shows the
    respondent's earlier submission if there is one, and records a new
    submission when the respondent confirms completion. */
module SurveyDetail {
  import opened Records
  import opened Auth

  /** The position of the first submission for the pair (survey, user). */
  function FindSubmission(subs: seq<Submission>, surveyId: string, userId: string): (r: Option<nat>)
    ensures r.None? <==> forall i :: 0 <= i < |subs| ==> !(subs[i].surveyId == surveyId && subs[i].userId == userId)
    ensures r.Some? ==> r.value < |subs| && subs[r.value].surveyId == surveyId && subs[r.value].userId == userId
    ensures r.Some? ==> forall j :: 0 <= j < r.value ==> !(subs[j].surveyId == surveyId && subs[j].userId == userId)
  {
    if subs == [] then None
    else if subs[0].surveyId == surveyId && subs[0].userId == userId then Some(0)
    else match FindSubmission(subs[1..], surveyId, userId)
      case None => None
      case Some(k) => Some(k + 1)
  }

  datatype LoadError = NotSignedIn | NoSurveysAvailable | SurveyNotFound

  /** What the page loads: the survey and, when there is one, the user's
      first submission to it. */
  datatype Loaded = Loaded(survey: Survey, submission: Option<Submission>)

  /** `loadSurvey`: the survey is looked up by exact id; with no surveys key
      or no match nothing is loaded (and the page redirects). A missing
      submissions key means no submission. */
  function LoadSurvey(surveys: Option<seq<Survey>>, subs: Option<seq<Submission>>, user: Option<User>, id: string)
    : (r: Result<Loaded, LoadError>)
    ensures user.None? ==> r == Err(NotSignedIn)
    ensures user.Some? && surveys.None? ==> r == Err(NoSurveysAvailable)
    ensures user.Some? && surveys.Some? ==>
      (r == Err(SurveyNotFound) <==> forall i :: 0 <= i < |surveys.value| ==> surveys.value[i].id != id)
    ensures user.Some? && surveys.Some? && FindSurvey(surveys.value, id).Some? ==>
      r.Ok? && r.value.survey == surveys.value[FindSurvey(surveys.value, id).value]
    ensures r.Ok? ==> r.value.survey.id == id && r.value.survey in Items(surveys)
    ensures r.Ok? ==> (r.value.submission.Some? <==>
      exists i :: 0 <= i < |Items(subs)| && Items(subs)[i].surveyId == id && Items(subs)[i].userId == user.value.id)
    ensures r.Ok? && r.value.submission.Some? ==>
      var s := r.value.submission.value;
      s in Items(subs) && s.surveyId == id && s.userId == user.value.id
    ensures r.Ok? && r.value.submission.Some? ==>
      exists k :: 0 <= k < |Items(subs)| && Items(subs)[k] == r.value.submission.value
        && forall j :: 0 <= j < k ==> !(Items(subs)[j].surveyId == id && Items(subs)[j].userId == user.value.id)
  {
    if user.None? then Err(NotSignedIn)
    else if surveys.None? then Err(NoSurveysAvailable)
    else match FindSurvey(surveys.value, id)
      case None => Err(SurveyNotFound)
      case Some(k) =>
        var all := Items(subs);
        var found := FindSubmission(all, id, user.value.id);
        Ok(Loaded(surveys.value[k], if found.Some? then Some(all[found.value]) else None))
  }

  /** The completion controls are shown to a respondent, on an open survey,
      when the page has no submission on record. */
  predicate CompletionOffered(role: Role, status: SurveyStatus, hasSubmitted: bool) {
    role == Respondent && status == Open && !hasSubmitted
  }

  /** The record `handleConfirmCompletion` appends. */
  function NewSubmission(id: string, surveyId: string, user: User, now: int): (s: Submission)
    ensures s.id == id && s.surveyId == surveyId && s.userId == user.id
    ensures s.userName == user.name && s.userEmail == user.email
    ensures s.submittedAt == now && s.status == Pending
  {
    Submission(id, surveyId, user.id, user.name, user.email, now, Pending)
  }

  /** After a submission is appended, the page finds a submission for that
      survey and user, so on a fresh load the controls are no longer shown. */
  lemma {:induction false} LoadAfterConfirmFindsSubmission(
    surveys: seq<Survey>, subs: Option<seq<Submission>>, user: User, routeId: string, subId: string, now: int)
    requires FindSurvey(surveys, routeId).Some?
    ensures
      var r := LoadSurvey(Some(surveys), Some(Items(subs) + [NewSubmission(subId, routeId, user, now)]), Some(user), routeId);
      r.Ok? && r.value.submission.Some?
      && !CompletionOffered(user.role, r.value.survey.status, r.value.submission.Some?)
  {
    var all := Items(subs) + [NewSubmission(subId, routeId, user, now)];
    assert all[|all| - 1].surveyId == routeId && all[|all| - 1].userId == user.id;
  }

  /** The page's state. */
  class DetailPage {
    const routeId: string
    var survey: Option<Survey>
    var hasSubmitted: bool
    var submissionStatus: ReviewStatus

    constructor (routeId: string)
      ensures this.routeId == routeId && survey == None
      ensures !hasSubmitted && submissionStatus == Pending
    {
      this.routeId := routeId;
      survey := None;
      hasSubmitted := false;
      submissionStatus := Pending;
    }

    /** The load effect: on success the survey is shown and, when the user
        has a submission, `hasSubmitted` is raised and its status shown;
        on failure the page state is kept (and the page redirects). */
    method Load(store: Store) returns (outcome: Result<Loaded, LoadError>)
      modifies this
      ensures outcome == LoadSurvey(store.surveys, store.submissions, store.session, routeId)
      ensures outcome.Err? ==> unchanged(this)
      ensures outcome.Ok? ==> survey == Some(outcome.value.survey)
      ensures outcome.Ok? && outcome.value.submission.Some? ==>
        hasSubmitted && submissionStatus == outcome.value.submission.value.status
      ensures outcome.Ok? && outcome.value.submission.None? ==>
        hasSubmitted == old(hasSubmitted) && submissionStatus == old(submissionStatus)
    {
      outcome := LoadSurvey(store.surveys, store.submissions, store.session, routeId);
      if outcome.Ok? {
        survey := Some(outcome.value.survey);
        if outcome.value.submission.Some? {
          hasSubmitted := true;
          submissionStatus := outcome.value.submission.value.status;
        }
      }
    }

    /** `handleConfirmCompletion`: one pending submission for (route id,
        signed-in user) is appended after the existing ones (a missing key
        reads as empty). The handler itself checks neither for an earlier
        submission nor for an open survey; afterwards the page no longer
        offers the controls. */
    method ConfirmCompletion(store: Store, submissionId: string, now: int)
      requires store.session.Some?
      modifies store, this
      ensures store.submissions ==
        Some(Items(old(store.submissions)) + [NewSubmission(submissionId, routeId, old(store.session).value, now)])
      ensures store.users == old(store.users) && store.session == old(store.session)
      ensures store.surveys == old(store.surveys)
      ensures hasSubmitted && survey == old(survey) && submissionStatus == old(submissionStatus)
      ensures forall role, status :: !CompletionOffered(role, status, hasSubmitted)
    {
      var all := Items(store.submissions);
      store.submissions := Some(all + [NewSubmission(submissionId, routeId, store.session.value, now)]);
      hasSubmitted := true;
    }
  }
}
