/** The response-review page of a survey's author: loading the survey's
    submissions, and settling a submission by approving or rejecting it. */
module SurveyResponses {
  import opened Records
  import Seqs
  import opened Auth

  // ------------------------------------------------------------- loading

  datatype LoadError = NotSignedIn | NotResearcher | NoSurveysFound | SurveyNotFound | AccessDenied

  /** `loadSurveyData`: only a signed-in researcher gets past the redirects;
      the survey is looked up by id and shown only when its
      `researcherName` equals the user's name; the rows are exactly the
      stored submissions to this survey, in stored order. */
  function LoadResponses(surveys: Option<seq<Survey>>, subs: Option<seq<Submission>>, user: Option<User>, id: string)
    : (r: Result<(Survey, seq<Submission>), LoadError>)
    ensures user.None? ==> r == Err(NotSignedIn)
    ensures user.Some? && user.value.role != Researcher ==> r == Err(NotResearcher)
    ensures r.Ok? ==> user.Some? && user.value.role == Researcher
    ensures r.Ok? ==> r.value.0 in Items(surveys) && r.value.0.id == id
    ensures r.Ok? ==> r.value.0.researcherName == user.value.name
    ensures user.Some? && user.value.role == Researcher && surveys.Some? && FindSurvey(surveys.value, id).Some? ==>
      (r == Err(AccessDenied) <==> surveys.value[FindSurvey(surveys.value, id).value].researcherName != user.value.name)
    ensures user.Some? && user.value.role == Researcher && surveys.None? ==> r == Err(NoSurveysFound)
    ensures user.Some? && user.value.role == Researcher && surveys.Some? ==>
      (r == Err(SurveyNotFound) <==> FindSurvey(surveys.value, id).None?)
    ensures user.Some? && user.value.role == Researcher && surveys.Some? && FindSurvey(surveys.value, id).Some? ==>
      var found := surveys.value[FindSurvey(surveys.value, id).value];
      found.researcherName == user.value.name ==> r.Ok? && r.value.0 == found
    ensures r.Ok? ==> Seqs.SubsequenceOf(r.value.1, Items(subs))
    ensures r.Ok? ==> forall s :: s in r.value.1 <==> s in Items(subs) && s.surveyId == id
    ensures r.Ok? ==> forall s :: multiset(r.value.1)[s] == if s.surveyId == id then multiset(Items(subs))[s] else 0
  {
    if user.None? then Err(NotSignedIn)
    else if user.value.role != Researcher then Err(NotResearcher)
    else if surveys.None? then Err(NoSurveysFound)
    else match FindSurvey(surveys.value, id)
      case None => Err(SurveyNotFound)
      case Some(k) =>
        if surveys.value[k].researcherName != user.value.name then Err(AccessDenied)
        else Ok((surveys.value[k], Seqs.Filter(Items(subs), (s: Submission) => s.surveyId == id)))
  }

  /** The Approve and Reject buttons are rendered only for a pending row. */
  predicate ReviewActionsOffered(s: Submission) {
    s.status == Pending
  }

  // ------------------------------------------------------------ settlement

  /** The submissions after a review: exactly those with id `id` get the
      new status; every other submission is kept. */
  function MarkStatus(subs: seq<Submission>, id: string, status: ReviewStatus): (r: seq<Submission>)
    ensures |r| == |subs|
    ensures forall i :: 0 <= i < |subs| && subs[i].id == id ==> r[i] == subs[i].(status := status)
    ensures forall i :: 0 <= i < |subs| && subs[i].id != id ==> r[i] == subs[i]
  {
    Seqs.UpdateWhere(subs, (s: Submission) => s.id == id, (s: Submission) => s.(status := status))
  }

  /** A review takes the reviewed rows out of the buttons' reach and leaves
      the buttons of every other row as they were: through the page, a
      submission leaves `pending` at most once. */
  lemma ReviewEndsReviewability(subs: seq<Submission>, id: string, status: ReviewStatus)
    requires status != Pending
    ensures forall i :: 0 <= i < |subs| && subs[i].id == id ==> !ReviewActionsOffered(MarkStatus(subs, id, status)[i])
    ensures forall i :: 0 <= i < |subs| && subs[i].id != id ==>
      ReviewActionsOffered(MarkStatus(subs, id, status)[i]) == ReviewActionsOffered(subs[i])
  {
  }

  /** The stored surveys after an approval for survey `id`: the response
      count of that survey goes up by one only while it is open; a closed
      survey and every other survey are kept. */
  function CountApproval(surveys: seq<Survey>, id: string): (r: seq<Survey>)
    ensures |r| == |surveys|
    ensures forall i :: 0 <= i < |surveys| && surveys[i].id == id && surveys[i].status == Open ==>
      r[i] == surveys[i].(respondentCount := surveys[i].respondentCount + 1)
    ensures forall i :: 0 <= i < |surveys| && (surveys[i].id != id || surveys[i].status != Open) ==>
      r[i] == surveys[i]
  {
    Seqs.UpdateWhere(surveys, (s: Survey) => s.id == id && s.status == Open,
                     (s: Survey) => s.(respondentCount := s.respondentCount + 1))
  }

  /** The stored users after an approval: `amount` is added to the balance
      of exactly the accounts with id `userId`; nothing else changes. */
  function Credit(users: seq<StoredUser>, userId: string, amount: int): (r: seq<StoredUser>)
    ensures |r| == |users|
    ensures forall i :: 0 <= i < |users| && users[i].profile.id == userId ==>
      r[i] == users[i].(profile := users[i].profile.(points := users[i].profile.points + amount))
    ensures forall i :: 0 <= i < |users| && users[i].profile.id != userId ==> r[i] == users[i]
  {
    Seqs.UpdateWhere(users, (u: StoredUser) => u.profile.id == userId,
                     (u: StoredUser) => u.(profile := u.profile.(points := u.profile.points + amount)))
  }

  function TotalPoints(users: seq<StoredUser>): int {
    if users == [] then 0 else users[0].profile.points + TotalPoints(users[1..])
  }

  function CountWithId(users: seq<StoredUser>, id: string): nat {
    if users == [] then 0 else (if users[0].profile.id == id then 1 else 0) + CountWithId(users[1..], id)
  }

  /** Conservation: a credit raises the total balance by the amount once
      per account with that id, and by nothing else. */
  lemma {:induction false} CreditTotal(users: seq<StoredUser>, userId: string, amount: int)
    ensures TotalPoints(Credit(users, userId, amount)) == TotalPoints(users) + amount * CountWithId(users, userId)
  {
    if users != [] {
      var r := Credit(users, userId, amount);
      assert r[1..] == Credit(users[1..], userId, amount);
      CreditTotal(users[1..], userId, amount);
    }
  }

  /** After an approval the page shows its loaded count plus one, while
      storage bumps the count only of an open survey: the two agree
      exactly when the survey is open, so a closed survey's page count
      runs one ahead of storage. */
  lemma PageCountMatchesStoredIffOpen(surveys: seq<Survey>, i: nat, loaded: Survey)
    requires i < |surveys| && loaded == surveys[i]
    ensures CountApproval(surveys, loaded.id)[i].respondentCount == loaded.respondentCount + 1
        <==> loaded.status == Open
    ensures loaded.status == Closed ==>
      CountApproval(surveys, loaded.id)[i].respondentCount == loaded.respondentCount
  {
  }

  // ---------------------------------------------------------------- page

  /** The page's state: the survey as loaded and the rows shown. */
  class ResponsesPage {
    const routeId: string
    var survey: Option<Survey>
    var rows: seq<Submission>

    constructor (routeId: string)
      ensures this.routeId == routeId && survey == None && rows == []
    {
      this.routeId := routeId;
      survey := None;
      rows := [];
    }

    /** The load effect: on success the survey and its submissions are
        shown; on failure the state is kept (and the page redirects). */
    method Load(store: Store) returns (outcome: Result<(Survey, seq<Submission>), LoadError>)
      modifies this
      ensures outcome == LoadResponses(store.surveys, store.submissions, store.session, routeId)
      ensures outcome.Err? ==> unchanged(this)
      ensures outcome.Ok? ==> survey == Some(outcome.value.0) && rows == outcome.value.1
    {
      outcome := LoadResponses(store.surveys, store.submissions, store.session, routeId);
      if outcome.Ok? {
        survey := Some(outcome.value.0);
        rows := outcome.value.1;
      }
    }

    /** `handleApprove`. With no survey loaded or no submissions key nothing
        happens. Otherwise the submission is marked approved, in storage and
        on the page. With no surveys key it stops there. Otherwise the
        stored count of survey `routeId` goes up only while it is open, the
        page's copy of the count goes up regardless, and the reward
        `points || 10` of the loaded survey is added to the stored accounts
        with id `userId`, open or closed; when the signed-in account is that
        user, its balance is then replaced by its session balance plus the
        reward. No pending check is made. */
    method Approve(store: Store, submissionId: string, userId: string)
      modifies this, store
      ensures old(survey).None? || old(store.submissions).None? ==> unchanged(this) && unchanged(store)
      ensures old(survey).Some? && old(store.submissions).Some? ==>
        && store.submissions == Some(MarkStatus(old(store.submissions).value, submissionId, Approved))
        && rows == MarkStatus(old(rows), submissionId, Approved)
      ensures old(survey).Some? && old(store.submissions).Some? && old(store.surveys).None? ==>
        && survey == old(survey) && store.surveys == None
        && store.users == old(store.users) && store.session == old(store.session)
      ensures old(survey).Some? && old(store.submissions).Some? && old(store.surveys).Some? ==>
        var loaded := old(survey).value;
        var reward := Reward(loaded);
        var credited := if old(store.users).None? then None else Some(Credit(old(store.users).value, userId, reward));
        && store.surveys == Some(CountApproval(old(store.surveys).value, routeId))
        && survey == Some(loaded.(respondentCount := loaded.respondentCount + 1))
        && (if old(store.session).Some? && old(store.session).value.id == userId then
              var balance := old(store.session).value.points + reward;
              && store.session == Some(old(store.session).value.(points := balance))
              && store.users == (if credited.None? then None else Some(SetPointsWhereId(credited.value, userId, balance)))
            else
              store.session == old(store.session) && store.users == credited)
    {
      if survey.None? || store.submissions.None? {
        return;
      }
      var loaded := survey.value;
      store.submissions := Some(MarkStatus(store.submissions.value, submissionId, Approved));
      rows := MarkStatus(rows, submissionId, Approved);
      if store.surveys.None? {
        return;
      }
      store.surveys := Some(CountApproval(store.surveys.value, routeId));
      survey := Some(loaded.(respondentCount := loaded.respondentCount + 1));
      var reward := Reward(loaded);
      if store.users.Some? {
        store.users := Some(Credit(store.users.value, userId, reward));
      }
      if store.session.Some? && store.session.value.id == userId {
        store.UpdateUserPoints(store.session.value.points + reward);
      }
    }

    /** `handleReject`: with no submissions key nothing happens; otherwise
        the submission is marked rejected, in storage and on the page. No
        survey, account or balance changes. */
    method Reject(store: Store, submissionId: string)
      modifies this, store
      ensures old(store.submissions).None? ==> unchanged(this) && unchanged(store)
      ensures old(store.submissions).Some? ==>
        && store.submissions == Some(MarkStatus(old(store.submissions).value, submissionId, Rejected))
        && rows == MarkStatus(old(rows), submissionId, Rejected)
      ensures survey == old(survey)
      ensures store.surveys == old(store.surveys) && store.users == old(store.users)
      ensures store.session == old(store.session)
    {
      if store.submissions.None? {
        return;
      }
      store.submissions := Some(MarkStatus(store.submissions.value, submissionId, Rejected));
      rows := MarkStatus(rows, submissionId, Rejected);
    }
  }
}
