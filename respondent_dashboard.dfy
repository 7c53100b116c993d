/** The respondent dashboard: the list of surveys the respondent may still
    take, the list of surveys completed (approved), and the topic
    preferences. */
module RespondentDashboard {
  import opened Records
  import Seqs
  import Text
  import opened Auth
  import SurveyCard

  /** `survey.topics.some(t => selected.includes(t))`. */
  predicate SharesTopic(topics: seq<string>, selected: seq<string>) {
    exists i :: 0 <= i < |topics| && topics[i] in selected
  }

  /** The ids of the surveys this user has submitted to, in any status. */
  function SubmittedIds(subs: seq<Submission>, userId: string): (r: seq<string>)
    ensures forall id :: id in r <==> exists i :: 0 <= i < |subs| && subs[i].userId == userId && subs[i].surveyId == id
  {
    if subs == [] then []
    else (if subs[0].userId == userId then [subs[0].surveyId] else []) + SubmittedIds(subs[1..], userId)
  }

  /** The ids of the surveys for which this user has an approved submission. */
  function ApprovedIds(subs: seq<Submission>, userId: string): (r: seq<string>)
    ensures forall id :: id in r <==>
      exists i :: 0 <= i < |subs| && subs[i].userId == userId && subs[i].status == Approved && subs[i].surveyId == id
  {
    if subs == [] then []
    else (if subs[0].userId == userId && subs[0].status == Approved then [subs[0].surveyId] else [])
         + ApprovedIds(subs[1..], userId)
  }

  /** Membership in the available list, as the four filters decide it. */
  predicate AvailableTo(s: Survey, submitted: seq<string>, query: string, selected: seq<string>) {
    && s.id !in submitted
    && (Text.IsBlank(query) || Text.MatchesQuery(s.title, s.description, query))
    && (|selected| == 0 || SharesTopic(s.topics, selected))
    && s.status == Open
  }

  /** The filter chain of the dashboard: drop the surveys already submitted
      to; with a non-blank query keep those whose title or description
      contains it, ignoring case; with topics selected keep those sharing
      one; keep the open ones. The result keeps the stored order. */
  function Available(surveys: seq<Survey>, submitted: seq<string>, query: string, selected: seq<string>): (r: seq<Survey>)
    ensures Seqs.SubsequenceOf(r, surveys)
    ensures forall s :: s in r <==> s in surveys && AvailableTo(s, submitted, query, selected)
    ensures forall s :: multiset(r)[s] == if AvailableTo(s, submitted, query, selected) then multiset(surveys)[s] else 0
  {
    var unseen := Seqs.Filter(surveys, (s: Survey) => s.id !in submitted);
    var searched := if Text.IsBlank(query) then unseen
                    else Seqs.Filter(unseen, (s: Survey) => Text.MatchesQuery(s.title, s.description, query));
    var topical := if |selected| == 0 then searched
                   else Seqs.Filter(searched, (s: Survey) => SharesTopic(s.topics, selected));
    var open := Seqs.Filter(topical, (s: Survey) => s.status == Open);
    Seqs.SubsequenceReflexive(unseen);
    Seqs.SubsequenceReflexive(searched);
    Seqs.SubsequenceTransitive(searched, unseen, surveys);
    Seqs.SubsequenceTransitive(topical, searched, surveys);
    Seqs.SubsequenceTransitive(open, topical, surveys);
    open
  }

  /** A survey the user has any submission for, pending, approved or
      rejected, is never offered again. */
  lemma SubmittedNeverAvailable(
    surveys: seq<Survey>, subs: seq<Submission>, userId: string, query: string, selected: seq<string>, k: nat)
    requires k < |subs| && subs[k].userId == userId
    ensures forall s :: s in Available(surveys, SubmittedIds(subs, userId), query, selected) ==> s.id != subs[k].surveyId
  {
  }

  /** The cards of the available list are respondent cards with the button
      shown, so every one of them offers Participate; the cards of the
      completed list hide the button, so none of them does. */
  lemma AvailableCardsOfferParticipation(
    surveys: seq<Survey>, submitted: seq<string>, query: string, selected: seq<string>, completed: seq<Survey>)
    ensures forall s :: s in Available(surveys, submitted, query, selected) ==>
      SurveyCard.ShowsParticipate(SurveyCard.RespondentView, s, false)
    ensures forall s :: s in completed ==> !SurveyCard.ShowsParticipate(SurveyCard.RespondentView, s, true)
  {
  }

  /** The list effect: it keeps the previous list when no surveys are loaded
      or no one is signed in, and otherwise recomputes it from the user's
      submissions (a missing key meaning none). */
  function AvailableView(surveys: seq<Survey>, subs: Option<seq<Submission>>, user: Option<User>,
                         query: string, selected: seq<string>, previous: seq<Survey>): (r: seq<Survey>)
    ensures surveys == [] || user.None? ==> r == previous
    ensures surveys != [] && user.Some? ==>
      r == Available(surveys, SubmittedIds(Items(subs), user.value.id), query, selected)
    ensures surveys != [] && user.Some? ==>
      forall s :: s in r <==> s in surveys && AvailableTo(s, SubmittedIds(Items(subs), user.value.id), query, selected)
  {
    if surveys == [] || user.None? then previous
    else Available(surveys, SubmittedIds(Items(subs), user.value.id), query, selected)
  }

  /** The completed list: the surveys for which the user has an approved
      submission, recomputed only when both the survey list and the
      approved ids are non-empty, and otherwise left as it was. */
  function CompletedView(surveys: seq<Survey>, subs: Option<seq<Submission>>, user: Option<User>,
                         previous: seq<Survey>): (r: seq<Survey>)
    ensures user.None? || surveys == [] || ApprovedIds(Items(subs), user.value.id) == [] ==> r == previous
    ensures user.Some? && surveys != [] && ApprovedIds(Items(subs), user.value.id) != [] ==>
      && Seqs.SubsequenceOf(r, surveys)
      && (forall s :: s in r <==>
            (s in surveys &&
             exists i :: 0 <= i < |Items(subs)| && Items(subs)[i].userId == user.value.id
                      && Items(subs)[i].status == Approved && Items(subs)[i].surveyId == s.id))
      && (forall s :: multiset(r)[s] ==
            if s.id in ApprovedIds(Items(subs), user.value.id) then multiset(surveys)[s] else 0)
  {
    if user.None? then previous
    else
      var approved := ApprovedIds(Items(subs), user.value.id);
      if |surveys| > 0 && |approved| > 0 then Seqs.Filter(surveys, (s: Survey) => s.id in approved)
      else previous
  }

  /** `toggleTopic`: a selected topic is removed (every copy of it), an
      unselected one is appended. */
  function ToggleTopic(selected: seq<string>, topic: string): (r: seq<string>)
    ensures topic in r <==> topic !in selected
    ensures forall t :: t != topic ==> (t in r <==> t in selected)
  {
    if topic in selected then Seqs.Filter(selected, (t: string) => t != topic)
    else selected + [topic]
  }

  /** Toggling a topic twice restores which topics are selected. */
  lemma ToggleTwiceRestores(selected: seq<string>, topic: string)
    ensures forall t :: t in ToggleTopic(ToggleTopic(selected, topic), topic) <==> t in selected
  {
  }

  /** `saveTopics`: with a session, the selected topics are written through
      a profile update whose patch sets only the topics. */
  method SaveTopics(store: Store, selected: seq<string>)
    modifies store
    ensures old(store.session).None? ==> unchanged(store)
    ensures old(store.session).Some? ==>
      var patch := ProfilePatch(None, None, None, None, None, None, Some(selected));
      && store.session == Some(Merge(old(store.session).value, patch))
      && store.session.value.selectedTopics == selected
      && store.users == (if old(store.users).None? then None
                         else Some(MergeWhereId(old(store.users).value, old(store.session).value.id, patch)))
    ensures store.surveys == old(store.surveys) && store.submissions == old(store.submissions)
  {
    if store.session.Some? {
      store.UpdateUserProfile(ProfilePatch(None, None, None, None, None, None, Some(selected)));
    }
  }
}
