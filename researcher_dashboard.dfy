/** The researcher dashboard: the deadline sweep, survey creation against the
    author's balance, closing a survey, and the own-survey list. The list
    the dashboard holds in memory is the stored survey list (a missing key
    reads as empty). */
module ResearcherDashboard {
  import opened Records
  import Seqs
  import Text
  import opened Auth

  // --------------------------------------------------------- deadline sweep

  /** An open survey with a deadline that `now` is strictly past. */
  predicate Overdue(s: Survey, now: int) {
    s.status == Open && s.deadline.Some? && now > s.deadline.value
  }

  /** The survey closed at `now`. */
  function CloseAt(s: Survey, now: int): (r: Survey)
    ensures r.status == Closed && r.closedAt == Some(now)
    ensures r.(status := s.status, closedAt := s.closedAt) == s
  {
    s.(status := Closed, closedAt := Some(now))
  }

  /** The survey list after one sweep at `now`: exactly the overdue surveys
      are closed, stamped `now`; all others are kept as they are; none is
      left overdue. */
  function Swept(all: seq<Survey>, now: int): (r: seq<Survey>)
    ensures |r| == |all|
    ensures forall i :: 0 <= i < |all| && Overdue(all[i], now) ==> r[i] == CloseAt(all[i], now)
    ensures forall i :: 0 <= i < |all| && !Overdue(all[i], now) ==> r[i] == all[i]
    ensures forall i :: 0 <= i < |r| ==> !Overdue(r[i], now)
  {
    Seqs.UpdateWhere(all, (s: Survey) => Overdue(s, now), (s: Survey) => CloseAt(s, now))
  }

  predicate AnyOverdue(all: seq<Survey>, now: int) {
    exists i :: 0 <= i < |all| && Overdue(all[i], now)
  }

  /** A sweep leaves the list as it is exactly when no survey is overdue. */
  lemma SweptUnchangedIffNoneOverdue(all: seq<Survey>, now: int)
    ensures Swept(all, now) == all <==> !AnyOverdue(all, now)
  {
  }

  /** A second sweep at the same instant changes nothing. */
  lemma SweepIdempotent(all: seq<Survey>, now: int)
    ensures !AnyOverdue(Swept(all, now), now)
    ensures Swept(Swept(all, now), now) == Swept(all, now)
  {
  }

  /** The `map` of `checkExpiredSurveys`, which also raises `hasChanges`
      when it closes a survey. */
  method SweepSurveys(all: seq<Survey>, now: int) returns (updated: seq<Survey>, hasChanges: bool)
    ensures updated == Swept(all, now)
    ensures hasChanges <==> AnyOverdue(all, now)
  {
    updated := [];
    hasChanges := false;
    var k := 0;
    while k < |all|
      invariant 0 <= k <= |all| && |updated| == k
      invariant forall i :: 0 <= i < k ==>
        updated[i] == if Overdue(all[i], now) then CloseAt(all[i], now) else all[i]
      invariant hasChanges <==> exists i :: 0 <= i < k && Overdue(all[i], now)
    {
      var s := all[k];
      if s.status == Open && s.deadline.Some? && now > s.deadline.value {
        hasChanges := true;
        s := s.(status := Closed, closedAt := Some(now));
      }
      updated := updated + [s];
      k := k + 1;
    }
  }

  /** `checkExpiredSurveys`: with no surveys key nothing happens; the
      surveys key is rewritten only when some survey was overdue, and then
      holds the swept list. Nothing else in the store changes. */
  method CheckExpiredSurveys(store: Store, now: int)
    modifies store
    ensures old(store.surveys).None? || !AnyOverdue(old(store.surveys).value, now) ==>
      store.surveys == old(store.surveys)
    ensures old(store.surveys).Some? && AnyOverdue(old(store.surveys).value, now) ==>
      store.surveys == Some(Swept(old(store.surveys).value, now))
    ensures store.users == old(store.users) && store.session == old(store.session)
    ensures store.submissions == old(store.submissions)
  {
    if store.surveys.None? {
      return;
    }
    var updated, hasChanges := SweepSurveys(store.surveys.value, now);
    if hasChanges {
      store.surveys := Some(updated);
    }
  }

  // -------------------------------------------------------------- creation

  /** The new-survey form. `deadline` is `None` when the field is empty. */
  datatype Draft = Draft(
    title: string,
    description: string,
    topics: seq<string>,
    targetRespondents: int,
    formLink: string,
    points: int,
    deadline: Option<int>)

  datatype CreateError = NotSignedIn | MissingInformation | InvalidPoints | InsufficientPoints

  /** `handleNumberInputChange`: `parseInt(value) || 0`, with `None` standing
      for a value that does not parse. */
  function CoerceNumber(parsed: Option<int>): (n: int)
    ensures parsed.None? ==> n == 0
    ensures parsed.Some? ==> n == parsed.value
  {
    parsed.GetOr(0)
  }

  predicate MissingInformation?(d: Draft) {
    d.title == "" || d.description == "" || d.formLink == "" || |d.topics| == 0
  }

  /** The checks of `handleAddSurvey`, in their order: required fields and
      at least one topic; then positive points; then a balance that is
      non-zero and covers the points. */
  function CheckDraft(d: Draft, balance: int): (r: Option<CreateError>)
    ensures r == Some(MissingInformation) <==> MissingInformation?(d)
    ensures r == Some(InvalidPoints) <==> !MissingInformation?(d) && d.points <= 0
    ensures r == Some(InsufficientPoints) <==>
      !MissingInformation?(d) && d.points > 0 && (balance == 0 || balance < d.points)
    ensures r != Some(NotSignedIn)
    ensures r.None? ==> d.points > 0 && balance - d.points >= 0
  {
    if MissingInformation?(d) then Some(MissingInformation)
    else if d.points <= 0 then Some(InvalidPoints)
    else if balance == 0 || balance < d.points then Some(InsufficientPoints)
    else None
  }

  /** Points typed as text that does not parse become 0, which creation
      refuses (as missing information when a field is also empty). */
  lemma NonNumericPointsRefused(d: Draft, balance: int)
    ensures CheckDraft(d.(points := CoerceNumber(None)), balance).Some?
  {
  }

  /** The survey `handleAddSurvey` creates for `author`. */
  function NewSurvey(d: Draft, author: User, id: string, now: int): (s: Survey)
    ensures s.id == id && s.researcherName == author.name && s.institution == author.institution
    ensures s.title == d.title && s.description == d.description && s.formLink == d.formLink
    ensures s.topics == d.topics && s.targetRespondents == d.targetRespondents
    ensures s.status == Open && s.respondentCount == 0 && s.createdAt == now
    ensures s.points == Some(d.points) && s.deadline == d.deadline && s.closedAt == None
    ensures d.points > 0 ==> Reward(s) == d.points
  {
    Survey(id, d.title, d.description, author.name, author.institution, now, d.topics,
           0, d.targetRespondents, Open, d.formLink, Some(d.points), d.deadline, None)
  }

  /** `handleAddSurvey`: without a session nothing happens; a refused draft
      changes nothing; otherwise exactly one survey is appended and the
      author's balance is replaced by the old balance minus the survey's
      points, in the session and in the stored account. */
  method AddSurvey(store: Store, d: Draft, id: string, now: int) returns (outcome: Result<Survey, CreateError>)
    modifies store
    ensures old(store.session).None? ==> outcome == Err(NotSignedIn) && unchanged(store)
    ensures old(store.session).Some? && CheckDraft(d, old(store.session).value.points).Some? ==>
      outcome == Err(CheckDraft(d, old(store.session).value.points).value) && unchanged(store)
    ensures old(store.session).Some? && CheckDraft(d, old(store.session).value.points).None? ==>
      var author := old(store.session).value;
      var balance := author.points - d.points;
      && outcome == Ok(NewSurvey(d, author, id, now))
      && store.surveys == Some(Items(old(store.surveys)) + [NewSurvey(d, author, id, now)])
      && store.session == Some(author.(points := balance))
      && balance >= 0
      && store.users == (if old(store.users).None? then None
                         else Some(SetPointsWhereId(old(store.users).value, author.id, balance)))
    ensures store.submissions == old(store.submissions)
  {
    if store.session.None? {
      return Err(NotSignedIn);
    }
    var author := store.session.value;
    var refusal := CheckDraft(d, author.points);
    if refusal.Some? {
      return Err(refusal.value);
    }
    var survey := NewSurvey(d, author, id, now);
    store.surveys := Some(Items(store.surveys) + [survey]);
    store.UpdateUserPoints(author.points - d.points);
    outcome := Ok(survey);
  }

  // --------------------------------------------------------------- closing

  /** The survey list after the author closes survey `id` at `now`: exactly
      the surveys with that id are closed and stamped, whatever their
      status; no other survey changes. */
  function CloseById(all: seq<Survey>, id: string, now: int): (r: seq<Survey>)
    ensures |r| == |all|
    ensures forall i :: 0 <= i < |all| && all[i].id == id ==> r[i] == CloseAt(all[i], now)
    ensures forall i :: 0 <= i < |all| && all[i].id != id ==> r[i] == all[i]
  {
    Seqs.UpdateWhere(all, (s: Survey) => s.id == id, (s: Survey) => CloseAt(s, now))
  }

  /** `handleCloseSurvey`: without a session nothing happens; otherwise the
      surveys key is rewritten with the survey closed. No balance changes:
      the unspent points are not refunded. */
  method CloseSurvey(store: Store, id: string, now: int)
    modifies store
    ensures old(store.session).None? ==> unchanged(store)
    ensures old(store.session).Some? ==> store.surveys == Some(CloseById(Items(old(store.surveys)), id, now))
    ensures store.users == old(store.users) && store.session == old(store.session)
    ensures store.submissions == old(store.submissions)
  {
    if store.session.None? {
      return;
    }
    store.surveys := Some(CloseById(Items(store.surveys), id, now));
  }

  // ------------------------------------------------------ own-survey list

  /** The researcher's list: the surveys whose `researcherName` is `name`,
      narrowed by a non-blank query to those whose title or description
      contains it, ignoring case. */
  function OwnSurveys(all: seq<Survey>, name: string, query: string): (r: seq<Survey>)
    ensures Seqs.SubsequenceOf(r, all)
    ensures forall s :: s in r <==>
      s in all && s.researcherName == name
      && (Text.IsBlank(query) || Text.MatchesQuery(s.title, s.description, query))
    ensures forall s :: multiset(r)[s] ==
                          if s.researcherName == name
                             && (Text.IsBlank(query) || Text.MatchesQuery(s.title, s.description, query))
                          then multiset(all)[s] else 0
  {
    var mine := Seqs.Filter(all, (s: Survey) => s.researcherName == name);
    if Text.IsBlank(query) then mine
    else
      var found := Seqs.Filter(mine, (s: Survey) => Text.MatchesQuery(s.title, s.description, query));
      Seqs.SubsequenceTransitive(found, mine, all);
      found
  }

  /** The list effect: it keeps the previous list when no one is signed in or
      no surveys are loaded, and otherwise recomputes it. */
  function OwnSurveyView(all: seq<Survey>, user: Option<User>, query: string, previous: seq<Survey>): (r: seq<Survey>)
    ensures user.None? || all == [] ==> r == previous
    ensures user.Some? && all != [] ==> r == OwnSurveys(all, user.value.name, query)
  {
    if user.None? || all == [] then previous else OwnSurveys(all, user.value.name, query)
  }
}
