/** The records kept in browser storage: accounts, surveys and submissions.
    Every collection key of the storage may be missing, so a stored
    collection is an `Option<seq<..>>`; `Items` reads a missing key as []. */
module Records {

  datatype Option<+T> = None | Some(value: T) {
    function GetOr(default: T): T {
      match this
      case Some(v) => v
      case None => default
    }
  }

  /** The outcome of an operation the source can refuse (by throwing or by
      showing an error message and returning). */
  datatype Result<+T, +E> = Ok(value: T) | Err(error: E)

  /** The contents of a collection key, with a missing key read as empty. */
  function Items<T>(stored: Option<seq<T>>): seq<T> {
    stored.GetOr([])
  }

  datatype Role = Respondent | Researcher

  /** An account as the session sees it: the stored record minus the password. */
  datatype User = User(
    id: string,
    name: string,
    email: string,
    role: Role,
    institution: string,
    points: int,
    selectedTopics: seq<string>)

  /** An account as it is kept in the users collection. */
  datatype StoredUser = StoredUser(profile: User, password: string)

  datatype SurveyStatus = Open | Closed

  /** A survey posting. `points` may be absent in stored data; timestamps are
      integers (milliseconds), date parsing being outside the model. */
  datatype Survey = Survey(
    id: string,
    title: string,
    description: string,
    researcherName: string,
    institution: string,
    createdAt: int,
    topics: seq<string>,
    respondentCount: int,
    targetRespondents: int,
    status: SurveyStatus,
    formLink: string,
    points: Option<int>,
    deadline: Option<int>,
    closedAt: Option<int>)

  datatype ReviewStatus = Pending | Approved | Rejected

  datatype Submission = Submission(
    id: string,
    surveyId: string,
    userId: string,
    userName: string,
    userEmail: string,
    submittedAt: int,
    status: ReviewStatus)

  /** The points a survey pays per approved submission: `survey.points || 10`,
      so an absent or zero reward falls back to 10. */
  function Reward(s: Survey): (r: int)
    ensures s.points.Some? && s.points.value != 0 ==> r == s.points.value
    ensures s.points.None? || s.points.value == 0 ==> r == 10
    ensures r != 0
  {
    if s.points.Some? && s.points.value != 0 then s.points.value else 10
  }

  /** `surveys.find(s => s.id === id)`: the position of the first survey
      with this id. */
  function FindSurvey(all: seq<Survey>, id: string): (r: Option<nat>)
    ensures r.None? <==> forall i :: 0 <= i < |all| ==> all[i].id != id
    ensures r.Some? ==> r.value < |all| && all[r.value].id == id
    ensures r.Some? ==> forall j :: 0 <= j < r.value ==> all[j].id != id
  {
    if all == [] then None
    else if all[0].id == id then Some(0)
    else match FindSurvey(all[1..], id)
      case None => None
      case Some(k) => Some(k + 1)
  }
}
