/** The survey card: the "posted ... ago" label and the rules for its two
    buttons. */
module SurveyCard {
  import opened Records

  // --------------------------------------------------------------- timeAgo

  datatype TimeUnit = Seconds | Minutes | Hours | Days | Months

  /** How much time the label reports, and in which unit. */
  datatype Elapsed = Elapsed(amount: int, unit: TimeUnit)

  /** Whole seconds between two instants given in milliseconds:
      `Math.floor(ms / 1000)` (Dafny's division by a positive constant
      rounds down, like `Math.floor`). */
  function ElapsedSeconds(createdMs: int, nowMs: int): (d: int)
    ensures d * 1000 <= nowMs - createdMs < d * 1000 + 1000
  {
    (nowMs - createdMs) / 1000
  }

  /** The length of one unit in seconds (a month being 30 days). */
  function UnitLength(u: TimeUnit): (n: nat)
    ensures n > 0
  {
    match u
    case Seconds => 1
    case Minutes => 60
    case Hours => 3600
    case Days => 86400
    case Months => 2592000
  }

  /** The cascade of `timeAgo`: each unit is the previous one divided by 60,
      60, 24 and 30, rounded down; the first that stays below the next
      threshold is reported. Each unit is therefore reported for exactly
      its range of elapsed seconds, and the amount is the number of whole
      units elapsed. */
  function TimeAgo(diffInSeconds: int): (e: Elapsed)
    ensures e.unit == Seconds <==> diffInSeconds < 60
    ensures e.unit == Minutes <==> 60 <= diffInSeconds < 3600
    ensures e.unit == Hours <==> 3600 <= diffInSeconds < 86400
    ensures e.unit == Days <==> 86400 <= diffInSeconds < 2592000
    ensures e.unit == Months <==> 2592000 <= diffInSeconds
    ensures e.unit == Seconds ==> e.amount == diffInSeconds
    ensures e.unit != Seconds ==>
      1 <= e.amount && e.amount * UnitLength(e.unit) <= diffInSeconds < (e.amount + 1) * UnitLength(e.unit)
  {
    if diffInSeconds < 60 then Elapsed(diffInSeconds, Seconds)
    else
      var minutes := diffInSeconds / 60;
      if minutes < 60 then Elapsed(minutes, Minutes)
      else
        var hours := minutes / 60;
        if hours < 24 then Elapsed(hours, Hours)
        else
          var days := hours / 24;
          if days < 30 then Elapsed(days, Days)
          else Elapsed(days / 30, Months)
  }

  /** The unit word: the seconds branch always says "seconds"; every other
      unit is singular exactly when the amount is 1. */
  function UnitWord(e: Elapsed): (w: string)
    ensures e.unit == Seconds ==> w == "seconds"
    ensures e.unit != Seconds ==> (e.amount == 1 <==> w in {"minute", "hour", "day", "month"})
  {
    match e.unit
    case Seconds => "seconds"
    case Minutes => if e.amount == 1 then "minute" else "minutes"
    case Hours => if e.amount == 1 then "hour" else "hours"
    case Days => if e.amount == 1 then "day" else "days"
    case Months => if e.amount == 1 then "month" else "months"
  }

  /** The decimal digits of `n`, most significant first, with no leading
      zero. */
  function Digits(n: nat): (r: string)
    ensures |r| > 0 && forall i :: 0 <= i < |r| ==> '0' <= r[i] <= '9'
    ensures n > 0 ==> r[0] != '0'
  {
    if n < 10 then [('0' as int + n) as char]
    else Digits(n / 10) + [('0' as int + n % 10) as char]
  }

  /** The number a string of decimal digits denotes. */
  function DigitsValue(s: string): int {
    if s == [] then 0 else DigitsValue(s[..|s| - 1]) * 10 + (s[|s| - 1] as int - '0' as int)
  }

  lemma {:induction false} DigitsRoundTrip(n: nat)
    ensures DigitsValue(Digits(n)) == n
  {
    if n >= 10 {
      var r := Digits(n);
      assert r[..|r| - 1] == Digits(n / 10);
      DigitsRoundTrip(n / 10);
    }
  }

  /** A number as template literals print it: a minus sign exactly for a
      negative number, then its digits. */
  function Decimal(n: int): (r: string)
    ensures |r| > 0 && (r[0] == '-' <==> n < 0)
    ensures forall i :: 0 < i < |r| ==> '0' <= r[i] <= '9'
    ensures n < 0 ==> |r| >= 2
    ensures n != 0 ==> r[if n < 0 then 1 else 0] != '0'
  {
    if n >= 0 then Digits(n) else "-" + Digits(-n)
  }

  /** The number a printed decimal denotes. */
  function DecimalValue(s: string): int {
    if |s| > 0 && s[0] == '-' then -DigitsValue(s[1..]) else DigitsValue(s)
  }

  lemma {:induction false} DecimalRoundTrip(n: int)
    ensures DecimalValue(Decimal(n)) == n
  {
    if n >= 0 {
      DigitsRoundTrip(n);
    } else {
      assert Decimal(n)[1..] == Digits(-n);
      DigitsRoundTrip(-n);
    }
  }

  /** The label `timeAgo` returns. */
  function TimeAgoLabel(diffInSeconds: int): string {
    var e := TimeAgo(diffInSeconds);
    Decimal(e.amount) + " " + UnitWord(e) + " ago"
  }

  /** `a` whole units of length `len` fit in `d`, and `a + 1` do not,
      exactly when `a` is `d / len`. */
  lemma WholeUnits(a: int, len: int, d: int)
    requires len > 0 && a * len <= d < (a + 1) * len
    ensures d / len == a
  {
    var q := d / len;
    assert q * len <= d < q * len + len;
    if q < a {
      MulMonotone(q + 1, a, len);
      assert false;
    } else if q > a {
      MulMonotone(a + 1, q, len);
      assert false;
    }
  }

  lemma MulMonotone(x: int, y: int, len: int)
    requires x <= y && len > 0
    ensures x * len <= y * len
  {
  }

  /** The label for every elapsed time: the number of whole units elapsed,
      then the unit word, singular only for one whole unit of a minute or
      more. */
  lemma TimeAgoLabelByRange(d: int)
    ensures d < 60 ==> TimeAgoLabel(d) == Decimal(d) + " seconds ago"
    ensures 60 <= d < 3600 ==>
      TimeAgoLabel(d) == Digits(d / 60) + " " + (if d / 60 == 1 then "minute" else "minutes") + " ago"
    ensures 3600 <= d < 86400 ==>
      TimeAgoLabel(d) == Digits(d / 3600) + " " + (if d / 3600 == 1 then "hour" else "hours") + " ago"
    ensures 86400 <= d < 2592000 ==>
      TimeAgoLabel(d) == Digits(d / 86400) + " " + (if d / 86400 == 1 then "day" else "days") + " ago"
    ensures 2592000 <= d ==>
      TimeAgoLabel(d) == Digits(d / 2592000) + " " + (if d / 2592000 == 1 then "month" else "months") + " ago"
  {
    if d >= 60 {
      var e := TimeAgo(d);
      WholeUnits(e.amount, UnitLength(e.unit), d);
    }
  }

  /** One second ago is still reported as "1 seconds ago". */
  lemma OneSecondIsPlural()
    ensures TimeAgoLabel(1) == "1 seconds ago"
  {
  }

  // --------------------------------------------------------------- buttons

  datatype ViewType = RespondentView | ResearcherView

  /** Participate: respondent view, open survey, button not hidden. */
  predicate ShowsParticipate(view: ViewType, s: Survey, hideParticipateButton: bool) {
    view == RespondentView && s.status == Open && !hideParticipateButton
  }

  /** View Responses: researcher view, whatever the survey's status. */
  predicate ShowsViewResponses(view: ViewType) {
    view == ResearcherView
  }

  /** No card shows both buttons, and a closed survey offers no
      participation. */
  lemma ButtonsExclusive(view: ViewType, s: Survey, hidden: bool)
    ensures !(ShowsParticipate(view, s, hidden) && ShowsViewResponses(view))
    ensures s.status == Closed ==> !ShowsParticipate(view, s, hidden)
  {
  }
}
