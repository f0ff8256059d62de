/** The feedback rate limiter: a stored history of (player, time, kind) submissions, pruned to
    the last hour before every use, and a 30-minute cooldown per player measured from that
    player's most recent retained submission. Times are integer milliseconds; the clock reading
    `now` is a parameter. */
module FeedbackLimiter {
  import opened Strings
  import opened GameTypes

  const COOLDOWN_MINUTES: int := 30
  const MINUTE_MS: int := 60 * 1000
  const COOLDOWN_MS: int := COOLDOWN_MINUTES * MINUTE_MS
  const HISTORY_WINDOW_MS: int := 60 * 60 * 1000

  datatype FeedbackKind = Bug | Feature

  datatype Submission = Submission(playerName: string, timestamp: int, kind: FeedbackKind)

  /** cleanupOldSubmissions: the submissions newer than one hour before `now`, in order. */
  function Cleanup(history: seq<Submission>, now: int): (r: seq<Submission>)
    ensures forall s :: s in r <==> s in history && s.timestamp > now - HISTORY_WINDOW_MS
    ensures |r| <= |history|
  {
    if history == [] then []
    else
      var head := if history[0].timestamp > now - HISTORY_WINDOW_MS then [history[0]] else [];
      head + Cleanup(history[1..], now)
  }

  /** `history.filter(s => s.playerName === playerName)`. */
  function OwnSubmissions(history: seq<Submission>, playerName: string): (r: seq<Submission>)
    ensures forall s :: s in r <==> s in history && s.playerName == playerName
    ensures |r| <= |history|
  {
    if history == [] then []
    else
      var head := if history[0].playerName == playerName then [history[0]] else [];
      head + OwnSubmissions(history[1..], playerName)
  }

  lemma {:induction false} CleanupAppend(a: seq<Submission>, b: seq<Submission>, now: int)
    ensures Cleanup(a + b, now) == Cleanup(a, now) + Cleanup(b, now)
  {
    if a == [] {
      assert a + b == b;
    } else {
      assert (a + b)[1..] == a[1..] + b;
      CleanupAppend(a[1..], b, now);
    }
  }

  lemma {:induction false} OwnSubmissionsAppend(a: seq<Submission>, b: seq<Submission>, playerName: string)
    ensures OwnSubmissions(a + b, playerName) == OwnSubmissions(a, playerName) + OwnSubmissions(b, playerName)
  {
    if a == [] {
      assert a + b == b;
    } else {
      assert (a + b)[1..] == a[1..] + b;
      OwnSubmissionsAppend(a[1..], b, playerName);
    }
  }

  /** Pruning by age and picking a player's submissions commute. */
  lemma {:induction false} CleanupOwnCommute(history: seq<Submission>, playerName: string, now: int)
    ensures OwnSubmissions(Cleanup(history, now), playerName) == Cleanup(OwnSubmissions(history, playerName), now)
  {
    if history != [] {
      var h := history[0];
      CleanupOwnCommute(history[1..], playerName, now);
      var kept := if h.timestamp > now - HISTORY_WINDOW_MS then [h] else [];
      var own := if h.playerName == playerName then [h] else [];
      OwnSubmissionsAppend(kept, Cleanup(history[1..], now), playerName);
      CleanupAppend(own, OwnSubmissions(history[1..], playerName), now);
    }
  }

  /** `Math.ceil(a / b)` for a positive divisor. */
  function CeilDiv(a: int, b: int): (q: int)
    requires b > 0
    ensures (q - 1) * b < a <= q * b
  {
    var f := (-a) / b;
    assert -a == b * f + (-a) % b;
    -f
  }

  /** The refusal message, with "minute" in the plural unless the wait is exactly one. */
  function WaitReason(waitMinutes: int): string
  {
    "Please wait " + IntToString(waitMinutes) + " minute" + (if waitMinutes != 1 then "s" else "")
      + " before submitting another report."
  }

  datatype Verdict = Allowed | Refused(reason: string, waitMinutes: int)

  /** The player's most recent retained submission, if any. */
  function LastOwn(history: seq<Submission>, playerName: string, now: int): Option<Submission>
  {
    var own := OwnSubmissions(Cleanup(history, now), playerName);
    if own == [] then None else Some(own[|own| - 1])
  }

  /** The verdict read off a player's retained submissions, oldest first. */
  function VerdictOf(own: seq<Submission>, now: int): Verdict
  {
    if |own| > 0 then
      var since := now - own[|own| - 1].timestamp;
      if since < COOLDOWN_MS then
        var waitMinutes := CeilDiv(COOLDOWN_MS - since, MINUTE_MS);
        Refused(WaitReason(waitMinutes), waitMinutes)
      else Allowed
    else Allowed
  }

  /** The wait read off a player's retained submissions, oldest first. */
  function WaitOf(own: seq<Submission>, now: int): Option<int>
  {
    if |own| == 0 then None
    else
      var since := now - own[|own| - 1].timestamp;
      if since >= COOLDOWN_MS then None
      else Some(CeilDiv(COOLDOWN_MS - since, MINUTE_MS))
  }

  /** canSubmitFeedback. */
  function CanSubmitFeedback(history: seq<Submission>, playerName: string, now: int): (v: Verdict)
    ensures v.Refused? <==> (
      LastOwn(history, playerName, now).Some?
      && now - LastOwn(history, playerName, now).value.timestamp < COOLDOWN_MS)
    ensures v.Refused? ==>
      && v.waitMinutes == CeilDiv(COOLDOWN_MS - (now - LastOwn(history, playerName, now).value.timestamp), MINUTE_MS)
      && v.reason == WaitReason(v.waitMinutes)
    ensures v.Refused? && LastOwn(history, playerName, now).value.timestamp <= now ==> 1 <= v.waitMinutes <= COOLDOWN_MINUTES
  {
    VerdictOf(OwnSubmissions(Cleanup(history, now), playerName), now)
  }

  /** getTimeUntilNextSubmission: a wait is reported exactly when a submission is refused, and
      it is the refusal's wait. */
  function TimeUntilNextSubmission(history: seq<Submission>, playerName: string, now: int): (r: Option<int>)
    ensures r.None? <==> CanSubmitFeedback(history, playerName, now) == Allowed
    ensures r.Some? ==> r.value == CanSubmitFeedback(history, playerName, now).waitMinutes
  {
    WaitOf(OwnSubmissions(Cleanup(history, now), playerName), now)
  }

  /** recordFeedbackSubmission on the stored history: prune, then append. */
  function Record(history: seq<Submission>, playerName: string, kind: FeedbackKind, now: int): (r: seq<Submission>)
    ensures |r| >= 1 && r[|r| - 1] == Submission(playerName, now, kind)
  {
    Cleanup(history, now) + [Submission(playerName, now, kind)]
  }

  /** Right after a submission the same player is refused for the full thirty minutes. */
  lemma RecordThenRefused(history: seq<Submission>, playerName: string, kind: FeedbackKind, now: int)
    ensures CanSubmitFeedback(Record(history, playerName, kind, now), playerName, now)
      == Refused(WaitReason(COOLDOWN_MINUTES), COOLDOWN_MINUTES)
  {
    var s := Submission(playerName, now, kind);
    var c := Cleanup(history, now);
    CleanupAppend(c, [s], now);
    assert Cleanup([s], now) == [s];
    OwnSubmissionsAppend(Cleanup(c, now), [s], playerName);
    assert OwnSubmissions([s], playerName) == [s];
    assert CeilDiv(COOLDOWN_MS, MINUTE_MS) == COOLDOWN_MINUTES;
  }

  /** A player's verdict depends only on that player's own submissions: histories that agree on
      them, whatever other players submitted, give the same verdict. */
  lemma OtherPlayersIrrelevant(h1: seq<Submission>, h2: seq<Submission>, playerName: string, now: int)
    requires OwnSubmissions(h1, playerName) == OwnSubmissions(h2, playerName)
    ensures CanSubmitFeedback(h1, playerName, now) == CanSubmitFeedback(h2, playerName, now)
    ensures TimeUntilNextSubmission(h1, playerName, now) == TimeUntilNextSubmission(h2, playerName, now)
  {
    CleanupOwnCommute(h1, playerName, now);
    CleanupOwnCommute(h2, playerName, now);
    assert OwnSubmissions(Cleanup(h1, now), playerName) == OwnSubmissions(Cleanup(h2, now), playerName);
  }

  /** The `runeTiles_feedbackHistory` slot. */
  class FeedbackStore {
    var history: seq<Submission>

    constructor ()
      ensures history == []
    {
      history := [];
    }

    /** canSubmitFeedback against the stored history. */
    method CanSubmit(playerName: string, now: int) returns (v: Verdict)
      ensures v == CanSubmitFeedback(history, playerName, now)
    {
      v := CanSubmitFeedback(history, playerName, now);
    }

    /** recordFeedbackSubmission: prune the stored history, push the new submission, store it. */
    method RecordSubmission(playerName: string, kind: FeedbackKind, now: int)
      modifies this
      ensures history == Record(old(history), playerName, kind, now)
    {
      var pruned := Cleanup(history, now);
      pruned := pruned + [Submission(playerName, now, kind)];
      history := pruned;
    }

    /** getTimeUntilNextSubmission against the stored history. */
    method TimeUntilNext(playerName: string, now: int) returns (w: Option<int>)
      ensures w == TimeUntilNextSubmission(history, playerName, now)
    {
      w := TimeUntilNextSubmission(history, playerName, now);
    }
  }
}
