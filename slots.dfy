/**
 * Time slots of the create page: what the calendar widget reports, the
 * `{start, end}` records kept in the `pollTimes` state, and the check that
 * no chosen slot lies in the past.
 */
module Slots {
  import opened Wrappers

  /** A JavaScript `Date`, reduced to its time value in milliseconds since the epoch. */
  datatype Date = Date(timeValue: int) {
    /** `Date.prototype.getTime`. */
    function GetTime(): int { timeValue }
  }

  /** One selection reported by the calendar widget. */
  datatype Selection = Selection(start: Date, end: Date)

  /** A candidate time slot of a poll, in epoch milliseconds. */
  datatype Time = Time(start: int, end: int)

  /**
   * `onTimesChange`: every selection becomes the slot of its two timestamps,
   * one for one and in the widget's order.
   */
  function ToTimes(selections: seq<Selection>): (times: seq<Time>)
    ensures |times| == |selections|
    ensures forall i :: 0 <= i < |selections| ==>
      times[i].start == selections[i].start.GetTime() && times[i].end == selections[i].end.GetTime()
  {
    if selections == [] then []
    else [Time(selections[0].start.GetTime(), selections[0].end.GetTime())] + ToTimes(selections[1..])
  }

  /**
   * `times.some(time => time.start < now)`: scans from the left and stops at
   * the first slot that starts before `now`.
   */
  function AnyStartsBefore(times: seq<Time>, now: int): (stale: bool)
    ensures stale <==> exists i :: 0 <= i < |times| && times[i].start < now
  {
    if times == [] then false
    else if times[0].start < now then true
    else AnyStartsBefore(times[1..], now)
  }

  /**
   * `areTimesValid`: an undefined list is invalid, and a defined one is
   * valid exactly when no slot starts before `now`. An end before its start
   * is not looked at, and the empty list is valid here.
   */
  function AreTimesValid(times: Option<seq<Time>>, now: int): (valid: bool)
    ensures valid <==> times.Some? && forall i :: 0 <= i < |times.value| ==> now <= times.value[i].start
  {
    if times.None? then false
    else if AnyStartsBefore(times.value, now) then false
    else true
  }

  /** All or nothing: one stale slot rejects the set whatever surrounds it. */
  lemma {:induction false} StaleSlotRejectsAll(before: seq<Time>, stale: Time, after: seq<Time>, now: int)
    requires stale.start < now
    ensures !AreTimesValid(Some(before + [stale] + after), now)
  {
    var all := before + [stale] + after;
    assert all[|before|] == stale;
  }

  /** Validity of a concatenation is the conjunction of the parts' validity. */
  lemma {:induction false} ValidityOfConcat(a: seq<Time>, b: seq<Time>, now: int)
    ensures AreTimesValid(Some(a + b), now) <==> AreTimesValid(Some(a), now) && AreTimesValid(Some(b), now)
  {
    var ab := a + b;
    forall i | 0 <= i < |a| ensures ab[i] == a[i] { }
    forall j | 0 <= j < |b| ensures ab[|a| + j] == b[j] { }
  }

  /** What the check sees after `onTimesChange` are the widget's own start instants. */
  lemma SelectionsValidity(selections: seq<Selection>, now: int)
    ensures AreTimesValid(Some(ToTimes(selections)), now)
        <==> forall i :: 0 <= i < |selections| ==> now <= selections[i].start.GetTime()
  {
  }
}
