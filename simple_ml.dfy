/**
 * `03_simple_machine_learning.py` carries the same `analyze_cs` as
 * `04_better_machine_learning.py`, token for token, except that the damage
 * condition at lines 41-43 has no parentheses around its second half:
 * `killer == p or "assistingParticipantIds" in event and p in event[...]`.
 * Python's `and` binds tighter than `or`, so the condition is
 * `killer == p or (present and p in list)`, which is 04's. The model shares
 * 04's aggregator and proves here that 03's condition, evaluated the way
 * Python evaluates it, credits the same slots.
 */
module SimpleMachineLearning {
  import opened Wrappers
  import opened Timeline

  /** Why evaluating a condition stops: `event[...]` on a missing key. */
  datatype EvalError = KeyError(key: string)

  /**
   * 03's damage condition evaluated left to right with short circuits, as
   * Python parses it: `or` first tests the killer, then the `and` tests that
   * the assist list is present before it is indexed.
   */
  function CreditAsParsed(e: Event, slot: int): (r: Result<bool, EvalError>)
    ensures r.Success?
  {
    if e.killerId == slot then Success(true)
    else if e.assistingParticipantIds.None? then Success(false)
    else Success(slot in e.assistingParticipantIds.value)
  }

  /**
   * The other grouping, `(killer == p or present) and p in event[...]`, which
   * the line breaks suggest but Python does not read: it indexes the assist
   * list whenever the killer test or the presence test succeeds.
   */
  function CreditMisgrouped(e: Event, slot: int): Result<bool, EvalError> {
    if e.killerId == slot || e.assistingParticipantIds.Some? then
      if e.assistingParticipantIds.None? then Failure(KeyError("assistingParticipantIds"))
      else Success(slot in e.assistingParticipantIds.value)
    else Success(false)
  }

  /** 03's condition, as Python reads it, is exactly 04's: the killer or a listed assister. */
  lemma AsParsedIsCredited(e: Event, slot: int)
    ensures CreditAsParsed(e, slot) == Success(CreditedForDamage(e, slot))
  {
  }

  /**
   * The grouping matters: read the other way, a killer with no assist list
   * would raise `KeyError`, and a killer absent from a present list would lose
   * their damage, while the condition as parsed credits both.
   */
  lemma MisgroupingWouldDiffer()
    ensures
      var noList := Event(ChampionKill, 3, 7, None, None, None);
      CreditAsParsed(noList, 3) == Success(true)
      && CreditMisgrouped(noList, 3) == Failure(KeyError("assistingParticipantIds"))
    ensures
      var otherAssist := Event(ChampionKill, 3, 7, Some([5]), None, None);
      CreditAsParsed(otherAssist, 3) == Success(true) && CreditMisgrouped(otherAssist, 3) == Success(false)
  {
  }

  /** What one event adds to the counters of `slot` when damage done is gated by 03's condition. */
  function EventTallyAsParsed(e: Event, slot: int): Tally {
    var t := EventTally(e, slot);
    var credited := CreditAsParsed(e, slot);
    if e.eventType == ChampionKill && e.victimDamageDealt.Some? && credited.Success? && credited.value
    then t.(damageDone := OwnDamage(e.victimDamageDealt.value, slot))
    else t.(damageDone := 0)
  }

  /** The counters of one frame under 03's condition. */
  function FrameTallyAsParsed(events: seq<Event>, slot: int): Tally
    decreases |events|
  {
    if events == [] then Zero
    else FrameTallyAsParsed(events[..|events| - 1], slot).Plus(EventTallyAsParsed(events[|events| - 1], slot))
  }

  /** 03's aggregator computes the same per-frame counters as 04's on every frame. */
  lemma {:induction false} SameFrameTallies(events: seq<Event>, slot: int)
    ensures FrameTallyAsParsed(events, slot) == FrameTally(events, slot)
    decreases |events|
  {
    if events != [] {
      var last := events[|events| - 1];
      SameFrameTallies(events[..|events| - 1], slot);
      AsParsedIsCredited(last, slot);
      assert EventTallyAsParsed(last, slot) == EventTally(last, slot);
    }
  }

  /** The cumulative series of one metric as 03's aggregator builds it. */
  function MetricSeriesAsParsed(frames: seq<Frame>, slot: int, m: Metric): seq<int> {
    Running(seq(|frames|, i requires 0 <= i < |frames| => FrameTallyAsParsed(frames[i].events, slot).Get(m)))
  }

  /**
   * So each of the five cumulative series 03 returns is the one 04 returns,
   * for every timeline and slot; the other two, the minion and gold
   * snapshots, do not depend on the condition.
   */
  lemma SameSeries(frames: seq<Frame>, slot: int, m: Metric)
    ensures MetricSeriesAsParsed(frames, slot, m) == MetricSeries(frames, slot, m)
  {
    var perFrame := seq(|frames|, i requires 0 <= i < |frames| => FrameTallyAsParsed(frames[i].events, slot).Get(m));
    forall i | 0 <= i < |frames|
      ensures perFrame[i] == PerFrame(frames, slot, m)[i]
    {
      SameFrameTallies(frames[i].events, slot);
    }
    assert perFrame == PerFrame(frames, slot, m);
  }
}
