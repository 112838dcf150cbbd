/**
 * `04_better_machine_learning.py`: the timeline aggregator `analyze_cs` and
 * the integer steps of `main` that feed the classifier: the slot of the
 * player, the first differences of the series and the weak/strong labels.
 */
module BetterMachineLearning {
  import opened Wrappers
  import opened PyBuiltins
  import opened Timeline

  /** `analyze_cs` raises `KeyError` when a frame has no snapshot for the slot. */
  datatype AnalysisError = MissingParticipantFrame(key: string)

  /**
   * `analyze_cs(timeline, player_index)`: the seven per-frame series of one
   * slot. The snapshot series are copied from the frames; the five counters
   * are tallied over each frame's events and accumulated.
   */
  method AnalyzeCs(timeline: TimelineRecord, playerIndex: int) returns (r: Result<Series, AnalysisError>)
    ensures r.Success? <==> HasSlot(timeline.frames, IntToString(playerIndex))
    ensures r.Success? ==> r.value == Expected(timeline.frames, playerIndex)
    ensures r.Failure? ==> r.error == MissingParticipantFrame(IntToString(playerIndex))
    ensures r.Success? ==>
      var n := |timeline.frames|;
      && |r.value.minionsKilled| == n && |r.value.totalGold| == n && |r.value.kills| == n
      && |r.value.assists| == n && |r.value.deaths| == n && |r.value.damageDone| == n
      && |r.value.damageReceived| == n
  {
    var frames := timeline.frames;
    var key := IntToString(playerIndex);
    if exists i | 0 <= i < |frames| :: key !in frames[i].participantFrames {
      return Failure(MissingParticipantFrame(key));
    }
    var minionsKilled := seq(|frames|, i requires 0 <= i < |frames| => frames[i].participantFrames[key].minionsKilled);
    var totalGold := seq(|frames|, i requires 0 <= i < |frames| => frames[i].participantFrames[key].totalGold);
    var kills, assists, deaths, damageDone, damageReceived := AccumulateCounters(frames, playerIndex);
    return Success(Series(minionsKilled, totalGold, kills, assists, deaths, damageDone, damageReceived));
  }

  /**
   * The outer loop of `analyze_cs` for the five event counters: each frame's
   * tally is added to the running totals and the totals are appended.
   */
  method AccumulateCounters(frames: seq<Frame>, playerIndex: int)
    returns (kills: seq<int>, assists: seq<int>, deaths: seq<int>, damageDone: seq<int>, damageReceived: seq<int>)
    ensures kills == MetricSeries(frames, playerIndex, Kills)
    ensures assists == MetricSeries(frames, playerIndex, Assists)
    ensures deaths == MetricSeries(frames, playerIndex, Deaths)
    ensures damageDone == MetricSeries(frames, playerIndex, DamageDone)
    ensures damageReceived == MetricSeries(frames, playerIndex, DamageReceived)
  {
    kills, assists, deaths, damageDone, damageReceived := [], [], [], [], [];
    var sumKills, sumAssists, sumDeaths, sumDamageDone, sumDamageReceived := 0, 0, 0, 0, 0;
    for i := 0 to |frames|
      invariant sumKills == TallySum(frames[..i], playerIndex).Get(Kills)
      invariant sumAssists == TallySum(frames[..i], playerIndex).Get(Assists)
      invariant sumDeaths == TallySum(frames[..i], playerIndex).Get(Deaths)
      invariant sumDamageDone == TallySum(frames[..i], playerIndex).Get(DamageDone)
      invariant sumDamageReceived == TallySum(frames[..i], playerIndex).Get(DamageReceived)
      invariant kills == Column(Cumulative(frames[..i], playerIndex), Kills)
      invariant assists == Column(Cumulative(frames[..i], playerIndex), Assists)
      invariant deaths == Column(Cumulative(frames[..i], playerIndex), Deaths)
      invariant damageDone == Column(Cumulative(frames[..i], playerIndex), DamageDone)
      invariant damageReceived == Column(Cumulative(frames[..i], playerIndex), DamageReceived)
    {
      var frameTally := TallyEvents(frames[i].events, playerIndex);
      CumulativeStep(frames, i, playerIndex);
      sumKills := sumKills + frameTally.kills;
      kills := kills + [sumKills];
      sumAssists := sumAssists + frameTally.assists;
      assists := assists + [sumAssists];
      sumDeaths := sumDeaths + frameTally.deaths;
      deaths := deaths + [sumDeaths];
      sumDamageDone := sumDamageDone + frameTally.damageDone;
      damageDone := damageDone + [sumDamageDone];
      sumDamageReceived := sumDamageReceived + frameTally.damageReceived;
      damageReceived := damageReceived + [sumDamageReceived];
    }
    assert frames[..|frames|] == frames;
    ColumnOfCumulative(frames, playerIndex, Kills);
    ColumnOfCumulative(frames, playerIndex, Assists);
    ColumnOfCumulative(frames, playerIndex, Deaths);
    ColumnOfCumulative(frames, playerIndex, DamageDone);
    ColumnOfCumulative(frames, playerIndex, DamageReceived);
  }

  /**
   * The inner loop of `analyze_cs` over one frame's events: the five
   * per-frame counters, reset to zero and raised by each `CHAMPION_KILL`.
   */
  method TallyEvents(events: seq<Event>, playerIndex: int) returns (t: Tally)
    ensures t == FrameTally(events, playerIndex)
  {
    var frameKills, frameAssists, frameDeaths, frameDamageDone, frameDamageReceived := 0, 0, 0, 0, 0;
    for j := 0 to |events|
      invariant frameKills == FrameTally(events[..j], playerIndex).Get(Kills)
      invariant frameAssists == FrameTally(events[..j], playerIndex).Get(Assists)
      invariant frameDeaths == FrameTally(events[..j], playerIndex).Get(Deaths)
      invariant frameDamageDone == FrameTally(events[..j], playerIndex).Get(DamageDone)
      invariant frameDamageReceived == FrameTally(events[..j], playerIndex).Get(DamageReceived)
    {
      var event := events[j];
      FrameTallyStep(events, j, playerIndex);
      if event.eventType == ChampionKill {
        if event.victimId == playerIndex {
          frameDeaths := frameDeaths + 1;
        }
        if event.killerId == playerIndex {
          frameKills := frameKills + 1;
        }
        if event.assistingParticipantIds.Some? && playerIndex in event.assistingParticipantIds.value {
          frameAssists := frameAssists + 1;
        }
        if event.victimDamageDealt.Some? && (event.killerId == playerIndex
             || (event.assistingParticipantIds.Some? && playerIndex in event.assistingParticipantIds.value))
        {
          var dealt := event.victimDamageDealt.value;
          ghost var start := frameDamageDone;
          for k := 0 to |dealt|
            invariant frameDamageDone == start + OwnDamage(dealt[..k], playerIndex)
          {
            var damageEvent := dealt[k];
            OwnDamageSnoc(dealt[..k], damageEvent, playerIndex);
            assert dealt[..k + 1] == dealt[..k] + [damageEvent];
            if damageEvent.participantId != playerIndex {
              continue;
            }
            var allDamage := damageEvent.magicDamage + damageEvent.physicalDamage + damageEvent.trueDamage;
            frameDamageDone := frameDamageDone + allDamage;
          }
          assert dealt[..|dealt|] == dealt;
        }
        if event.victimDamageReceived.Some? && event.victimId == playerIndex {
          var received := event.victimDamageReceived.value;
          ghost var start := frameDamageReceived;
          for k := 0 to |received|
            invariant frameDamageReceived == start + AllDamage(received[..k])
          {
            var damageEvent := received[k];
            AllDamageSnoc(received[..k], damageEvent);
            assert received[..k + 1] == received[..k] + [damageEvent];
            var allDamageReceived := damageEvent.magicDamage + damageEvent.physicalDamage + damageEvent.trueDamage;
            frameDamageReceived := frameDamageReceived + allDamageReceived;
          }
          assert received[..|received|] == received;
        }
      }
    }
    assert events[..|events|] == events;
    t := Tally(frameKills, frameAssists, frameDeaths, frameDamageDone, frameDamageReceived);
  }

  // ---- Post-processing in `main` ----

  /**
   * The timeline keys its participant frames by slot `1..10`, while
   * `metadata.participants` is indexed from 0: `player_id = player_index + 1`.
   */
  function SlotOf(playerIndex: int): int {
    playerIndex + 1
  }

  /**
   * The located index turned into a slot names the summoner's own entry:
   * the slot lies in `1..|participants|` and entry `slot - 1` is the puuid.
   */
  lemma SlotOfLocatedPlayer(participants: seq<string>, puuid: string)
    requires puuid in participants
    ensures IndexOf(participants, puuid).Some?
    ensures
      var slot := SlotOf(IndexOf(participants, puuid).value);
      1 <= slot <= |participants| && participants[slot - 1] == puuid
  {
  }

  /** The second of two participants is slot 2, looked up under the key `"2"`. */
  lemma SecondParticipantIsSlotTwo()
    ensures IndexOf(["A", "B"], "B") == Some(1)
    ensures SlotOf(1) == 2 && IntToString(SlotOf(1)) == "2"
  {
    assert ["A", "B"][1..] == ["B"];
  }

  /** `np.diff`: the differences of neighbouring entries, one fewer than the entries. */
  function Diff(xs: seq<int>): (r: seq<int>)
    ensures |xs| <= 1 ==> r == []
    ensures |xs| > 1 ==> |r| == |xs| - 1
    ensures forall i :: 0 <= i < |r| ==> r[i] == xs[i + 1] - xs[i]
  {
    if |xs| <= 1 then [] else seq(|xs| - 1, i requires 0 <= i < |xs| - 1 => xs[i + 1] - xs[i])
  }

  /** The two classes one minute of play is labelled with. */
  datatype Label = Weak | Strong

  const LowCsThreshold: int := 7
  const HighDeathsThreshold: int := 2

  /**
   * The labelling rule: a minute is weak when fewer than `LowCsThreshold`
   * minions were killed in it or more than `HighDeathsThreshold` deaths
   * happened in it. `deaths_diff[i]` is read only when the CS test fails.
   */
  function Labels(csDiff: seq<int>, deathsDiff: seq<int>): (r: seq<Label>)
    requires |csDiff| <= |deathsDiff|
    ensures |r| == |csDiff|
    ensures forall i :: 0 <= i < |r| ==>
      (r[i] == Weak <==> csDiff[i] < LowCsThreshold || deathsDiff[i] > HighDeathsThreshold)
  {
    seq(|csDiff|, i requires 0 <= i < |csDiff| =>
      if csDiff[i] < LowCsThreshold || deathsDiff[i] > HighDeathsThreshold then Weak else Strong)
  }

  /** The first differences of running totals give back the values after the first. */
  lemma DiffOfRunning(xs: seq<int>)
    ensures Diff(Running(xs)) == if xs == [] then [] else xs[1..]
  {
    var d := Diff(Running(xs));
    if xs != [] {
      forall i | 0 <= i < |d|
        ensures d[i] == xs[1..][i]
      {
        RunningRecurrence(xs, i + 1);
      }
    }
  }

  /**
   * The labels of a timeline, in terms of its frames: one label per pair of
   * neighbouring frames, and label `i` is weak exactly when the CS snapshot
   * rose by less than 7 from frame `i` to frame `i + 1`, or the slot died
   * more than twice during frame `i + 1`.
   */
  lemma LabelsOfTimeline(frames: seq<Frame>, slot: int)
    requires HasSlot(frames, IntToString(slot))
    ensures
      var key := IntToString(slot);
      var labels := Labels(Diff(CsSeries(frames, key)), Diff(MetricSeries(frames, slot, Deaths)));
      && |labels| == (if frames == [] then 0 else |frames| - 1)
      && forall i :: 0 <= i < |labels| ==>
           (labels[i] == Weak <==>
              frames[i + 1].participantFrames[key].minionsKilled - frames[i].participantFrames[key].minionsKilled < 7
              || FrameTally(frames[i + 1].events, slot).deaths > 2)
  {
    LabelsByDeaths(frames, slot);
    CsDiffOfTimeline(frames, IntToString(slot));
  }

  /** The labelling rule with the death differences read as the deaths of each frame after the first. */
  lemma LabelsByDeaths(frames: seq<Frame>, slot: int)
    requires HasSlot(frames, IntToString(slot))
    ensures
      var cs := Diff(CsSeries(frames, IntToString(slot)));
      var labels := Labels(cs, Diff(MetricSeries(frames, slot, Deaths)));
      forall i :: 0 <= i < |labels| ==>
        (labels[i] == Weak <==> cs[i] < LowCsThreshold || FrameTally(frames[i + 1].events, slot).deaths > HighDeathsThreshold)
  {
    DeathsDiffOfTimeline(frames, slot);
  }

  /** The CS differences are the rises of the snapshot `minionsKilled` from one frame to the next. */
  lemma CsDiffOfTimeline(frames: seq<Frame>, key: string)
    requires HasSlot(frames, key)
    ensures
      var d := Diff(CsSeries(frames, key));
      && |d| == (if frames == [] then 0 else |frames| - 1)
      && forall i :: 0 <= i < |d| ==>
           d[i] == frames[i + 1].participantFrames[key].minionsKilled - frames[i].participantFrames[key].minionsKilled
  {
  }

  /** The death differences are the deaths counted in each frame after the first. */
  lemma DeathsDiffOfTimeline(frames: seq<Frame>, slot: int)
    ensures
      var d := Diff(MetricSeries(frames, slot, Deaths));
      && |d| == (if frames == [] then 0 else |frames| - 1)
      && forall i :: 0 <= i < |d| ==> d[i] == FrameTally(frames[i + 1].events, slot).deaths
  {
    DiffOfRunning(PerFrame(frames, slot, Deaths));
  }
}
