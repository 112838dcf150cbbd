/**
 * A match timeline as the aggregator reads it: an ordered list of per-minute
 * frames, each holding a snapshot per participant slot (keyed by the slot
 * written in decimal) and the events of that minute. The functions here
 * specify what the aggregator computes for one slot; the lemmas state the
 * properties of the seven series it returns.
 */
module Timeline {
  import opened Wrappers
  import opened PyBuiltins

  /** One entry of `victimDamageDealt` or `victimDamageReceived`. */
  datatype DamageComponent = DamageComponent(
    participantId: int,
    magicDamage: int,
    physicalDamage: int,
    trueDamage: int)

  /**
   * A timeline event. Only `CHAMPION_KILL` events are interpreted; for those
   * the killer and victim slots are always present, the assist list and the
   * two damage lists may be missing.
   */
  datatype Event = Event(
    eventType: string,
    killerId: int,
    victimId: int,
    assistingParticipantIds: Option<seq<int>>,
    victimDamageDealt: Option<seq<DamageComponent>>,
    victimDamageReceived: Option<seq<DamageComponent>>)

  /** The per-participant snapshot of a frame; both values are running totals. */
  datatype ParticipantFrame = ParticipantFrame(minionsKilled: int, totalGold: int)

  datatype Frame = Frame(participantFrames: map<string, ParticipantFrame>, events: seq<Event>)

  /** `metadata.participants` (puuids, 0-based) and `info.frames`. */
  datatype TimelineRecord = TimelineRecord(participants: seq<string>, frames: seq<Frame>)

  const ChampionKill: string := "CHAMPION_KILL"

  /** `magicDamage + physicalDamage + trueDamage`. */
  function ComponentDamage(c: DamageComponent): int {
    c.magicDamage + c.physicalDamage + c.trueDamage
  }

  /** Damage summed over the components that belong to `slot`. */
  function OwnDamage(cs: seq<DamageComponent>, slot: int): int
    decreases |cs|
  {
    if cs == [] then 0
    else
      var last := cs[|cs| - 1];
      OwnDamage(cs[..|cs| - 1], slot) + (if last.participantId == slot then ComponentDamage(last) else 0)
  }

  /** Damage summed over every component, whoever it belongs to. */
  function AllDamage(cs: seq<DamageComponent>): int
    decreases |cs|
  {
    if cs == [] then 0 else AllDamage(cs[..|cs| - 1]) + ComponentDamage(cs[|cs| - 1])
  }

  /** The components that belong to `slot`, in order. */
  function ComponentsOf(cs: seq<DamageComponent>, slot: int): (r: seq<DamageComponent>)
    ensures forall i :: 0 <= i < |r| ==> r[i].participantId == slot
    decreases |cs|
  {
    if cs == [] then []
    else
      var last := cs[|cs| - 1];
      ComponentsOf(cs[..|cs| - 1], slot) + (if last.participantId == slot then [last] else [])
  }

  /** `slot` is in the event's `assistingParticipantIds` (a missing list holds nobody). */
  predicate Assisted(e: Event, slot: int) {
    e.assistingParticipantIds.Some? && slot in e.assistingParticipantIds.value
  }

  /** The killer or an assister: the slots whose own damage to the victim counts as damage done. */
  predicate CreditedForDamage(e: Event, slot: int) {
    e.killerId == slot || Assisted(e, slot)
  }

  datatype Metric = Kills | Assists | Deaths | DamageDone | DamageReceived

  /** The five counters the aggregator keeps for one frame. */
  datatype Tally = Tally(kills: int, assists: int, deaths: int, damageDone: int, damageReceived: int)
  {
    function Plus(t: Tally): Tally {
      Tally(kills + t.kills, assists + t.assists, deaths + t.deaths,
            damageDone + t.damageDone, damageReceived + t.damageReceived)
    }

    function Get(m: Metric): int {
      match m
      case Kills => kills
      case Assists => assists
      case Deaths => deaths
      case DamageDone => damageDone
      case DamageReceived => damageReceived
    }
  }

  const Zero: Tally := Tally(0, 0, 0, 0, 0)

  /**
   * What one event adds to the counters of `slot`. The four tests are
   * independent: one event can count as a kill and a death, or a kill and an
   * assist, of the same slot.
   */
  function EventTally(e: Event, slot: int): Tally {
    if e.eventType != ChampionKill then Zero
    else
      Tally(
        if e.killerId == slot then 1 else 0,
        if Assisted(e, slot) then 1 else 0,
        if e.victimId == slot then 1 else 0,
        if e.victimDamageDealt.Some? && CreditedForDamage(e, slot)
        then OwnDamage(e.victimDamageDealt.value, slot) else 0,
        if e.victimDamageReceived.Some? && e.victimId == slot
        then AllDamage(e.victimDamageReceived.value) else 0)
  }

  /** The counters of one frame: the tallies of its events, added up. */
  function FrameTally(events: seq<Event>, slot: int): Tally
    decreases |events|
  {
    if events == [] then Zero
    else FrameTally(events[..|events| - 1], slot).Plus(EventTally(events[|events| - 1], slot))
  }

  /** The per-frame count of one metric, frame by frame. */
  function PerFrame(frames: seq<Frame>, slot: int, m: Metric): (r: seq<int>)
    ensures |r| == |frames|
    ensures forall i :: 0 <= i < |frames| ==> r[i] == FrameTally(frames[i].events, slot).Get(m)
    decreases |frames|
  {
    if frames == [] then []
    else PerFrame(frames[..|frames| - 1], slot, m) + [FrameTally(frames[|frames| - 1].events, slot).Get(m)]
  }

  function Sum(xs: seq<int>): int
    decreases |xs|
  {
    if xs == [] then 0 else Sum(xs[..|xs| - 1]) + xs[|xs| - 1]
  }

  /** The running totals of `xs`: entry `i` is the sum of `xs[..i + 1]`. */
  function Running(xs: seq<int>): (r: seq<int>)
    ensures |r| == |xs|
    decreases |xs|
  {
    if xs == [] then [] else Running(xs[..|xs| - 1]) + [Sum(xs)]
  }

  /** The cumulative series of one metric. */
  function MetricSeries(frames: seq<Frame>, slot: int, m: Metric): seq<int> {
    Running(PerFrame(frames, slot, m))
  }

  /** Every frame has a snapshot under `key`. */
  predicate HasSlot(frames: seq<Frame>, key: string) {
    forall i :: 0 <= i < |frames| ==> key in frames[i].participantFrames
  }

  /** The seven series `analyze_cs` returns, in its order. */
  datatype Series = Series(
    minionsKilled: seq<int>,
    totalGold: seq<int>,
    kills: seq<int>,
    assists: seq<int>,
    deaths: seq<int>,
    damageDone: seq<int>,
    damageReceived: seq<int>)

  /** The CS snapshot of every frame, in frame order. */
  function CsSeries(frames: seq<Frame>, key: string): (r: seq<int>)
    requires HasSlot(frames, key)
    ensures |r| == |frames|
    ensures forall i :: 0 <= i < |frames| ==> r[i] == frames[i].participantFrames[key].minionsKilled
  {
    seq(|frames|, i requires 0 <= i < |frames| => frames[i].participantFrames[key].minionsKilled)
  }

  /** The gold snapshot of every frame, in frame order. */
  function GoldSeries(frames: seq<Frame>, key: string): (r: seq<int>)
    requires HasSlot(frames, key)
    ensures |r| == |frames|
    ensures forall i :: 0 <= i < |frames| ==> r[i] == frames[i].participantFrames[key].totalGold
  {
    seq(|frames|, i requires 0 <= i < |frames| => frames[i].participantFrames[key].totalGold)
  }

  /**
   * The series for `slot`: the two snapshot values copied frame by frame, and
   * the running totals of the five counters.
   */
  function Expected(frames: seq<Frame>, slot: int): Series
    requires HasSlot(frames, IntToString(slot))
  {
    var key := IntToString(slot);
    Series(
      CsSeries(frames, key),
      GoldSeries(frames, key),
      MetricSeries(frames, slot, Kills),
      MetricSeries(frames, slot, Assists),
      MetricSeries(frames, slot, Deaths),
      MetricSeries(frames, slot, DamageDone),
      MetricSeries(frames, slot, DamageReceived))
  }

  // ---- Steps used by the loops of the aggregator ----

  lemma OwnDamageSnoc(cs: seq<DamageComponent>, c: DamageComponent, slot: int)
    ensures OwnDamage(cs + [c], slot) == OwnDamage(cs, slot) + (if c.participantId == slot then ComponentDamage(c) else 0)
  {
    assert (cs + [c])[..|cs|] == cs;
  }

  lemma AllDamageSnoc(cs: seq<DamageComponent>, c: DamageComponent)
    ensures AllDamage(cs + [c]) == AllDamage(cs) + ComponentDamage(c)
  {
    assert (cs + [c])[..|cs|] == cs;
  }

  lemma FrameTallySnoc(events: seq<Event>, e: Event, slot: int)
    ensures FrameTally(events + [e], slot) == FrameTally(events, slot).Plus(EventTally(e, slot))
  {
    assert (events + [e])[..|events|] == events;
  }

  /** One more event: each counter of the frame grows by what the event adds. */
  lemma FrameTallyStep(events: seq<Event>, j: nat, slot: int)
    requires j < |events|
    ensures forall m: Metric ::
      FrameTally(events[..j + 1], slot).Get(m) == FrameTally(events[..j], slot).Get(m) + EventTally(events[j], slot).Get(m)
  {
    assert events[..j + 1] == events[..j] + [events[j]];
    FrameTallySnoc(events[..j], events[j], slot);
  }

  lemma PerFrameSnoc(frames: seq<Frame>, f: Frame, slot: int, m: Metric)
    ensures PerFrame(frames + [f], slot, m) == PerFrame(frames, slot, m) + [FrameTally(f.events, slot).Get(m)]
  {
    assert (frames + [f])[..|frames|] == frames;
  }

  lemma SumSnoc(xs: seq<int>, x: int)
    ensures Sum(xs + [x]) == Sum(xs) + x
  {
    assert (xs + [x])[..|xs|] == xs;
  }

  lemma RunningSnoc(xs: seq<int>, x: int)
    ensures Running(xs + [x]) == Running(xs) + [Sum(xs) + x]
  {
    assert (xs + [x])[..|xs|] == xs;
    SumSnoc(xs, x);
  }

  /** The five counters of `slot` summed over all of `frames`. */
  function TallySum(frames: seq<Frame>, slot: int): Tally
    decreases |frames|
  {
    if frames == [] then Zero
    else TallySum(frames[..|frames| - 1], slot).Plus(FrameTally(frames[|frames| - 1].events, slot))
  }

  /** Entry `i` holds the five counters of `slot` summed over `frames[..i + 1]`. */
  function Cumulative(frames: seq<Frame>, slot: int): (r: seq<Tally>)
    ensures |r| == |frames|
    decreases |frames|
  {
    if frames == [] then [] else Cumulative(frames[..|frames| - 1], slot) + [TallySum(frames, slot)]
  }

  /** One counter read off each tally. */
  function Column(ts: seq<Tally>, m: Metric): (r: seq<int>)
    ensures |r| == |ts|
    ensures forall i :: 0 <= i < |ts| ==> r[i] == ts[i].Get(m)
  {
    seq(|ts|, i requires 0 <= i < |ts| => ts[i].Get(m))
  }

  lemma ColumnSnoc(ts: seq<Tally>, t: Tally, m: Metric)
    ensures Column(ts + [t], m) == Column(ts, m) + [t.Get(m)]
  {
  }

  lemma CumulativeSnoc(frames: seq<Frame>, f: Frame, slot: int)
    ensures TallySum(frames + [f], slot) == TallySum(frames, slot).Plus(FrameTally(f.events, slot))
    ensures Cumulative(frames + [f], slot) == Cumulative(frames, slot) + [TallySum(frames + [f], slot)]
  {
    assert (frames + [f])[..|frames|] == frames;
  }

  /**
   * One more frame: each counter summed up to and including the frame is the
   * sum so far plus the frame's own count, and every column of the
   * cumulative tallies grows by that new sum.
   */
  lemma CumulativeStep(frames: seq<Frame>, i: nat, slot: int)
    requires i < |frames|
    ensures forall m: Metric ::
      TallySum(frames[..i + 1], slot).Get(m) == TallySum(frames[..i], slot).Get(m) + FrameTally(frames[i].events, slot).Get(m)
    ensures forall m: Metric ::
      Column(Cumulative(frames[..i + 1], slot), m) == Column(Cumulative(frames[..i], slot), m) + [TallySum(frames[..i + 1], slot).Get(m)]
  {
    assert frames[..i + 1] == frames[..i] + [frames[i]];
    CumulativeSnoc(frames[..i], frames[i], slot);
    forall m: Metric {
      ColumnSnoc(Cumulative(frames[..i], slot), TallySum(frames[..i + 1], slot), m);
    }
  }

  /**
   * Summing all five counters at once agrees with summing each one on its
   * own: column `m` of `Cumulative` is the running total of metric `m`.
   */
  lemma {:induction false} ColumnOfCumulative(frames: seq<Frame>, slot: int, m: Metric)
    ensures TallySum(frames, slot).Get(m) == Sum(PerFrame(frames, slot, m))
    ensures Column(Cumulative(frames, slot), m) == MetricSeries(frames, slot, m)
    decreases |frames|
  {
    if frames != [] {
      var front, last := frames[..|frames| - 1], frames[|frames| - 1];
      assert frames == front + [last];
      ColumnOfCumulative(front, slot, m);
      CumulativeSnoc(front, last, slot);
      PerFrameSnoc(front, last, slot, m);
      SumSnoc(PerFrame(front, slot, m), FrameTally(last.events, slot).Get(m));
      RunningSnoc(PerFrame(front, slot, m), FrameTally(last.events, slot).Get(m));
      ColumnSnoc(Cumulative(front, slot), TallySum(frames, slot), m);
    }
  }

  // ---- Properties of the running totals ----

  /** Entry `i` of the running totals is the sum of the first `i + 1` values. */
  lemma {:induction false} RunningAt(xs: seq<int>, i: nat)
    requires i < |xs|
    ensures Running(xs)[i] == Sum(xs[..i + 1])
    decreases |xs|
  {
    var init := xs[..|xs| - 1];
    if i == |xs| - 1 {
      assert xs[..i + 1] == xs;
    } else {
      RunningAt(init, i);
      assert init[..i + 1] == xs[..i + 1];
    }
  }

  /**
   * The recurrence of a cumulative series: entry 0 is the first value (no
   * baseline), and each later entry adds that frame's value to the one before.
   */
  lemma {:induction false} RunningRecurrence(xs: seq<int>, i: nat)
    requires i < |xs|
    ensures i == 0 ==> Running(xs)[0] == xs[0]
    ensures i > 0 ==> Running(xs)[i] == Running(xs)[i - 1] + xs[i]
  {
    RunningAt(xs, i);
    assert xs[..i + 1] == xs[..i] + [xs[i]];
    SumSnoc(xs[..i], xs[i]);
    if i == 0 {
      assert xs[..i] == [];
    } else {
      RunningAt(xs, i - 1);
      assert xs[..i - 1 + 1] == xs[..i];
    }
  }

  /** Running totals of non-negative values never decrease. */
  lemma {:induction false} RunningMonotone(xs: seq<int>)
    requires forall i :: 0 <= i < |xs| ==> xs[i] >= 0
    ensures forall i, j :: 0 <= i <= j < |xs| ==> Running(xs)[i] <= Running(xs)[j]
    decreases |xs|
  {
    if xs != [] {
      var init := xs[..|xs| - 1];
      RunningMonotone(init);
      var r := Running(xs);
      assert r == Running(init) + [Sum(xs)];
      if init != [] {
        RunningAt(init, |init| - 1);
        assert init[..|init|] == init;
        assert forall i :: 0 <= i < |init| ==> r[i] <= r[|init| - 1];
        assert r[|init| - 1] == Sum(init) <= Sum(xs);
      }
    }
  }

  // ---- Properties of the attribution ----

  /** The events of type `CHAMPION_KILL`, in order. */
  function KillEvents(events: seq<Event>): (r: seq<Event>)
    ensures forall i :: 0 <= i < |r| ==> r[i].eventType == ChampionKill
    decreases |events|
  {
    if events == [] then []
    else
      var last := events[|events| - 1];
      KillEvents(events[..|events| - 1]) + (if last.eventType == ChampionKill then [last] else [])
  }

  /** Only `CHAMPION_KILL` events change a counter: dropping every other event changes no tally. */
  lemma {:induction false} OnlyKillsCount(events: seq<Event>, slot: int)
    ensures FrameTally(events, slot) == FrameTally(KillEvents(events), slot)
    decreases |events|
  {
    if events != [] {
      var init, last := events[..|events| - 1], events[|events| - 1];
      OnlyKillsCount(init, slot);
      if last.eventType == ChampionKill {
        FrameTallySnoc(KillEvents(init), last, slot);
      } else {
        assert KillEvents(events) == KillEvents(init);
      }
    }
  }

  /** A frame without `CHAMPION_KILL` events repeats the previous cumulative totals. */
  lemma QuietFrameRepeats(frames: seq<Frame>, slot: int, i: nat, m: Metric)
    requires 0 < i < |frames|
    requires forall j :: 0 <= j < |frames[i].events| ==> frames[i].events[j].eventType != ChampionKill
    ensures MetricSeries(frames, slot, m)[i] == MetricSeries(frames, slot, m)[i - 1]
  {
    var events := frames[i].events;
    OnlyKillsCount(events, slot);
    NoKillEvents(events);
    RunningRecurrence(PerFrame(frames, slot, m), i);
  }

  lemma {:induction false} NoKillEvents(events: seq<Event>)
    requires forall j :: 0 <= j < |events| ==> events[j].eventType != ChampionKill
    ensures KillEvents(events) == []
    decreases |events|
  {
    if events != [] {
      NoKillEvents(events[..|events| - 1]);
    }
  }

  /** Kills, assists and deaths of a frame are never negative. */
  lemma {:induction false} CountsNonNegative(events: seq<Event>, slot: int)
    ensures FrameTally(events, slot).kills >= 0
    ensures FrameTally(events, slot).assists >= 0
    ensures FrameTally(events, slot).deaths >= 0
    decreases |events|
  {
    if events != [] {
      CountsNonNegative(events[..|events| - 1], slot);
    }
  }

  /** Every damage component of every kill event in the frames is non-negative. */
  ghost predicate NonNegativeDamage(frames: seq<Frame>) {
    forall i, j :: 0 <= i < |frames| && 0 <= j < |frames[i].events| ==>
      NonNegativeComponents(frames[i].events[j])
  }

  ghost predicate NonNegativeComponents(e: Event) {
    && (e.victimDamageDealt.Some? ==> forall c :: c in e.victimDamageDealt.value ==>
          c.magicDamage >= 0 && c.physicalDamage >= 0 && c.trueDamage >= 0)
    && (e.victimDamageReceived.Some? ==> forall c :: c in e.victimDamageReceived.value ==>
          c.magicDamage >= 0 && c.physicalDamage >= 0 && c.trueDamage >= 0)
  }

  lemma {:induction false} DamageSumsNonNegative(cs: seq<DamageComponent>, slot: int)
    requires forall c :: c in cs ==> c.magicDamage >= 0 && c.physicalDamage >= 0 && c.trueDamage >= 0
    ensures OwnDamage(cs, slot) >= 0 && AllDamage(cs) >= 0
    decreases |cs|
  {
    if cs != [] {
      DamageSumsNonNegative(cs[..|cs| - 1], slot);
      assert cs[|cs| - 1] in cs;
    }
  }

  lemma {:induction false} DamageNonNegative(events: seq<Event>, slot: int)
    requires forall j :: 0 <= j < |events| ==> NonNegativeComponents(events[j])
    ensures FrameTally(events, slot).damageDone >= 0
    ensures FrameTally(events, slot).damageReceived >= 0
    decreases |events|
  {
    if events != [] {
      var e := events[|events| - 1];
      DamageNonNegative(events[..|events| - 1], slot);
      if e.victimDamageDealt.Some? {
        DamageSumsNonNegative(e.victimDamageDealt.value, slot);
      }
      if e.victimDamageReceived.Some? {
        DamageSumsNonNegative(e.victimDamageReceived.value, slot);
      }
    }
  }

  /**
   * The kill, assist and death series never decrease; the two damage series
   * never decrease when no damage component is negative.
   */
  lemma SeriesNonDecreasing(frames: seq<Frame>, slot: int, m: Metric)
    requires m in {DamageDone, DamageReceived} ==> NonNegativeDamage(frames)
    ensures forall i, j :: 0 <= i <= j < |frames| ==>
      MetricSeries(frames, slot, m)[i] <= MetricSeries(frames, slot, m)[j]
  {
    var xs := PerFrame(frames, slot, m);
    forall i | 0 <= i < |xs| ensures xs[i] >= 0 {
      CountsNonNegative(frames[i].events, slot);
      if m == DamageDone || m == DamageReceived {
        DamageNonNegative(frames[i].events, slot);
      }
    }
    RunningMonotone(xs);
  }

  /** Damage done for a slot is the damage of exactly the components that carry its id. */
  lemma {:induction false} OwnDamageIsFiltered(cs: seq<DamageComponent>, slot: int)
    ensures OwnDamage(cs, slot) == AllDamage(ComponentsOf(cs, slot))
    decreases |cs|
  {
    if cs != [] {
      var init, last := cs[..|cs| - 1], cs[|cs| - 1];
      OwnDamageIsFiltered(init, slot);
      if last.participantId == slot {
        AllDamageSnoc(ComponentsOf(init, slot), last);
      } else {
        assert ComponentsOf(cs, slot) == ComponentsOf(init, slot);
      }
    }
  }

  /** Only the victim of an event is credited with the damage it received. */
  lemma ReceivedOnlyByVictim(e: Event, slot: int)
    requires EventTally(e, slot).damageReceived != 0
    ensures e.eventType == ChampionKill && e.victimId == slot && e.victimDamageReceived.Some?
    ensures EventTally(e, slot).damageReceived == AllDamage(e.victimDamageReceived.value)
  {
  }

  // ---- Worked cases ----

  /**
   * Killer 3, assister 5, with damage components 3: 50 + 30 + 0 and
   * 5: 10 + 0 + 0: slot 3 is credited 80 damage done, slot 5 is credited 10,
   * every other slot 0.
   */
  lemma DamageAttributionExample(slot: int)
    ensures
      var e := Event(ChampionKill, 3, 7, Some([5]),
                     Some([DamageComponent(3, 50, 30, 0), DamageComponent(5, 10, 0, 0)]), None);
      EventTally(e, slot).damageDone == (if slot == 3 then 80 else if slot == 5 then 10 else 0)
  {
    var cs := [DamageComponent(3, 50, 30, 0), DamageComponent(5, 10, 0, 0)];
    assert cs[..1] == [cs[0]] && [cs[0]][..0] == [];
    assert OwnDamage([cs[0]], slot) == (if slot == 3 then 80 else 0);
    assert OwnDamage(cs, slot) == OwnDamage([cs[0]], slot) + (if slot == 5 then 10 else 0);
    assert (slot in [5]) == (slot == 5);
  }

  /** One event can count both as a kill and as a death of the same slot. */
  lemma KillAndDeathInOneEvent(e: Event, slot: int)
    requires e.eventType == ChampionKill && e.killerId == slot && e.victimId == slot
    ensures EventTally(e, slot).kills == 1 && EventTally(e, slot).deaths == 1
  {
  }

  /** One event can count both as a kill and as an assist of the same slot. */
  lemma KillAndAssistInOneEvent(e: Event, slot: int)
    requires e.eventType == ChampionKill && e.killerId == slot && Assisted(e, slot)
    ensures EventTally(e, slot).kills == 1 && EventTally(e, slot).assists == 1
  {
  }
}
