/**
 * `src/riot_api.py`: the client of the Riot web API. The HTTP transport is not
 * modelled; a `Service` stands for the four endpoints and answers each request
 * with a document or with `None` (the client's `__handle_request` returns
 * `None` on any request error). The client keeps the log of the requests it
 * sent and its own name-to-puuid memo.
 */
module RiotApi {
  import opened Wrappers
  import opened Timeline

  /** A summoner profile as returned by the summoner endpoint. */
  datatype Profile = Profile(name: string, puuid: string)

  /**
   * A match as returned by the match endpoint; the game mode and the puuids
   * of its participants (`metadata.participants`) are read.
   */
  datatype MatchRecord = MatchRecord(matchId: string, gameMode: string, participants: seq<string>)

  /** A JSON document the program stores: any of the three, or `null`. */
  datatype Document = ProfileDoc(profile: Profile) | MatchDoc(matchRecord: MatchRecord) | TimelineDoc(timeline: TimelineRecord) | Null

  /**
   * `doc['metadata']['participants']`: a match and a timeline both list the
   * puuids of the players; a profile has no `metadata` and `null` cannot be
   * indexed.
   */
  function ParticipantsOf(doc: Document): (r: Option<seq<string>>)
    ensures r.Some? <==> doc.MatchDoc? || doc.TimelineDoc?
  {
    match doc
    case MatchDoc(m) => Some(m.participants)
    case TimelineDoc(t) => Some(t.participants)
    case _ => None
  }

  /** The four endpoints the client calls. */
  datatype Request = SummonerByName(name: string) | MatchList(puuid: string) | MatchById(matchId: string) | TimelineById(timelineId: string)

  /** The exception the client raises itself, before any request: a match list asked for no summoner. */
  datatype ClientError = NoSummonerGiven

  /** What the remote service answers to each request. */
  datatype Service = Service(
    summonerByName: string -> Option<Profile>,
    matchList: string -> Option<seq<string>>,
    matchById: string -> Option<MatchRecord>,
    timelineById: string -> Option<TimelineRecord>)

  /** `RiotApiHelper`. */
  class RiotApiHelper {
    const service: Service
    /** Every request sent so far, in order. */
    var requests: seq<Request>
    /** `self.cache`: the puuid of every summoner whose profile was fetched. */
    var memo: map<string, string>

    constructor (service: Service)
      ensures this.service == service && requests == [] && memo == map[]
    {
      this.service := service;
      requests := [];
      memo := map[];
    }

    /**
     * `get_summoner_data_by_name`. A failed request leaves `None`, and the
     * client stops with a `TypeError` when it indexes it: `None` here means
     * the call raised, and the memo is then unchanged.
     */
    method GetSummonerDataByName(name: string) returns (r: Option<Profile>)
      modifies this
      ensures r == service.summonerByName(name)
      ensures requests == old(requests) + [SummonerByName(name)]
      ensures memo == if r.Some? then old(memo)[name := r.value.puuid] else old(memo)
    {
      requests := requests + [SummonerByName(name)];
      r := service.summonerByName(name);
      if r.Some? {
        memo := memo[name := r.value.puuid];
      }
    }

    /** `get_puuid_for_summoner_name`: the memo, or a profile request when the name is new. */
    method GetPuuidForSummonerName(name: string) returns (r: Option<string>)
      modifies this
      ensures name in old(memo) ==> r == Some(old(memo)[name]) && requests == old(requests) && memo == old(memo)
      ensures name !in old(memo) ==>
        var p := service.summonerByName(name);
        && requests == old(requests) + [SummonerByName(name)]
        && r == (if p.Some? then Some(p.value.puuid) else None)
        && memo == (if p.Some? then old(memo)[name := p.value.puuid] else old(memo))
    {
      if name !in memo {
        var p := GetSummonerDataByName(name);
        if p.None? {
          return None;
        }
      }
      r := Some(memo[name]);
    }

    /**
     * `get_match_list` by puuid. An empty puuid is falsy: the client raises
     * before sending anything.
     */
    method GetMatchList(puuid: string) returns (r: Result<Option<seq<string>>, ClientError>)
      modifies this
      ensures puuid == "" ==> r == Failure(NoSummonerGiven) && requests == old(requests)
      ensures puuid != "" ==> r == Success(service.matchList(puuid)) && requests == old(requests) + [MatchList(puuid)]
      ensures memo == old(memo)
    {
      if puuid == "" {
        return Failure(NoSummonerGiven);
      }
      requests := requests + [MatchList(puuid)];
      r := Success(service.matchList(puuid));
    }

    /** `get_match_by_id`. */
    method GetMatchById(matchId: string) returns (r: Option<MatchRecord>)
      modifies this
      ensures r == service.matchById(matchId)
      ensures requests == old(requests) + [MatchById(matchId)] && memo == old(memo)
    {
      requests := requests + [MatchById(matchId)];
      r := service.matchById(matchId);
    }

    /** `get_match_timeline_by_id`. */
    method GetMatchTimelineById(matchId: string) returns (r: Option<TimelineRecord>)
      modifies this
      ensures r == service.timelineById(matchId)
      ensures requests == old(requests) + [TimelineById(matchId)] && memo == old(memo)
    {
      requests := requests + [TimelineById(matchId)];
      r := service.timelineById(matchId);
    }
  }
}
