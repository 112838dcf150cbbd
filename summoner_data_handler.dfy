/**
 * `src/summoner_data_handler.py`: the match store. It keeps, per summoner,
 * the matches and timelines it fetched from the Riot API or loaded from the
 * summoner's directory, in insertion order, and the summoner profiles it
 * has seen. The functions below specify each operation on the whole state
 * (disk, caches, the API client's log and memo); the class methods are
 * proved to perform exactly those state changes.
 */
module SummonerDataHandling {
  import opened Wrappers
  import opened OrderedMaps
  import opened PyBuiltins
  import opened Timeline
  import opened RiotApi
  import opened FileSystem
  import opened MatchFiles

  /** `{'match': ..., 'timeline': ...}`. */
  datatype CacheEntry = CacheEntry(matchDoc: Document, timelineDoc: Document)

  /** Match id to entry, in insertion order: one summoner's part of `cache`. */
  type Bucket = OrderedMap<string, CacheEntry>

  type Cache = map<string, Bucket>

  /** What makes an operation stop with an exception. */
  datatype Error =
    | FetchFailed(request: Request)
    | KeyError(key: string)
    | NotAProfile(summonerName: string)
    | NoParticipants
    | FileNotFound(dir: string, file: string)
    | UnreadableFile(dir: string, file: string)
    | ParticipantNotFound(puuid: string)
    | Refused(reason: ClientError)

  datatype Outcome = Done | Aborted(error: Error)

  /** Everything the store reads and changes. */
  datatype Store = Store(
    tree: Tree,
    cache: Cache,
    summonerCache: map<string, Document>,
    requests: seq<Request>,
    memo: map<string, string>)

  const Classic: string := "CLASSIC"

  /** The default `num_matches` of `save_match_data_for_summoner`. */
  const DefaultNumMatches: int := 5

  ghost predicate ValidCache(cache: Cache) {
    forall n | n in cache :: cache[n].Valid()
  }

  ghost predicate ValidStore(st: Store) {
    ValidTree(st.tree) && ValidCache(st.cache)
  }

  /** `cache[name]` read through the `defaultdict`: an absent summoner has no entries. */
  function BucketOf(cache: Cache, name: string): Bucket {
    if name in cache then cache[name] else Empty()
  }

  /** `cache[name][matchId] = entry`. */
  function Remember(cache: Cache, name: string, matchId: string, entry: CacheEntry): (r: Cache)
  {
    cache[name := BucketOf(cache, name).Put(matchId, entry)]
  }

  /** `cache[name][k] = v` for each pair, in order; no pair, no access, so no entry is created. */
  function RememberAll(cache: Cache, name: string, puts: seq<(string, CacheEntry)>): Cache
    decreases |puts|
  {
    if puts == [] then cache
    else RememberAll(Remember(cache, name, puts[0].0, puts[0].1), name, puts[1..])
  }

  /** Storing pairs keeps every bucket well formed. */
  lemma {:induction false} RememberAllKeepsValid(cache: Cache, name: string, puts: seq<(string, CacheEntry)>)
    ensures ValidCache(cache) ==> ValidCache(RememberAll(cache, name, puts))
    decreases |puts|
  {
    if puts != [] {
      RememberAllKeepsValid(Remember(cache, name, puts[0].0, puts[0].1), name, puts[1..]);
    }
  }

  /** Remembering one more pair after a list is one more `Remember`. */
  lemma {:induction false} RememberAllSnoc(cache: Cache, name: string, puts: seq<(string, CacheEntry)>, put: (string, CacheEntry))
    ensures RememberAll(cache, name, puts + [put]) == Remember(RememberAll(cache, name, puts), name, put.0, put.1)
    decreases |puts|
  {
    var q := puts + [put];
    if puts == [] {
      assert q[1..] == [];
    } else {
      assert q[0] == puts[0] && q[1..] == puts[1..] + [put];
      RememberAllSnoc(Remember(cache, name, puts[0].0, puts[0].1), name, puts[1..], put);
    }
  }

  function Sent(st: Store, q: Request): Store {
    st.(requests := st.requests + [q])
  }

  /** A fetched timeline as stored: the document, or `null` when the request failed. */
  function TimelineDocOf(t: Option<TimelineRecord>): Document {
    if t.Some? then TimelineDoc(t.value) else Null
  }

  function PuuidOf(doc: Document): Option<string> {
    if doc.ProfileDoc? then Some(doc.profile.puuid) else None
  }

  // ---- save_match_data_for_summoner ----

  /**
   * The loop over `match_list` from the current id on, with `remaining`
   * matches still to download (`num_matches - downloaded_matches`): it stops
   * when none remain, skips a match that is not CLASSIC, writes the match file,
   * fetches and writes the timeline, and stores both in the cache. A failed
   * match request stops the call (`None['info']` raises); a failed timeline
   * request stores `null`.
   */
  function FetchMatches(svc: Service, st: Store, dir: string, name: string, ids: seq<string>, i: nat, remaining: int, force: bool): (r: (Store, Outcome))
    requires dir in st.tree && i <= |ids|
    ensures dir in r.0.tree
    ensures ValidStore(st) ==> ValidStore(r.0)
    decreases |ids| - i, 2
  {
    if i == |ids| then (st, Done) else NextMatch(svc, st, dir, name, ids, i, remaining, force)
  }

  /** The body of the loop at position `i`: stop once no match remains to download, else take the turn. */
  function NextMatch(svc: Service, st: Store, dir: string, name: string, ids: seq<string>, i: nat, remaining: int, force: bool): (r: (Store, Outcome))
    requires dir in st.tree && i < |ids|
    ensures dir in r.0.tree
    ensures ValidStore(st) ==> ValidStore(r.0)
    decreases |ids| - i, 1
  {
    if remaining == 0 then (st, Done) else TakeTurn(svc, st, dir, name, ids, i, remaining, force)
  }

  /** The turn at position `i` of the loop, then the rest of the loop. */
  function TakeTurn(svc: Service, st: Store, dir: string, name: string, ids: seq<string>, i: nat, remaining: int, force: bool): (r: (Store, Outcome))
    requires dir in st.tree && i < |ids|
    ensures dir in r.0.tree
    ensures ValidStore(st) ==> ValidStore(r.0)
    decreases |ids| - i, 0
  {
    FetchTurnKeepsValid(svc, st, dir, name, ids[i], force);
    var (st1, turn) := FetchTurn(svc, st, dir, name, ids[i], force);
    match turn
    case Stopped(e) => (st1, Aborted(e))
    case Skipped => FetchMatches(svc, st1, dir, name, ids, i + 1, remaining, force)
    case Downloaded => FetchMatches(svc, st1, dir, name, ids, i + 1, remaining - 1, force)
  }

  /** How one turn of the loop ends. */
  datatype Turn = Stopped(error: Error) | Skipped | Downloaded

  /**
   * One turn of the loop: fetch the match; a failed request stops the call,
   * a match that is not CLASSIC is skipped, and a CLASSIC one is kept.
   */
  function FetchTurn(svc: Service, st: Store, dir: string, name: string, matchId: string, force: bool): (r: (Store, Turn))
    requires dir in st.tree
    ensures dir in r.0.tree
  {
    var st1 := Sent(st, MatchById(matchId));
    var m := svc.matchById(matchId);
    if m.None? then (st1, Stopped(FetchFailed(MatchById(matchId))))
    else if m.value.gameMode != Classic then (st1, Skipped)
    else (Kept(svc, st1, dir, name, matchId, m.value, force), Downloaded)
  }

  /**
   * The body of the loop for a CLASSIC match: write the match file, fetch
   * and write the timeline, and store both in the cache under the match id.
   */
  function Kept(svc: Service, st: Store, dir: string, name: string, matchId: string, m: MatchRecord, force: bool): (r: Store)
    requires dir in st.tree
    ensures dir in r.tree
  {
    var st1 := st.(tree := WriteUnlessPresent(st.tree, dir, MatchFileName(matchId), MatchDoc(m), force));
    var st2 := Sent(st1, TimelineById(matchId));
    var t := TimelineDocOf(svc.timelineById(matchId));
    var st3 := st2.(tree := WriteUnlessPresent(st2.tree, dir, TimelineFileName(matchId), t, force));
    st3.(cache := Remember(st3.cache, name, matchId, CacheEntry(MatchDoc(m), t)))
  }

  /**
   * `save_match_data_for_summoner(save_dir, summoner_name, num_matches, force)`:
   * create the directory, fetch and write the profile (always, whatever
   * `force` says), fetch the match list and run the loop. A failed profile or
   * match-list request stops the call, and so does a profile with an empty
   * puuid, which the client refuses to ask a match list for.
   */
  function Save(svc: Service, st: Store, dir: string, name: string, numMatches: int, force: bool): (r: (Store, Outcome))
    ensures dir in r.0.tree
  {
    var st1 := st.(tree := WithDir(st.tree, dir));
    var st2 := Sent(st1, SummonerByName(name));
    var p := svc.summonerByName(name);
    if p.None? then (st2, Aborted(FetchFailed(SummonerByName(name))))
    else
      var doc := ProfileDoc(p.value);
      var st3 := st2.(memo := st2.memo[name := p.value.puuid],
                      tree := WriteFile(st2.tree, dir, ProfileFileName(name), doc),
                      summonerCache := st2.summonerCache[name := doc]);
      if p.value.puuid == "" then (st3, Aborted(Refused(NoSummonerGiven)))
      else
      var st4 := Sent(st3, MatchList(p.value.puuid));
      var ids := svc.matchList(p.value.puuid);
      if ids.None? then (st4, Aborted(FetchFailed(MatchList(p.value.puuid))))
      else FetchMatches(svc, st4, dir, name, ids.value, 0, numMatches, force)
  }

  /** Keeping a match keeps every directory and every cached bucket well formed. */
  lemma KeptKeepsValid(svc: Service, st: Store, dir: string, name: string, matchId: string, m: MatchRecord, force: bool)
    requires dir in st.tree && ValidStore(st)
    ensures ValidStore(Kept(svc, st, dir, name, matchId, m, force))
  {
  }

  /** One turn keeps every directory and every cached bucket well formed. */
  lemma FetchTurnKeepsValid(svc: Service, st: Store, dir: string, name: string, matchId: string, force: bool)
    requires dir in st.tree
    ensures ValidStore(st) ==> ValidStore(FetchTurn(svc, st, dir, name, matchId, force).0)
  {
    var m := svc.matchById(matchId);
    if ValidStore(st) && m.Some? && m.value.gameMode == Classic {
      KeptKeepsValid(svc, Sent(st, MatchById(matchId)), dir, name, matchId, m.value, force);
    }
  }

  lemma SaveKeepsValid(svc: Service, st: Store, dir: string, name: string, numMatches: int, force: bool)
    requires ValidStore(st)
    ensures ValidStore(Save(svc, st, dir, name, numMatches, force).0)
  {
    var st2 := Sent(st.(tree := WithDir(st.tree, dir)), SummonerByName(name));
    assert ValidStore(st2);
    var p := svc.summonerByName(name);
    if p.Some? {
      var doc := ProfileDoc(p.value);
      var st3 := st2.(memo := st2.memo[name := p.value.puuid],
                      tree := WriteFile(st2.tree, dir, ProfileFileName(name), doc),
                      summonerCache := st2.summonerCache[name := doc]);
      assert ValidStore(st3);
      if p.value.puuid != "" && svc.matchList(p.value.puuid).Some? {
        var st4 := Sent(st3, MatchList(p.value.puuid));
        assert Save(svc, st, dir, name, numMatches, force)
          == FetchMatches(svc, st4, dir, name, svc.matchList(p.value.puuid).value, 0, numMatches, force);
      }
    }
  }

  // ---- __load_match_data_from_directory ----

  /**
   * One file of the listing: the profile is skipped; a match or timeline file
   * that loads is stored under the id its name gives; one that does not load
   * is reported and skipped; any other file is ignored.
   */
  function ScanFile(name: string, acc: (OrderedMap<string, Document>, OrderedMap<string, Document>), file: (string, FileData))
    : (r: (OrderedMap<string, Document>, OrderedMap<string, Document>))
    ensures acc.0.Valid() && acc.1.Valid() ==> r.0.Valid() && r.1.Valid()
  {
    var (filename, data) := file;
    if filename == ProfileFileName(name) then acc
    else
      var matchId := MatchIdOf(filename);
      if IsMatchFile(filename) then
        if data.Stored? then (acc.0.Put(matchId, data.doc), acc.1) else acc
      else if IsTimelineFile(filename) then
        if data.Stored? then (acc.0, acc.1.Put(matchId, data.doc)) else acc
      else acc
  }

  /** The first loop of the loader: `match_data` and `timeline_data` after the given files. */
  function Scan(name: string, files: seq<(string, FileData)>): (r: (OrderedMap<string, Document>, OrderedMap<string, Document>))
    ensures r.0.Valid() && r.1.Valid()
    decreases |files|
  {
    if files == [] then (Empty(), Empty())
    else ScanFile(name, Scan(name, files[..|files| - 1]), files[|files| - 1])
  }

  /**
   * The second loop: each loaded match id, in order, paired with its match
   * and the timeline of the same id; the pairs made before the first id
   * that is missing from either map, and that id (the lookup raises
   * `KeyError`).
   */
  function Pairing(matches: map<string, Document>, timelines: map<string, Document>, ids: seq<string>)
    : (r: (seq<(string, CacheEntry)>, Option<string>))
    decreases |ids|
  {
    if ids == [] then ([], None)
    else if ids[0] !in matches || ids[0] !in timelines then ([], Some(ids[0]))
    else
      var rest := Pairing(matches, timelines, ids[1..]);
      ([(ids[0], CacheEntry(matches[ids[0]], timelines[ids[0]]))] + rest.0, rest.1)
  }

  /** The second loop of the loader keeps its invariant when it pairs the id at position `j`. */
  lemma PairingAdvances(matches: map<string, Document>, timelines: map<string, Document>, ids: seq<string>, j: nat,
                        done: seq<(string, CacheEntry)>, whole: (seq<(string, CacheEntry)>, Option<string>))
    requires j < |ids| && ids[j] in matches && ids[j] in timelines
    requires whole.0 == done + Pairing(matches, timelines, ids[j..]).0
    requires whole.1 == Pairing(matches, timelines, ids[j..]).1
    ensures whole.0 == done + [(ids[j], CacheEntry(matches[ids[j]], timelines[ids[j]]))] + Pairing(matches, timelines, ids[j + 1..]).0
    ensures whole.1 == Pairing(matches, timelines, ids[j + 1..]).1
  {
    assert ids[j..][1..] == ids[j + 1..];
  }

  /** `Pairing` from position `j` on, when it ends there: at the end of the ids, or at a missing id. */
  lemma PairingStops(matches: map<string, Document>, timelines: map<string, Document>, ids: seq<string>, j: nat)
    requires j <= |ids|
    requires j < |ids| ==> ids[j] !in matches || ids[j] !in timelines
    ensures Pairing(matches, timelines, ids[j..]).0 == []
    ensures Pairing(matches, timelines, ids[j..]).1 == if j < |ids| then Some(ids[j]) else None
  {
    if j == |ids| {
      assert ids[j..] == [];
    }
  }

  /** `__load_match_data_from_directory(summoner_name)`; a missing directory is left alone. */
  function Load(st: Store, name: string): (r: (Store, Outcome))
    requires ValidTree(st.tree)
    ensures r.0.tree == st.tree && r.0.requests == st.requests && r.0.memo == st.memo
    ensures r.0.summonerCache == st.summonerCache
    ensures ValidStore(st) ==> ValidStore(r.0)
  {
    if name !in st.tree then (st, Done)
    else Filed(st, name, Scan(name, Listing(st.tree[name])))
  }

  /** The second loop of the loader: the pairs are stored in the cache, up to the first missing timeline. */
  function Filed(st: Store, name: string, scanned: (OrderedMap<string, Document>, OrderedMap<string, Document>)): (r: (Store, Outcome))
    ensures r.0.tree == st.tree && r.0.requests == st.requests && r.0.memo == st.memo
    ensures r.0.summonerCache == st.summonerCache
    ensures ValidStore(st) ==> ValidStore(r.0)
  {
    var paired := Pairing(scanned.0.entries, scanned.1.entries, scanned.0.keys);
    RememberAllKeepsValid(st.cache, name, paired.0);
    (st.(cache := RememberAll(st.cache, name, paired.0)),
     if paired.1.Some? then Aborted(KeyError(paired.1.value)) else Done)
  }

  // ---- The iterators ----

  /**
   * What each iterator does before yielding: fetch when the summoner has no
   * directory, load when it has one but no cache entry, otherwise nothing;
   * then `self.cache[summoner_name]` creates an empty entry if there is none.
   */
  function Prepare(svc: Service, st: Store, name: string): (r: (Store, Outcome))
    requires ValidTree(st.tree)
    ensures r.1.Done? ==> name in r.0.cache
    ensures name in r.0.tree
  {
    var step :=
      if name !in st.tree then Save(svc, st, name, name, DefaultNumMatches, false)
      else if name !in st.cache then Load(st, name)
      else (st, Done);
    Vivified(step, name)
  }

  lemma PrepareKeepsValid(svc: Service, st: Store, name: string)
    requires ValidStore(st)
    ensures ValidStore(Prepare(svc, st, name).0)
  {
    if name !in st.tree {
      SaveKeepsValid(svc, st, name, name, DefaultNumMatches, false);
    }
  }

  /** After a step that did not fail, `self.cache[summoner_name]` creates an empty entry if there is none. */
  function Vivified(step: (Store, Outcome), name: string): (r: (Store, Outcome))
    ensures ValidStore(step.0) ==> ValidStore(r.0)
    ensures r.1 == step.1 && r.0.tree == step.0.tree
    ensures r.1.Done? ==> name in r.0.cache
  {
    if step.1.Aborted? || name in step.0.cache then step
    else (step.0.(cache := step.0.cache[name := Empty()]), Done)
  }

  /** `iterator_on_data`: the cached entries of the summoner, in insertion order. */
  function DataOf(svc: Service, st: Store, name: string): (r: Result<seq<CacheEntry>, Error>)
    requires ValidStore(st)
    ensures r.Failure? <==> Prepare(svc, st, name).1.Aborted?
  {
    PrepareKeepsValid(svc, st, name);
    var (st1, out) := Prepare(svc, st, name);
    if out.Aborted? then Failure(out.error) else Success(st1.cache[name].Values())
  }

  /** The `match` part of each entry, in order. */
  function MatchParts(entries: seq<CacheEntry>): (r: seq<Document>)
    ensures |r| == |entries|
    ensures forall i :: 0 <= i < |r| ==> r[i] == entries[i].matchDoc
  {
    seq(|entries|, i requires 0 <= i < |entries| => entries[i].matchDoc)
  }

  /** The `timeline` part of each entry, in order. */
  function TimelineParts(entries: seq<CacheEntry>): (r: seq<Document>)
    ensures |r| == |entries|
    ensures forall i :: 0 <= i < |r| ==> r[i] == entries[i].timelineDoc
  {
    seq(|entries|, i requires 0 <= i < |entries| => entries[i].timelineDoc)
  }

  /** `iterator_on_match_data`: the `match` part of each entry `iterator_on_data` yields. */
  function MatchDataOf(svc: Service, st: Store, name: string): (r: Result<seq<Document>, Error>)
    requires ValidStore(st)
    ensures r.Failure? <==> DataOf(svc, st, name).Failure?
    ensures r.Failure? ==> r.error == DataOf(svc, st, name).error
    ensures r.Success? ==> r.value == MatchParts(DataOf(svc, st, name).value)
  {
    var data := DataOf(svc, st, name);
    if data.Failure? then Failure(data.error) else Success(MatchParts(data.value))
  }

  /** `iterator_on_match_timeline_data`: the `timeline` part of each entry `iterator_on_data` yields. */
  function TimelineDataOf(svc: Service, st: Store, name: string): (r: Result<seq<Document>, Error>)
    requires ValidStore(st)
    ensures r.Failure? <==> DataOf(svc, st, name).Failure?
    ensures r.Failure? ==> r.error == DataOf(svc, st, name).error
    ensures r.Success? ==> r.value == TimelineParts(DataOf(svc, st, name).value)
  {
    var data := DataOf(svc, st, name);
    if data.Failure? then Failure(data.error) else Success(TimelineParts(data.value))
  }

  // ---- find_player_index_in_data ----

  /**
   * `__load_player_data_from_directory(summoner_name)`: read the profile file
   * and remember it. A missing or unparsable file raises.
   */
  function LoadPlayer(st: Store, name: string): (r: (Store, Result<Document, Error>))
  {
    var file := ProfileFileName(name);
    if !FileExists(st.tree, name, file) then (st, Failure(FileNotFound(name, file)))
    else
      var data := st.tree[name].entries[file];
      if data.Unreadable? then (st, Failure(UnreadableFile(name, file)))
      else (st.(summonerCache := st.summonerCache[name := data.doc]), Success(data.doc))
  }

  /**
   * Where the puuid comes from: the profile cache, else the profile file when
   * the directory exists, else the API (its memo, or a request).
   */
  function PuuidFor(svc: Service, st: Store, name: string): (r: (Store, Result<string, Error>))
  {
    if name in st.summonerCache then
      var p := PuuidOf(st.summonerCache[name]);
      (st, if p.Some? then Success(p.value) else Failure(NotAProfile(name)))
    else if name in st.tree then
      var (st1, doc) := LoadPlayer(st, name);
      if doc.Failure? then (st1, Failure(doc.error))
      else
        var p := PuuidOf(doc.value);
        (st1, if p.Some? then Success(p.value) else Failure(NotAProfile(name)))
    else if name in st.memo then (st, Success(st.memo[name]))
    else
      var st1 := Sent(st, SummonerByName(name));
      var p := svc.summonerByName(name);
      if p.None? then (st1, Failure(FetchFailed(SummonerByName(name))))
      else (st1.(memo := st1.memo[name := p.value.puuid]), Success(p.value.puuid))
  }

  /** `find_player_index_in_data(match_data, summoner_name)`. */
  function Locate(svc: Service, st: Store, doc: Document, name: string): (r: (Store, Result<nat, Error>))
  {
    var (st1, puuid) := PuuidFor(svc, st, name);
    if puuid.Failure? then (st1, Failure(puuid.error))
    else if ParticipantsOf(doc).None? then (st1, Failure(NoParticipants))
    else
      var i := IndexOf(ParticipantsOf(doc).value, puuid.value);
      (st1, if i.Some? then Success(i.value) else Failure(ParticipantNotFound(puuid.value)))
  }

  /** `SummonerDataHandler`. */
  class SummonerDataHandler {
    const api: RiotApiHelper
    const disk: Disk
    /** `self.cache`: summoner to match id to entry. */
    var cache: Cache
    /** `self.summoner_cache`: summoner to profile. */
    var summonerCache: map<string, Document>

    ghost function State(): Store
      reads this, api, disk
    {
      Store(disk.tree, cache, summonerCache, api.requests, api.memo)
    }

    ghost predicate Valid()
      reads this, api, disk
    {
      ValidStore(State())
    }

    constructor (api: RiotApiHelper, disk: Disk)
      requires ValidTree(disk.tree)
      ensures this.api == api && this.disk == disk
      ensures cache == map[] && summonerCache == map[]
      ensures Valid()
    {
      this.api := api;
      this.disk := disk;
      cache := map[];
      summonerCache := map[];
    }

    /** `save_match_data_for_summoner`. */
    method SaveMatchDataForSummoner(saveDir: string, name: string, numMatches: int, force: bool) returns (outcome: Outcome)
      requires Valid()
      modifies this, api, disk
      ensures Valid()
      ensures (State(), outcome) == Save(api.service, old(State()), saveDir, name, numMatches, force)
    {
      disk.MakeDirs(saveDir);
      var profile := api.GetSummonerDataByName(name);
      if profile.None? {
        return Aborted(FetchFailed(SummonerByName(name)));
      }
      disk.Write(saveDir, ProfileFileName(name), ProfileDoc(profile.value));
      summonerCache := summonerCache[name := ProfileDoc(profile.value)];
      var puuid := profile.value.puuid;
      var matchList := api.GetMatchList(puuid);
      if matchList.Failure? {
        return Aborted(Refused(matchList.error));
      }
      if matchList.value.None? {
        return Aborted(FetchFailed(MatchList(puuid)));
      }
      outcome := FetchMatchList(saveDir, name, matchList.value.value, numMatches, force);
    }

    /** The loop of `save_match_data_for_summoner` over `match_list`. */
    method FetchMatchList(saveDir: string, name: string, ids: seq<string>, numMatches: int, force: bool) returns (outcome: Outcome)
      requires saveDir in disk.tree
      modifies this, api, disk
      ensures (State(), outcome) == FetchMatches(api.service, old(State()), saveDir, name, ids, 0, numMatches, force)
    {
      ghost var st := State();
      ghost var whole := FetchMatches(api.service, old(State()), saveDir, name, ids, 0, numMatches, force);
      var downloaded := 0;
      for i := 0 to |ids|
        invariant st == State() && saveDir in st.tree
        invariant FetchMatches(api.service, st, saveDir, name, ids, i, numMatches - downloaded, force) == whole
      {
        if downloaded == numMatches {
          assert NextMatch(api.service, st, saveDir, name, ids, i, 0, force) == (st, Done);
          return Done;
        }
        var turn := FetchStep(saveDir, name, ids, i, numMatches - downloaded, force, whole);
        st := State();
        if turn.Stopped? {
          return Aborted(turn.error);
        }
        downloaded := downloaded + if turn.Downloaded? then 1 else 0;
      }
      return Done;
    }

    /** The turn at position `i` of the loop over `match_list`. */
    method FetchStep(saveDir: string, name: string, ids: seq<string>, i: nat, remaining: int, force: bool,
                     ghost whole: (Store, Outcome)) returns (turn: Turn)
      requires saveDir in disk.tree && i < |ids| && remaining != 0
      requires TakeTurn(api.service, State(), saveDir, name, ids, i, remaining, force) == whole
      modifies this, api, disk
      ensures saveDir in disk.tree
      ensures turn.Stopped? ==> whole == (State(), Aborted(turn.error))
      ensures !turn.Stopped? ==>
        FetchMatches(api.service, State(), saveDir, name, ids, i + 1, if turn.Downloaded? then remaining - 1 else remaining, force) == whole
    {
      turn := FetchMatch(saveDir, name, ids[i], force);
    }

    /** One turn of the loop over `match_list`. */
    method FetchMatch(saveDir: string, name: string, matchId: string, force: bool) returns (turn: Turn)
      requires saveDir in disk.tree
      modifies this, api, disk
      ensures (State(), turn) == FetchTurn(api.service, old(State()), saveDir, name, matchId, force)
    {
      var matchData := api.GetMatchById(matchId);
      if matchData.None? {
        return Stopped(FetchFailed(MatchById(matchId)));
      }
      if matchData.value.gameMode != Classic {
        return Skipped;
      }
      KeepMatch(saveDir, name, matchId, matchData.value, force);
      return Downloaded;
    }

    /** One CLASSIC match: both files, unless present and not forced, then the cache entry. */
    method KeepMatch(saveDir: string, name: string, matchId: string, matchData: MatchRecord, force: bool)
      requires saveDir in disk.tree
      modifies this, api, disk
      ensures State() == Kept(api.service, old(State()), saveDir, name, matchId, matchData, force)
    {
      var matchFile := MatchFileName(matchId);
      var present := disk.Exists(saveDir, matchFile);
      if force || !present {
        disk.Write(saveDir, matchFile, MatchDoc(matchData));
      }
      var timeline := api.GetMatchTimelineById(matchId);
      var timelineDoc := TimelineDocOf(timeline);
      var timelineFile := TimelineFileName(matchId);
      present := disk.Exists(saveDir, timelineFile);
      if force || !present {
        disk.Write(saveDir, timelineFile, timelineDoc);
      }
      cache := Remember(cache, name, matchId, CacheEntry(MatchDoc(matchData), timelineDoc));
    }

    /** `__load_match_data_from_directory`. */
    method LoadMatchDataFromDirectory(name: string) returns (outcome: Outcome)
      requires Valid()
      modifies this
      ensures (State(), outcome) == Load(old(State()), name)
    {
      var isDir := disk.IsDir(name);
      if !isDir {
        return Done;
      }
      var matchData, timelineData := ScanDirectory(name);
      outcome := FileMatches(name, matchData, timelineData);
    }

    /** The first loop of the loader: `match_data` and `timeline_data` from the summoner's files. */
    method ScanDirectory(name: string) returns (matchData: OrderedMap<string, Document>, timelineData: OrderedMap<string, Document>)
      requires name in disk.tree && disk.tree[name].Valid()
      ensures (matchData, timelineData) == Scan(name, Listing(disk.tree[name]))
    {
      var files := disk.ListDir(name);
      matchData, timelineData := Empty(), Empty();
      for i := 0 to |files|
        invariant (matchData, timelineData) == Scan(name, files[..i])
      {
        assert files[..i + 1][..i] == files[..i];
        var (filename, data) := files[i];
        if filename != ProfileFileName(name) {
          var matchId := MatchIdOf(filename);
          if IsMatchFile(filename) {
            if data.Stored? {
              matchData := matchData.Put(matchId, data.doc);
            }
          } else if IsTimelineFile(filename) {
            if data.Stored? {
              timelineData := timelineData.Put(matchId, data.doc);
            }
          }
        }
      }
      assert files[..|files|] == files;
    }

    /** The second loop of the loader: each match with the timeline of its id, into the cache. */
    method FileMatches(name: string, matchData: OrderedMap<string, Document>, timelineData: OrderedMap<string, Document>)
      returns (outcome: Outcome)
      modifies this
      ensures (State(), outcome) == Filed(old(State()), name, (matchData, timelineData))
    {
      ghost var cache0 := cache;
      ghost var done: seq<(string, CacheEntry)> := [];
      var ids := matchData.keys;
      ghost var whole := Pairing(matchData.entries, timelineData.entries, ids);
      ghost var target := Filed(old(State()), name, (matchData, timelineData));
      assert ids[0..] == ids && [] + whole.0 == whole.0;
      for j := 0 to |ids|
        invariant cache == RememberAll(cache0, name, done) && summonerCache == old(summonerCache)
        invariant whole.0 == done + Pairing(matchData.entries, timelineData.entries, ids[j..]).0
        invariant whole.1 == Pairing(matchData.entries, timelineData.entries, ids[j..]).1
      {
        var matchId := ids[j];
        if matchId !in matchData.entries || matchId !in timelineData.entries {
          PairingStops(matchData.entries, timelineData.entries, ids, j);
          assert whole == (done, Some(matchId)) by {
            assert done + [] == done;
          }
          assert target == (State(), Aborted(KeyError(matchId)));
          return Aborted(KeyError(matchId));
        }
        var entry := CacheEntry(matchData.entries[matchId], timelineData.entries[matchId]);
        PairingAdvances(matchData.entries, timelineData.entries, ids, j, done, whole);
        RememberAllSnoc(cache0, name, done, (matchId, entry));
        cache := Remember(cache, name, matchId, entry);
        done := done + [(matchId, entry)];
      }
      PairingStops(matchData.entries, timelineData.entries, ids, |ids|);
      assert whole == (done, None) by {
        assert done + [] == done;
      }
      assert target == (State(), Done);
      return Done;
    }

    /** `__load_player_data_from_directory`. */
    method LoadPlayerDataFromDirectory(name: string) returns (r: Result<Document, Error>)
      modifies this
      ensures (State(), r) == LoadPlayer(old(State()), name)
    {
      var file := ProfileFileName(name);
      var data := disk.Read(name, file);
      if data.None? {
        return Failure(FileNotFound(name, file));
      }
      if data.value.Unreadable? {
        return Failure(UnreadableFile(name, file));
      }
      summonerCache := summonerCache[name := data.value.doc];
      return Success(data.value.doc);
    }

    /** `find_player_index_in_data(match_data, summoner_name)`. */
    method FindPlayerIndexInData(doc: Document, name: string) returns (r: Result<nat, Error>)
      modifies this, api
      ensures (State(), r) == Locate(api.service, old(State()), doc, name)
    {
      var puuid: Option<string>;
      if name in summonerCache {
        puuid := PuuidOf(summonerCache[name]);
      } else {
        var isDir := disk.IsDir(name);
        if isDir {
          var doc := LoadPlayerDataFromDirectory(name);
          if doc.Failure? {
            return Failure(doc.error);
          }
          puuid := PuuidOf(doc.value);
        } else {
          var fetched := api.GetPuuidForSummonerName(name);
          if fetched.None? {
            return Failure(FetchFailed(SummonerByName(name)));
          }
          puuid := fetched;
        }
      }
      if puuid.None? {
        return Failure(NotAProfile(name));
      }
      var participants := ParticipantsOf(doc);
      if participants.None? {
        return Failure(NoParticipants);
      }
      var i := IndexOf(participants.value, puuid.value);
      if i.None? {
        return Failure(ParticipantNotFound(puuid.value));
      }
      return Success(i.value);
    }

    /** The part every iterator runs before yielding. */
    method PrepareSummoner(name: string) returns (outcome: Outcome)
      requires Valid()
      modifies this, api, disk
      ensures Valid()
      ensures (State(), outcome) == Prepare(api.service, old(State()), name)
    {
      var isDir := disk.IsDir(name);
      if !isDir {
        outcome := SaveMatchDataForSummoner(name, name, DefaultNumMatches, false);
        outcome := Vivify(name, outcome);
      } else if name !in cache {
        outcome := LoadMatchDataFromDirectory(name);
        outcome := Vivify(name, outcome);
      } else {
        outcome := Vivify(name, Done);
      }
    }

    /** `self.cache[summoner_name]` read through the `defaultdict`, once the step before it succeeded. */
    method Vivify(name: string, step: Outcome) returns (outcome: Outcome)
      requires Valid()
      modifies this
      ensures Valid()
      ensures (State(), outcome) == Vivified((old(State()), step), name)
    {
      outcome := step;
      if step.Done? && name !in cache {
        cache := cache[name := Empty()];
      }
    }

    /** `iterator_on_data`: every entry the generator yields, in order. */
    method IteratorOnData(name: string) returns (r: Result<seq<CacheEntry>, Error>)
      requires Valid()
      modifies this, api, disk
      ensures Valid()
      ensures State() == Prepare(api.service, old(State()), name).0
      ensures r == DataOf(api.service, old(State()), name)
    {
      var outcome := PrepareSummoner(name);
      if outcome.Aborted? {
        return Failure(outcome.error);
      }
      var entries := Entries(name);
      return Success(entries);
    }

    /** `iterator_on_match_data`: every match document the generator yields, in order. */
    method IteratorOnMatchData(name: string) returns (r: Result<seq<Document>, Error>)
      requires Valid()
      modifies this, api, disk
      ensures Valid()
      ensures State() == Prepare(api.service, old(State()), name).0
      ensures r == MatchDataOf(api.service, old(State()), name)
    {
      var outcome := PrepareSummoner(name);
      if outcome.Aborted? {
        return Failure(outcome.error);
      }
      var docs := MatchDocs(name);
      return Success(docs);
    }

    /** `iterator_on_match_timeline_data`: every timeline document the generator yields, in order. */
    method IteratorOnMatchTimelineData(name: string) returns (r: Result<seq<Document>, Error>)
      requires Valid()
      modifies this, api, disk
      ensures Valid()
      ensures State() == Prepare(api.service, old(State()), name).0
      ensures r == TimelineDataOf(api.service, old(State()), name)
    {
      var outcome := PrepareSummoner(name);
      if outcome.Aborted? {
        return Failure(outcome.error);
      }
      var docs := TimelineDocs(name);
      return Success(docs);
    }

    /** `for match_id, data in self.cache[summoner_name].items(): yield data['match']`. */
    method MatchDocs(name: string) returns (ys: seq<Document>)
      requires name in cache && cache[name].Valid()
      ensures ys == MatchParts(cache[name].Values())
    {
      var bucket := cache[name];
      ys := [];
      for i := 0 to |bucket.keys|
        invariant |ys| == i
        invariant forall k :: 0 <= k < i ==> ys[k] == bucket.Values()[k].matchDoc
      {
        ys := ys + [bucket.entries[bucket.keys[i]].matchDoc];
      }
      assert ys == MatchParts(bucket.Values());
    }

    /** `for match_id, data in self.cache[summoner_name].items(): yield data['timeline']`. */
    method TimelineDocs(name: string) returns (ys: seq<Document>)
      requires name in cache && cache[name].Valid()
      ensures ys == TimelineParts(cache[name].Values())
    {
      var bucket := cache[name];
      ys := [];
      for i := 0 to |bucket.keys|
        invariant |ys| == i
        invariant forall k :: 0 <= k < i ==> ys[k] == bucket.Values()[k].timelineDoc
      {
        ys := ys + [bucket.entries[bucket.keys[i]].timelineDoc];
      }
      assert ys == TimelineParts(bucket.Values());
    }

    /** `for match_id, data in self.cache[summoner_name].items(): yield data`. */
    method Entries(name: string) returns (ys: seq<CacheEntry>)
      requires name in cache && cache[name].Valid()
      ensures ys == cache[name].Values()
    {
      var bucket := cache[name];
      ys := [];
      for i := 0 to |bucket.keys|
        invariant ys == bucket.Values()[..i]
      {
        ys := ys + [bucket.entries[bucket.keys[i]]];
      }
      assert bucket.Values()[..|bucket.keys|] == bucket.Values();
    }
  }
}
