/**
 * What the reading side of the match store promises: the loader reads back
 * what the saver writes, the iterators fetch or load at most once, and the
 * participant locator finds the first position of the summoner's puuid.
 */
module SummonerDataReading {
  import opened Wrappers
  import opened OrderedMaps
  import opened PyBuiltins
  import opened RiotApi
  import opened FileSystem
  import opened MatchFiles
  import opened SummonerDataHandling
  import opened SummonerDataProperties

  // ---- Pairing matches with timelines ----

  /**
   * The second loop of the loader pairs each id, in order, with its match
   * and its timeline, and stops at the first id that lacks either.
   */
  lemma {:induction false} PairingFacts(matches: map<string, Document>, timelines: map<string, Document>, ids: seq<string>)
    ensures var (ps, missing) := Pairing(matches, timelines, ids);
      && |ps| <= |ids|
      && (forall k :: 0 <= k < |ps| ==>
            ids[k] in matches && ids[k] in timelines && ps[k] == (ids[k], CacheEntry(matches[ids[k]], timelines[ids[k]])))
      && (missing.None? <==> |ps| == |ids|)
      && (missing.Some? ==> missing.value == ids[|ps|] && (ids[|ps|] !in matches || ids[|ps|] !in timelines))
    decreases |ids|
  {
    if ids != [] && ids[0] in matches && ids[0] in timelines {
      PairingFacts(matches, timelines, ids[1..]);
      var rest := Pairing(matches, timelines, ids[1..]).0;
      var ps := Pairing(matches, timelines, ids).0;
      assert ps == [(ids[0], CacheEntry(matches[ids[0]], timelines[ids[0]]))] + rest;
      forall k | 0 < k < |ps| ensures ps[k] == rest[k - 1] && ids[k] == ids[1..][k - 1] {
      }
    }
  }

  // ---- The files the saver writes ----

  /**
   * An id whose two files the loader files back under the id itself: no
   * part of it looks like a file-name pattern, it does not end in `match`
   * and it is not `timeline`.
   */
  ghost predicate StorableId(matchId: string) {
    PlainId(matchId) && !EndsWith(matchId, "match") && matchId != "timeline"
  }

  /** The match file and the timeline file of each entry, in the order they are written. */
  function EntryFiles(entries: seq<(string, CacheEntry)>): (r: seq<(string, FileData)>)
    ensures |r| == 2 * |entries|
    decreases |entries|
  {
    if entries == [] then []
    else
      var last := entries[|entries| - 1];
      EntryFiles(entries[..|entries| - 1])
        + [(MatchFileName(last.0), Stored(last.1.matchDoc)), (TimelineFileName(last.0), Stored(last.1.timelineDoc))]
  }

  function MatchPuts(entries: seq<(string, CacheEntry)>): (r: seq<(string, Document)>)
    ensures |r| == |entries|
    ensures forall k :: 0 <= k < |r| ==> r[k] == (entries[k].0, entries[k].1.matchDoc)
  {
    seq(|entries|, k requires 0 <= k < |entries| => (entries[k].0, entries[k].1.matchDoc))
  }

  function TimelinePuts(entries: seq<(string, CacheEntry)>): (r: seq<(string, Document)>)
    ensures |r| == |entries|
    ensures forall k :: 0 <= k < |r| ==> r[k] == (entries[k].0, entries[k].1.timelineDoc)
  {
    seq(|entries|, k requires 0 <= k < |entries| => (entries[k].0, entries[k].1.timelineDoc))
  }

  lemma PutsInit(entries: seq<(string, CacheEntry)>)
    requires entries != []
    ensures var init, last := entries[..|entries| - 1], entries[|entries| - 1];
      && PutAll(Empty(), MatchPuts(entries)) == PutAll(Empty(), MatchPuts(init)).Put(last.0, last.1.matchDoc)
      && PutAll(Empty(), TimelinePuts(entries)) == PutAll(Empty(), TimelinePuts(init)).Put(last.0, last.1.timelineDoc)
  {
    var init := entries[..|entries| - 1];
    assert MatchPuts(entries)[..|entries| - 1] == MatchPuts(init);
    assert TimelinePuts(entries)[..|entries| - 1] == TimelinePuts(init);
  }

  lemma PutsKeys(entries: seq<(string, CacheEntry)>)
    ensures Firsts(MatchPuts(entries)) == Firsts(entries) && Firsts(TimelinePuts(entries)) == Firsts(entries)
  {
  }

  /** Each entry's files are filed back under its id, and none is taken for the profile. */
  ghost predicate Fileable(name: string, entries: seq<(string, CacheEntry)>) {
    forall k :: 0 <= k < |entries| ==>
      && StorableId(entries[k].0)
      && MatchFileName(entries[k].0) != ProfileFileName(name)
      && TimelineFileName(entries[k].0) != ProfileFileName(name)
  }

  /** The first loop of the loader files one entry's match file, then its timeline file. */
  lemma ScanEntry(name: string, acc: (OrderedMap<string, Document>, OrderedMap<string, Document>), e: (string, CacheEntry))
    requires StorableId(e.0)
    requires MatchFileName(e.0) != ProfileFileName(name) && TimelineFileName(e.0) != ProfileFileName(name)
    ensures ScanFile(name, ScanFile(name, acc, (MatchFileName(e.0), Stored(e.1.matchDoc))), (TimelineFileName(e.0), Stored(e.1.timelineDoc)))
              == (acc.0.Put(e.0, e.1.matchDoc), acc.1.Put(e.0, e.1.timelineDoc))
  {
    MatchFileRoundTrip(e.0);
    MatchFileClassified(e.0);
    TimelineFileRoundTrip(e.0);
    TimelineFileClassified(e.0);
  }

  /** Splitting the listing of a directory before its last two files. */
  lemma WrittenSplit(profile: (string, FileData), entries: seq<(string, CacheEntry)>)
    requires entries != []
    ensures var init, last := entries[..|entries| - 1], entries[|entries| - 1];
      var front := [profile] + EntryFiles(init);
      var files := [profile] + EntryFiles(entries);
      && files[..|files| - 1] == front + [(MatchFileName(last.0), Stored(last.1.matchDoc))]
      && files[..|files| - 2] == front
      && files[|files| - 1] == (TimelineFileName(last.0), Stored(last.1.timelineDoc))
      && files[|files| - 2] == (MatchFileName(last.0), Stored(last.1.matchDoc))
  {
    var init, last := entries[..|entries| - 1], entries[|entries| - 1];
    var pair := [(MatchFileName(last.0), Stored(last.1.matchDoc)), (TimelineFileName(last.0), Stored(last.1.timelineDoc))];
    AppendAssoc([profile], EntryFiles(init), pair);
  }

  /**
   * The first loop of the loader over a directory the saver wrote (the
   * profile, then each entry's match and timeline files) skips the profile
   * and inserts each entry's match and timeline, in order, under its id.
   */
  lemma {:induction false} ScanOfWritten(name: string, profile: FileData, entries: seq<(string, CacheEntry)>)
    requires Fileable(name, entries)
    ensures Scan(name, [(ProfileFileName(name), profile)] + EntryFiles(entries))
              == (PutAll(Empty(), MatchPuts(entries)), PutAll(Empty(), TimelinePuts(entries)))
    decreases |entries|
  {
    var p := (ProfileFileName(name), profile);
    var files := [p] + EntryFiles(entries);
    if entries == [] {
      assert files[..0] == [];
      assert MatchPuts(entries) == [] && TimelinePuts(entries) == [];
    } else {
      var init, last := entries[..|entries| - 1], entries[|entries| - 1];
      WrittenSplit(p, entries);
      ScanOfWritten(name, profile, init);
      var front := files[..|files| - 1];
      assert front[..|front| - 1] == files[..|files| - 2] && front[|front| - 1] == files[|files| - 2];
      assert Scan(name, files) == ScanFile(name, Scan(name, front), files[|files| - 1]);
      assert Scan(name, front) == ScanFile(name, Scan(name, files[..|files| - 2]), files[|files| - 2]);
      ScanEntry(name, Scan(name, files[..|files| - 2]), last);
      PutsInit(entries);
    }
  }

  /** The maps the first loop fills from a written directory: the ids in order, each with its documents. */
  lemma MapsOfWritten(entries: seq<(string, CacheEntry)>)
    requires DistinctKeys(entries)
    ensures var matches, timelines := PutAll(Empty(), MatchPuts(entries)), PutAll(Empty(), TimelinePuts(entries));
      && matches.keys == Firsts(entries)
      && forall k :: 0 <= k < |entries| ==>
           && entries[k].0 in matches.entries && matches.entries[entries[k].0] == entries[k].1.matchDoc
           && entries[k].0 in timelines.entries && timelines.entries[entries[k].0] == entries[k].1.timelineDoc
  {
    KeysOfWritten(entries);
    MatchesOfWritten(entries);
    TimelinesOfWritten(entries);
  }

  lemma KeysOfWritten(entries: seq<(string, CacheEntry)>)
    requires DistinctKeys(entries)
    ensures PutAll(Empty(), MatchPuts(entries)).keys == Firsts(entries)
  {
    DistinctKeysOfFirsts(entries);
    PutsKeys(entries);
    PutAllAppends(Empty(), MatchPuts(entries));
  }

  lemma MatchesOfWritten(entries: seq<(string, CacheEntry)>)
    requires DistinctKeys(entries)
    ensures var matches := PutAll(Empty(), MatchPuts(entries));
      forall k :: 0 <= k < |entries| ==> entries[k].0 in matches.entries && matches.entries[entries[k].0] == entries[k].1.matchDoc
  {
    PutAllLookup(Empty(), MatchPuts(entries));
  }

  lemma TimelinesOfWritten(entries: seq<(string, CacheEntry)>)
    requires DistinctKeys(entries)
    ensures var timelines := PutAll(Empty(), TimelinePuts(entries));
      forall k :: 0 <= k < |entries| ==> entries[k].0 in timelines.entries && timelines.entries[entries[k].0] == entries[k].1.timelineDoc
  {
    PutAllLookup(Empty(), TimelinePuts(entries));
  }

  /** The second loop pairs every entry back up when each id has both of its documents. */
  lemma PairingOfFilled(matches: map<string, Document>, timelines: map<string, Document>, entries: seq<(string, CacheEntry)>)
    requires forall k :: 0 <= k < |entries| ==>
      && entries[k].0 in matches && matches[entries[k].0] == entries[k].1.matchDoc
      && entries[k].0 in timelines && timelines[entries[k].0] == entries[k].1.timelineDoc
    ensures Pairing(matches, timelines, Firsts(entries)) == (entries, None)
  {
    var ids := Firsts(entries);
    PairingFacts(matches, timelines, ids);
    var ps := Pairing(matches, timelines, ids).0;
    forall k | 0 <= k < |entries| ensures ps[k] == entries[k] {
      assert ids[k] == entries[k].0;
    }
    assert ps == entries;
  }

  /**
   * The loader reads back what the saver writes: over a directory holding
   * the profile, then each entry's match and timeline files, it stores
   * exactly those entries for the summoner, in order, and completes.
   */
  lemma LoadReadsBackSaved(st: Store, name: string, profile: FileData, entries: seq<(string, CacheEntry)>)
    requires ValidTree(st.tree) && name in st.tree
    requires Listing(st.tree[name]) == [(ProfileFileName(name), profile)] + EntryFiles(entries)
    requires Fileable(name, entries) && DistinctKeys(entries)
    ensures Load(st, name) == (st.(cache := RememberAll(st.cache, name, entries)), Done)
  {
    ScanOfWritten(name, profile, entries);
    MapsOfWritten(entries);
    PairingOfFilled(PutAll(Empty(), MatchPuts(entries)).entries, PutAll(Empty(), TimelinePuts(entries)).entries, entries);
  }

  // ---- The iterators ----

  /**
   * A summoner with a directory is never fetched: the iterators neither send
   * a request nor write a file, and a summoner already in the cache is left
   * exactly as it is.
   */
  lemma PrepareWithDirectory(svc: Service, st: Store, name: string)
    requires ValidTree(st.tree) && name in st.tree
    ensures var r := Prepare(svc, st, name);
      && r.0.tree == st.tree && r.0.requests == st.requests
      && r.0.memo == st.memo && r.0.summonerCache == st.summonerCache
      && (name in st.cache ==> r == (st, Done))
  {
  }

  /** Once an iterator has prepared a summoner, the next one fetches and loads nothing. */
  lemma PrepareAgain(svc: Service, st: Store, name: string)
    requires ValidStore(st)
    ensures var r := Prepare(svc, st, name);
      && ValidStore(r.0)
      && (r.1.Done? ==> Prepare(svc, r.0, name) == (r.0, Done))
  {
    PrepareKeepsValid(svc, st, name);
  }

  /** `iterator_on_data` on a cached summoner with a directory yields its cached entries, in insertion order. */
  lemma DataOfCached(svc: Service, st: Store, name: string)
    requires ValidStore(st) && name in st.tree && name in st.cache
    ensures DataOf(svc, st, name) == Success(st.cache[name].Values())
  {
  }

  /**
   * `iterator_on_data` on a summoner that is not cached but has a directory
   * the saver wrote yields exactly the saved entries, in the order they were
   * written.
   */
  lemma DataOfLoaded(svc: Service, st: Store, name: string, profile: FileData, entries: seq<(string, CacheEntry)>)
    requires ValidStore(st) && name in st.tree && name !in st.cache
    requires Listing(st.tree[name]) == [(ProfileFileName(name), profile)] + EntryFiles(entries)
    requires Fileable(name, entries) && DistinctKeys(entries)
    ensures DataOf(svc, st, name) == Success(Seconds(entries))
  {
    var st1 := st.(cache := RememberAll(st.cache, name, entries));
    LoadReadsBackSaved(st, name, profile, entries);
    assert Prepare(svc, st, name) == Vivified((st1, Done), name);
    RememberAllBucket(st.cache, name, entries, name);
    var b := PutAll(Empty(), entries);
    var v := Vivified((st1, Done), name).0;
    assert v.cache[name] == b;
    DistinctKeysOfFirsts(entries);
    PutAllAppends(Empty(), entries);
    assert b.Values() == Seconds(entries);
    assert DataOf(svc, st, name) == Success(v.cache[name].Values());
  }

  /**
   * `iterator_on_data` on a summoner with neither a directory nor a cache
   * entry fetches it (at most `DefaultNumMatches` CLASSIC matches, without
   * `force`) and yields the downloads, in the order of the match list; a
   * failed request makes it fail.
   */
  lemma DataOfFetched(svc: Service, st: Store, name: string)
    requires ValidStore(st) && name !in st.tree && name !in st.cache
    requires svc.summonerByName(name).Some? && ListFor(svc, svc.summonerByName(name).value).Some?
    requires Distinct(ListFor(svc, svc.summonerByName(name).value).value)
    ensures var d := Downloads(svc, ListFor(svc, svc.summonerByName(name).value).value, 0, DefaultNumMatches);
      DataOf(svc, st, name) == if d.1.Some? then Failure(FetchFailed(MatchById(d.1.value))) else Success(Seconds(d.0))
  {
    var ids := ListFor(svc, svc.summonerByName(name).value).value;
    var d := Downloads(svc, ids, 0, DefaultNumMatches);
    var saved := Save(svc, st, name, name, DefaultNumMatches, false);
    assert Prepare(svc, st, name) == Vivified(saved, name);
    SaveCache(svc, st, name, name, DefaultNumMatches, false);
    if d.1.None? {
      RememberAllBucket(st.cache, name, d.0, name);
      var b := PutAll(Empty(), d.0);
      var v := Vivified(saved, name).0;
      assert v.cache[name] == b;
      DownloadsDistinct(svc, ids, 0, DefaultNumMatches);
      PutAllAppends(Empty(), d.0);
      assert b.Values() == Seconds(d.0);
      assert DataOf(svc, st, name) == Success(v.cache[name].Values());
    }
  }

  // ---- find_player_index_in_data ----

  /**
   * A puuid found once is found again, from the same store, without a
   * request: the profile read from disk is cached and a fetched puuid is
   * memoised.
   */
  lemma PuuidForAgain(svc: Service, st: Store, name: string)
    ensures var r := PuuidFor(svc, st, name);
      r.1.Success? ==> PuuidFor(svc, r.0, name) == r
  {
  }

  /**
   * Only a summoner known neither from the profile cache, nor from a
   * directory, nor from the memo costs a request; no lookup writes a file.
   */
  lemma PuuidForRequests(svc: Service, st: Store, name: string)
    ensures var r := PuuidFor(svc, st, name);
      && r.0.tree == st.tree && r.0.cache == st.cache
      && r.0.requests == if name in st.summonerCache || name in st.tree || name in st.memo then st.requests
                         else st.requests + [SummonerByName(name)]
  {
  }

  /**
   * `find_player_index_in_data` answers the first position of the
   * summoner's puuid among the participants of the match or timeline
   * document, and fails when the puuid cannot be found out, when the
   * document lists no participants, or when the puuid is not among them.
   */
  lemma LocateFinds(svc: Service, st: Store, doc: Document, name: string)
    ensures var (st1, r) := Locate(svc, st, doc, name);
      var (st0, puuid) := PuuidFor(svc, st, name);
      var listed := doc.MatchDoc? || doc.TimelineDoc?;
      var ps := if doc.MatchDoc? then doc.matchRecord.participants else if doc.TimelineDoc? then doc.timeline.participants else [];
      && st1 == st0
      && (r.Success? <==> puuid.Success? && listed && puuid.value in ps)
      && (r.Success? ==>
            && r.value < |ps| && ps[r.value] == puuid.value
            && forall j :: 0 <= j < r.value ==> ps[j] != puuid.value)
      && (r.Failure? ==>
            r.error == if puuid.Failure? then puuid.error
                       else if !listed then NoParticipants
                       else ParticipantNotFound(puuid.value))
  {
  }
}
