/**
 * What the match store promises, proved about the functions that specify
 * its operations: the fetch loop against a reference list of downloads,
 * the files it writes, the iterators' fetch-or-load-or-reuse choice, the
 * loader and the participant locator.
 */
module SummonerDataProperties {
  import opened Wrappers
  import opened OrderedMaps
  import opened PyBuiltins
  import opened RiotApi
  import opened FileSystem
  import opened MatchFiles
  import opened SummonerDataHandling

  // ---- The downloads of the fetch loop ----

  /** The entry the loop stores for a CLASSIC match: the match, and its timeline or `null`. */
  function EntryOf(svc: Service, matchId: string, m: MatchRecord): CacheEntry {
    CacheEntry(MatchDoc(m), TimelineDocOf(svc.timelineById(matchId)))
  }

  /**
   * What the loop over `match_list` keeps, from position `i` on, as a
   * reference list: each CLASSIC match with its entry, in `match_list`
   * order, until `remaining` matches are kept or the ids run out; and the id
   * whose match request failed, when the loop stopped there.
   */
  function Downloads(svc: Service, ids: seq<string>, i: nat, remaining: int): (seq<(string, CacheEntry)>, Option<string>)
    requires i <= |ids|
    decreases |ids| - i, 1
  {
    if i == |ids| || remaining == 0 then ([], None) else DownloadAt(svc, ids, i, remaining)
  }

  /** The turn at position `i` of `Downloads`. */
  function DownloadAt(svc: Service, ids: seq<string>, i: nat, remaining: int): (seq<(string, CacheEntry)>, Option<string>)
    requires i < |ids|
    decreases |ids| - i, 0
  {
    var m := svc.matchById(ids[i]);
    if m.None? then ([], Some(ids[i]))
    else if m.value.gameMode != Classic then Downloads(svc, ids, i + 1, remaining)
    else
      var rest := Downloads(svc, ids, i + 1, remaining - 1);
      ([(ids[i], EntryOf(svc, ids[i], m.value))] + rest.0, rest.1)
  }

  /**
   * At most `remaining` matches are kept (when it is not negative), and at
   * most one per id left in the list.
   */
  lemma {:induction false} DownloadsBound(svc: Service, ids: seq<string>, i: nat, remaining: int)
    requires i <= |ids|
    ensures 0 <= remaining ==> |Downloads(svc, ids, i, remaining).0| <= remaining
    ensures |Downloads(svc, ids, i, remaining).0| <= |ids| - i
    decreases |ids| - i
  {
    if i < |ids| && remaining != 0 && svc.matchById(ids[i]).Some? {
      if svc.matchById(ids[i]).value.gameMode != Classic {
        DownloadsBound(svc, ids, i + 1, remaining);
      } else {
        DownloadsBound(svc, ids, i + 1, remaining - 1);
      }
    }
  }

  /**
   * Every kept match comes from a later position of the list, was fetched,
   * is CLASSIC and is stored with its own match and timeline; the id the loop
   * stopped at is one whose match request failed.
   */
  lemma {:induction false} DownloadsAreClassic(svc: Service, ids: seq<string>, i: nat, remaining: int)
    requires i <= |ids|
    ensures var d := Downloads(svc, ids, i, remaining).0;
      forall k :: 0 <= k < |d| ==>
        && d[k].0 in ids[i..]
        && svc.matchById(d[k].0).Some?
        && svc.matchById(d[k].0).value.gameMode == Classic
        && d[k].1 == EntryOf(svc, d[k].0, svc.matchById(d[k].0).value)
    ensures var failed := Downloads(svc, ids, i, remaining).1;
      failed.Some? ==> failed.value in ids[i..] && svc.matchById(failed.value).None?
    decreases |ids| - i
  {
    if i < |ids| && remaining != 0 && svc.matchById(ids[i]).Some? {
      assert ids[i..] == [ids[i]] + ids[i + 1..];
      if svc.matchById(ids[i]).value.gameMode != Classic {
        DownloadsAreClassic(svc, ids, i + 1, remaining);
      } else {
        DownloadsAreClassic(svc, ids, i + 1, remaining - 1);
      }
    }
  }

  /** The ids of the fetched CLASSIC matches of a list, in order. */
  function ClassicIds(svc: Service, ids: seq<string>): seq<string>
    decreases |ids|
  {
    if ids == [] then []
    else
      var m := svc.matchById(ids[0]);
      (if m.Some? && m.value.gameMode == Classic then [ids[0]] else []) + ClassicIds(svc, ids[1..])
  }

  /**
   * When every match request succeeds, the loop downloads the first
   * `remaining` CLASSIC matches of the list (all of them when fewer, or when
   * `remaining` is negative and never reaches 0) and does not stop early.
   */
  lemma {:induction false} DownloadsAreFirstClassics(svc: Service, ids: seq<string>, i: nat, remaining: int)
    requires i <= |ids|
    requires forall j :: i <= j < |ids| ==> svc.matchById(ids[j]).Some?
    ensures var c := ClassicIds(svc, ids[i..]);
      Firsts(Downloads(svc, ids, i, remaining).0) == if 0 <= remaining < |c| then c[..remaining] else c
    ensures Downloads(svc, ids, i, remaining).1 == None
    decreases |ids| - i
  {
    var c := ClassicIds(svc, ids[i..]);
    if i == |ids| {
      assert ids[i..] == [];
    } else {
      assert ids[i..][0] == ids[i] && ids[i..][1..] == ids[i + 1..];
      var c1 := ClassicIds(svc, ids[i + 1..]);
      if remaining == 0 {
        assert Downloads(svc, ids, i, remaining).0 == [];
      } else if svc.matchById(ids[i]).value.gameMode != Classic {
        DownloadsSkip(svc, ids, i, remaining);
        DownloadsAreFirstClassics(svc, ids, i + 1, remaining);
        assert c == [] + c1;
      } else {
        DownloadsKeep(svc, ids, i, remaining);
        DownloadsAreFirstClassics(svc, ids, i + 1, remaining - 1);
        var x := (ids[i], EntryOf(svc, ids[i], svc.matchById(ids[i]).value));
        FirstsCons(x, Downloads(svc, ids, i + 1, remaining - 1).0);
        assert c == [ids[i]] + c1;
        if 0 <= remaining < |c| {
          assert c[..remaining] == [ids[i]] + c1[..remaining - 1];
        }
      }
    }
  }

  // ---- The fetch loop against its downloads ----

  /**
   * Two conditional writes into one directory: only that directory changes,
   * every file that was there stays (with its content unless `force`), and
   * both files are there afterwards.
   */
  lemma TwoWritesEffect(tree: Tree, dir: string, file1: string, doc1: Document, file2: string, doc2: Document, force: bool)
    requires dir in tree
    ensures var r := WriteUnlessPresent(WriteUnlessPresent(tree, dir, file1, doc1, force), dir, file2, doc2, force);
      && r == tree[dir := r[dir]]
      && file1 in r[dir].entries && file2 in r[dir].entries
      && (forall f :: f in tree[dir].entries ==> f in r[dir].entries)
      && (!force ==> forall f :: f in tree[dir].entries ==> r[dir].entries[f] == tree[dir].entries[f])
  {
    var tree1 := WriteUnlessPresent(tree, dir, file1, doc1, force);
    var r := WriteUnlessPresent(tree1, dir, file2, doc2, force);
    WriteUnlessPresentEffect(tree, dir, file1, doc1, force);
    WriteUnlessPresentEffect(tree1, dir, file2, doc2, force);
    UpdateTwice(tree, dir, tree1[dir], r[dir]);
  }

  /**
   * Keeping a match writes its two files, logs the timeline request and
   * remembers the match with its entry; the profiles and the memo stay.
   */
  lemma KeptEffect(svc: Service, st: Store, dir: string, name: string, matchId: string, m: MatchRecord, force: bool)
    requires dir in st.tree
    ensures var r := Kept(svc, st, dir, name, matchId, m, force);
      && r.summonerCache == st.summonerCache && r.memo == st.memo
      && r.cache == Remember(st.cache, name, matchId, EntryOf(svc, matchId, m))
      && r.tree == WriteUnlessPresent(WriteUnlessPresent(st.tree, dir, MatchFileName(matchId), MatchDoc(m), force),
                                      dir, TimelineFileName(matchId), TimelineDocOf(svc.timelineById(matchId)), force)
  {
  }

  /**
   * One turn of the loop: a failed request and a skipped match only log the
   * request; a kept match has the effect of `Kept`.
   */
  lemma TurnEffect(svc: Service, st: Store, dir: string, name: string, matchId: string, force: bool)
    requires dir in st.tree
    ensures var (r, turn) := FetchTurn(svc, st, dir, name, matchId, force);
      var m := svc.matchById(matchId);
      && turn == (if m.None? then Stopped(FetchFailed(MatchById(matchId)))
                  else if m.value.gameMode != Classic then Skipped else Downloaded)
      && (turn.Downloaded? ==> r == Kept(svc, Sent(st, MatchById(matchId)), dir, name, matchId, m.value, force))
      && (!turn.Downloaded? ==> r == Sent(st, MatchById(matchId)))
  {
  }

  /** Where the loop ends: at the end of the list, once no match remains to download, or at a failed request. */
  lemma LoopEnds(svc: Service, st: Store, dir: string, name: string, ids: seq<string>, i: nat, remaining: int, force: bool)
    requires dir in st.tree && i <= |ids|
    ensures i == |ids| || remaining == 0 ==> FetchMatches(svc, st, dir, name, ids, i, remaining, force) == (st, Done)
    ensures i < |ids| && remaining != 0 && svc.matchById(ids[i]).None? ==>
      FetchMatches(svc, st, dir, name, ids, i, remaining, force)
        == (Sent(st, MatchById(ids[i])), Aborted(FetchFailed(MatchById(ids[i]))))
  {
    if i < |ids| && remaining != 0 {
      assert NextMatch(svc, st, dir, name, ids, i, remaining, force) == TakeTurn(svc, st, dir, name, ids, i, remaining, force);
    }
  }

  /** A turn that skips a match that is not CLASSIC only logs the request, and the loop goes on. */
  lemma SkipStep(svc: Service, st: Store, dir: string, name: string, ids: seq<string>, i: nat, remaining: int, force: bool)
    requires dir in st.tree && i < |ids| && remaining != 0
    requires svc.matchById(ids[i]).Some? && svc.matchById(ids[i]).value.gameMode != Classic
    ensures FetchMatches(svc, st, dir, name, ids, i, remaining, force)
              == FetchMatches(svc, Sent(st, MatchById(ids[i])), dir, name, ids, i + 1, remaining, force)
  {
    assert NextMatch(svc, st, dir, name, ids, i, remaining, force) == TakeTurn(svc, st, dir, name, ids, i, remaining, force);
  }

  /**
   * A turn that keeps a CLASSIC match: the loop goes on from the next
   * position, with one match fewer to download, from the store `st1` the
   * turn leaves. `st1` differs from `st` in the request log, in the cache
   * entry it gains and in the two files of the match.
   */
  lemma KeepStep(svc: Service, st: Store, dir: string, name: string, ids: seq<string>, i: nat, remaining: int, force: bool)
    returns (st1: Store)
    requires dir in st.tree && i < |ids| && remaining != 0
    requires svc.matchById(ids[i]).Some? && svc.matchById(ids[i]).value.gameMode == Classic
    ensures dir in st1.tree
    ensures FetchMatches(svc, st, dir, name, ids, i, remaining, force)
              == FetchMatches(svc, st1, dir, name, ids, i + 1, remaining - 1, force)
    ensures st1.summonerCache == st.summonerCache && st1.memo == st.memo
    ensures st1.cache == Remember(st.cache, name, ids[i], EntryOf(svc, ids[i], svc.matchById(ids[i]).value))
  {
    var m := svc.matchById(ids[i]).value;
    assert NextMatch(svc, st, dir, name, ids, i, remaining, force) == TakeTurn(svc, st, dir, name, ids, i, remaining, force);
    var sent := Sent(st, MatchById(ids[i]));
    st1 := Kept(svc, sent, dir, name, ids[i], m, force);
    KeptEffect(svc, sent, dir, name, ids[i], m, force);
  }

  /**
   * The same turn seen from the disk: only the summoner's directory changes,
   * its files stay (with their content unless `force`), and the match's two
   * files are there afterwards.
   */
  lemma KeepStepFiles(svc: Service, st: Store, dir: string, name: string, ids: seq<string>, i: nat, remaining: int, force: bool)
    returns (st1: Store)
    requires dir in st.tree && i < |ids| && remaining != 0
    requires svc.matchById(ids[i]).Some? && svc.matchById(ids[i]).value.gameMode == Classic
    ensures dir in st1.tree
    ensures FetchMatches(svc, st, dir, name, ids, i, remaining, force)
              == FetchMatches(svc, st1, dir, name, ids, i + 1, remaining - 1, force)
    ensures st1.tree == st.tree[dir := st1.tree[dir]]
    ensures forall f :: f in st.tree[dir].entries ==> f in st1.tree[dir].entries
    ensures !force ==> forall f :: f in st.tree[dir].entries ==> st1.tree[dir].entries[f] == st.tree[dir].entries[f]
    ensures MatchFileName(ids[i]) in st1.tree[dir].entries && TimelineFileName(ids[i]) in st1.tree[dir].entries
  {
    var m := svc.matchById(ids[i]).value;
    assert NextMatch(svc, st, dir, name, ids, i, remaining, force) == TakeTurn(svc, st, dir, name, ids, i, remaining, force);
    var sent := Sent(st, MatchById(ids[i]));
    st1 := Kept(svc, sent, dir, name, ids[i], m, force);
    KeptEffect(svc, sent, dir, name, ids[i], m, force);
    TwoWritesEffect(sent.tree, dir, MatchFileName(ids[i]), MatchDoc(m),
                    TimelineFileName(ids[i]), TimelineDocOf(svc.timelineById(ids[i])), force);
  }

  /** `Downloads` at a CLASSIC match: the match's entry, then the downloads after it. */
  lemma DownloadsKeep(svc: Service, ids: seq<string>, i: nat, remaining: int)
    requires i < |ids| && remaining != 0
    requires svc.matchById(ids[i]).Some? && svc.matchById(ids[i]).value.gameMode == Classic
    ensures Downloads(svc, ids, i, remaining).0
              == [(ids[i], EntryOf(svc, ids[i], svc.matchById(ids[i]).value))] + Downloads(svc, ids, i + 1, remaining - 1).0
    ensures Downloads(svc, ids, i, remaining).1 == Downloads(svc, ids, i + 1, remaining - 1).1
  {
  }

  /** `Downloads` at a match that is not CLASSIC: the downloads after it. */
  lemma DownloadsSkip(svc: Service, ids: seq<string>, i: nat, remaining: int)
    requires i < |ids| && remaining != 0
    requires svc.matchById(ids[i]).Some? && svc.matchById(ids[i]).value.gameMode != Classic
    ensures Downloads(svc, ids, i, remaining) == Downloads(svc, ids, i + 1, remaining)
  {
  }

  /** Remembering a list is remembering its first pair, then the rest. */
  lemma RememberAllFirst(cache: Cache, name: string, put: (string, CacheEntry), puts: seq<(string, CacheEntry)>)
    ensures RememberAll(cache, name, [put] + puts) == RememberAll(Remember(cache, name, put.0, put.1), name, puts)
  {
    assert ([put] + puts)[1..] == puts;
  }

  /**
   * The loop stores exactly its downloads in the cache, in order, and leaves
   * every other summoner's entries alone.
   */
  lemma {:induction false} FetchMatchesCache(svc: Service, st: Store, dir: string, name: string, ids: seq<string>, i: nat, remaining: int, force: bool)
    requires dir in st.tree && i <= |ids|
    ensures FetchMatches(svc, st, dir, name, ids, i, remaining, force).0.cache
              == RememberAll(st.cache, name, Downloads(svc, ids, i, remaining).0)
    decreases |ids| - i
  {
    if i == |ids| || remaining == 0 || svc.matchById(ids[i]).None? {
      LoopEnds(svc, st, dir, name, ids, i, remaining, force);
    } else if svc.matchById(ids[i]).value.gameMode == Classic {
      var st1 := KeepStep(svc, st, dir, name, ids, i, remaining, force);
      var kept := (ids[i], EntryOf(svc, ids[i], svc.matchById(ids[i]).value));
      DownloadsKeep(svc, ids, i, remaining);
      RememberAllFirst(st.cache, name, kept, Downloads(svc, ids, i + 1, remaining - 1).0);
      FetchMatchesCache(svc, st1, dir, name, ids, i + 1, remaining - 1, force);
    } else {
      SkipStep(svc, st, dir, name, ids, i, remaining, force);
      FetchMatchesCache(svc, Sent(st, MatchById(ids[i])), dir, name, ids, i + 1, remaining, force);
    }
  }


  /**
   * The loop ends with the failed request of the id it stopped at, if any,
   * and otherwise completes; the profiles and the memo stay as they were.
   */
  lemma {:induction false} FetchMatchesOutcome(svc: Service, st: Store, dir: string, name: string, ids: seq<string>, i: nat, remaining: int, force: bool)
    requires dir in st.tree && i <= |ids|
    ensures var r := FetchMatches(svc, st, dir, name, ids, i, remaining, force);
      var failed := Downloads(svc, ids, i, remaining).1;
      && r.1 == (if failed.Some? then Aborted(FetchFailed(MatchById(failed.value))) else Done)
      && r.0.summonerCache == st.summonerCache && r.0.memo == st.memo
    decreases |ids| - i
  {
    if i == |ids| || remaining == 0 || svc.matchById(ids[i]).None? {
      LoopEnds(svc, st, dir, name, ids, i, remaining, force);
    } else if svc.matchById(ids[i]).value.gameMode == Classic {
      var st1 := KeepStep(svc, st, dir, name, ids, i, remaining, force);
      DownloadsKeep(svc, ids, i, remaining);
      FetchMatchesOutcome(svc, st1, dir, name, ids, i + 1, remaining - 1, force);
    } else {
      SkipStep(svc, st, dir, name, ids, i, remaining, force);
      DownloadsSkip(svc, ids, i, remaining);
      FetchMatchesOutcome(svc, Sent(st, MatchById(ids[i])), dir, name, ids, i + 1, remaining, force);
    }
  }

  /**
   * The loop writes only into the summoner's directory; every file that was
   * there stays, and keeps its content unless `force` is set.
   */
  lemma {:induction false} FetchMatchesTree(svc: Service, st: Store, dir: string, name: string, ids: seq<string>, i: nat, remaining: int, force: bool)
    requires dir in st.tree && i <= |ids|
    ensures var r := FetchMatches(svc, st, dir, name, ids, i, remaining, force).0.tree;
      && r == st.tree[dir := r[dir]]
      && (forall f :: f in st.tree[dir].entries ==> f in r[dir].entries)
      && (!force ==> forall f :: f in st.tree[dir].entries ==> r[dir].entries[f] == st.tree[dir].entries[f])
    decreases |ids| - i
  {
    if i == |ids| || remaining == 0 || svc.matchById(ids[i]).None? {
      LoopEnds(svc, st, dir, name, ids, i, remaining, force);
    } else if svc.matchById(ids[i]).value.gameMode == Classic {
      var st1 := KeepStepFiles(svc, st, dir, name, ids, i, remaining, force);
      FetchMatchesTree(svc, st1, dir, name, ids, i + 1, remaining - 1, force);
      UpdateTwice(st.tree, dir, st1.tree[dir], FetchMatches(svc, st1, dir, name, ids, i + 1, remaining - 1, force).0.tree[dir]);
    } else {
      SkipStep(svc, st, dir, name, ids, i, remaining, force);
      FetchMatchesTree(svc, Sent(st, MatchById(ids[i])), dir, name, ids, i + 1, remaining, force);
    }
  }

  /** Both files of every downloaded match are in the summoner's directory when the loop ends. */
  lemma {:induction false} FetchMatchesWritesDownloads(svc: Service, st: Store, dir: string, name: string, ids: seq<string>, i: nat, remaining: int, force: bool)
    requires dir in st.tree && i <= |ids|
    ensures var r := FetchMatches(svc, st, dir, name, ids, i, remaining, force).0.tree;
      var d := Downloads(svc, ids, i, remaining).0;
      forall k :: 0 <= k < |d| ==> MatchFileName(d[k].0) in r[dir].entries && TimelineFileName(d[k].0) in r[dir].entries
    decreases |ids| - i
  {
    if i == |ids| || remaining == 0 || svc.matchById(ids[i]).None? {
      LoopEnds(svc, st, dir, name, ids, i, remaining, force);
    } else if svc.matchById(ids[i]).value.gameMode == Classic {
      var st1 := KeepStepFiles(svc, st, dir, name, ids, i, remaining, force);
      DownloadsKeep(svc, ids, i, remaining);
      FetchMatchesTree(svc, st1, dir, name, ids, i + 1, remaining - 1, force);
      FetchMatchesWritesDownloads(svc, st1, dir, name, ids, i + 1, remaining - 1, force);
    } else {
      SkipStep(svc, st, dir, name, ids, i, remaining, force);
      DownloadsSkip(svc, ids, i, remaining);
      FetchMatchesWritesDownloads(svc, Sent(st, MatchById(ids[i])), dir, name, ids, i + 1, remaining, force);
    }
  }

  // ---- save_match_data_for_summoner ----

  /**
   * The store after the profile `p` was fetched and written: the directory
   * exists, the profile is written, cached and memoised, and its request is
   * logged.
   */
  function ProfileWritten(st: Store, dir: string, name: string, p: Profile): (r: Store)
    ensures dir in r.tree
  {
    var st1 := Sent(st.(tree := WithDir(st.tree, dir)), SummonerByName(name));
    var doc := ProfileDoc(p);
    st1.(memo := st1.memo[name := p.puuid],
         tree := WriteFile(st1.tree, dir, ProfileFileName(name), doc),
         summonerCache := st1.summonerCache[name := doc])
  }

  /** The store left by `save_match_data_for_summoner` before its loop: the match-list request is logged too. */
  function Profiled(st: Store, dir: string, name: string, p: Profile): (r: Store)
    ensures dir in r.tree
  {
    Sent(ProfileWritten(st, dir, name, p), MatchList(p.puuid))
  }

  /**
   * The match list `save_match_data_for_summoner` obtains for profile `p`:
   * none when the client refuses the empty puuid or the request fails.
   */
  function ListFor(svc: Service, p: Profile): Option<seq<string>> {
    if p.puuid == "" then None else svc.matchList(p.puuid)
  }

  /** `Save` is the profile step, then the loop over the match list. */
  lemma SaveSteps(svc: Service, st: Store, dir: string, name: string, numMatches: int, force: bool)
    ensures var r := Save(svc, st, dir, name, numMatches, force);
      var p := svc.summonerByName(name);
      && (p.None? ==> r == (Sent(st.(tree := WithDir(st.tree, dir)), SummonerByName(name)),
                           Aborted(FetchFailed(SummonerByName(name)))))
      && (p.Some? && p.value.puuid == "" ==>
            r == (ProfileWritten(st, dir, name, p.value), Aborted(Refused(NoSummonerGiven))))
      && (p.Some? && p.value.puuid != "" && svc.matchList(p.value.puuid).None? ==>
            r == (Profiled(st, dir, name, p.value), Aborted(FetchFailed(MatchList(p.value.puuid)))))
      && (p.Some? && ListFor(svc, p.value).Some? ==>
            r == FetchMatches(svc, Profiled(st, dir, name, p.value), dir, name, ListFor(svc, p.value).value, 0, numMatches, force))
  {
  }

  /**
   * What `save_match_data_for_summoner` leaves in the caches: a failed
   * profile or match-list request stops it with the match cache as it was;
   * otherwise the profile is cached and memoised, the downloads of the match
   * list are stored in order, and the call ends at the failed match request,
   * if any.
   */
  lemma SaveCache(svc: Service, st: Store, dir: string, name: string, numMatches: int, force: bool)
    ensures var r := Save(svc, st, dir, name, numMatches, force);
      var p := svc.summonerByName(name);
      && (p.None? ==> r.1 == Aborted(FetchFailed(SummonerByName(name))) && r.0.cache == st.cache
                      && r.0.summonerCache == st.summonerCache && r.0.memo == st.memo)
      && (p.Some? ==> r.0.summonerCache == st.summonerCache[name := ProfileDoc(p.value)]
                      && r.0.memo == st.memo[name := p.value.puuid])
      && (p.Some? && p.value.puuid == "" ==> r.1 == Aborted(Refused(NoSummonerGiven)) && r.0.cache == st.cache)
      && (p.Some? && p.value.puuid != "" && svc.matchList(p.value.puuid).None? ==>
            r.1 == Aborted(FetchFailed(MatchList(p.value.puuid))) && r.0.cache == st.cache)
      && (p.Some? && ListFor(svc, p.value).Some? ==>
            var d := Downloads(svc, ListFor(svc, p.value).value, 0, numMatches);
            && r.0.cache == RememberAll(st.cache, name, d.0)
            && r.1 == (if d.1.Some? then Aborted(FetchFailed(MatchById(d.1.value))) else Done))
  {
    SaveSteps(svc, st, dir, name, numMatches, force);
    var p := svc.summonerByName(name);
    if p.Some? && ListFor(svc, p.value).Some? {
      var st4 := Profiled(st, dir, name, p.value);
      var ids := ListFor(svc, p.value).value;
      FetchMatchesCache(svc, st4, dir, name, ids, 0, numMatches, force);
      FetchMatchesOutcome(svc, st4, dir, name, ids, 0, numMatches, force);
    }
  }

  /**
   * The profile step on disk: the directory is created if missing, and only
   * the profile file in it is written.
   */
  lemma ProfiledFiles(st: Store, dir: string, name: string, p: Profile)
    ensures Profiled(st, dir, name, p).tree == ProfileWritten(st, dir, name, p).tree
    ensures var r := ProfileWritten(st, dir, name, p).tree;
      && r == st.tree[dir := r[dir]]
      && r[dir].entries == (if dir in st.tree then st.tree[dir].entries else map[])[ProfileFileName(name) := Stored(ProfileDoc(p))]
  {
  }

  /**
   * What `save_match_data_for_summoner` leaves on disk: only the summoner's
   * directory changes; its files stay, and keep their content unless `force`
   * is set, except the profile, which is always rewritten.
   */
  lemma SaveFiles(svc: Service, st: Store, dir: string, name: string, numMatches: int, force: bool)
    ensures var r := Save(svc, st, dir, name, numMatches, force).0.tree;
      var p := svc.summonerByName(name);
      && r == st.tree[dir := r[dir]]
      && (dir in st.tree ==> forall f :: f in st.tree[dir].entries ==> f in r[dir].entries)
      && (dir in st.tree && !force ==>
            forall f :: f in st.tree[dir].entries && f != ProfileFileName(name) ==> r[dir].entries[f] == st.tree[dir].entries[f])
      && (p.Some? ==> ProfileFileName(name) in r[dir].entries)
      && (p.Some? && !force ==> r[dir].entries[ProfileFileName(name)] == Stored(ProfileDoc(p.value)))
  {
    SaveSteps(svc, st, dir, name, numMatches, force);
    var p := svc.summonerByName(name);
    if p.Some? {
      var st4 := Profiled(st, dir, name, p.value);
      ProfiledFiles(st, dir, name, p.value);
      if ListFor(svc, p.value).Some? {
        var ids := ListFor(svc, p.value).value;
        FetchMatchesTree(svc, st4, dir, name, ids, 0, numMatches, force);
        UpdateTwice(st.tree, dir, st4.tree[dir], FetchMatches(svc, st4, dir, name, ids, 0, numMatches, force).0.tree[dir]);
      }
    }
  }

  /** Both files of each download are in the summoner's directory after `save_match_data_for_summoner`. */
  lemma SaveWritesDownloads(svc: Service, st: Store, dir: string, name: string, numMatches: int, force: bool)
    ensures var r := Save(svc, st, dir, name, numMatches, force).0.tree;
      var p := svc.summonerByName(name);
      p.Some? && ListFor(svc, p.value).Some? ==>
        var d := Downloads(svc, ListFor(svc, p.value).value, 0, numMatches).0;
        forall k :: 0 <= k < |d| ==> MatchFileName(d[k].0) in r[dir].entries && TimelineFileName(d[k].0) in r[dir].entries
  {
    SaveSteps(svc, st, dir, name, numMatches, force);
    var p := svc.summonerByName(name);
    if p.Some? && ListFor(svc, p.value).Some? {
      FetchMatchesWritesDownloads(svc, Profiled(st, dir, name, p.value), dir, name, ListFor(svc, p.value).value, 0, numMatches, force);
    }
  }

  // ---- The cache as dictionaries ----

  /**
   * Remembering pairs for a summoner inserts them, in order, into that
   * summoner's dictionary (created empty if absent, only when there is a
   * pair); every other summoner keeps its entries.
   */
  lemma {:induction false} RememberAllBucket(cache: Cache, name: string, puts: seq<(string, CacheEntry)>, other: string)
    ensures BucketOf(RememberAll(cache, name, puts), name) == PutAll(BucketOf(cache, name), puts)
    ensures name in RememberAll(cache, name, puts) <==> name in cache || puts != []
    ensures other != name ==>
              (other in RememberAll(cache, name, puts) <==> other in cache)
              && BucketOf(RememberAll(cache, name, puts), other) == BucketOf(cache, other)
    decreases |puts|
  {
    if puts != [] {
      RememberAllBucket(Remember(cache, name, puts[0].0, puts[0].1), name, puts[1..], other);
      PutAllFirst(BucketOf(cache, name), puts[0], puts[1..]);
      assert puts == [puts[0]] + puts[1..];
    }
  }

  /** A match list without repeats gives downloads without repeats. */
  lemma {:induction false} DownloadsDistinct(svc: Service, ids: seq<string>, i: nat, remaining: int)
    requires i <= |ids| && Distinct(ids)
    ensures Distinct(Firsts(Downloads(svc, ids, i, remaining).0))
    decreases |ids| - i
  {
    if i < |ids| && remaining != 0 && svc.matchById(ids[i]).Some? {
      if svc.matchById(ids[i]).value.gameMode != Classic {
        DownloadsSkip(svc, ids, i, remaining);
        DownloadsDistinct(svc, ids, i + 1, remaining);
      } else {
        DownloadsKeep(svc, ids, i, remaining);
        DownloadsDistinct(svc, ids, i + 1, remaining - 1);
        DownloadsAreClassic(svc, ids, i + 1, remaining - 1);
        var d := Downloads(svc, ids, i, remaining).0;
        var d1 := Downloads(svc, ids, i + 1, remaining - 1).0;
        forall a, b | 0 <= a < b < |d| ensures Firsts(d)[a] != Firsts(d)[b] {
          assert d[b] == d1[b - 1];
          if a == 0 {
            assert d1[b - 1].0 in ids[i + 1..];
          } else {
            assert d[a] == d1[a - 1];
            assert Firsts(d1)[a - 1] != Firsts(d1)[b - 1];
          }
        }
      }
    }
  }

  /**
   * `save_match_data_for_summoner` inserts its downloads, in order, into the
   * summoner's dictionary; every other summoner keeps its entries.
   */
  lemma SaveBucket(svc: Service, st: Store, dir: string, name: string, numMatches: int, force: bool, other: string)
    ensures var r := Save(svc, st, dir, name, numMatches, force).0.cache;
      var p := svc.summonerByName(name);
      && (other != name ==> BucketOf(r, other) == BucketOf(st.cache, other))
      && (p.Some? && ListFor(svc, p.value).Some? ==>
            BucketOf(r, name) == PutAll(BucketOf(st.cache, name), Downloads(svc, ListFor(svc, p.value).value, 0, numMatches).0))
  {
    SaveCache(svc, st, dir, name, numMatches, force);
    var p := svc.summonerByName(name);
    if p.Some? && ListFor(svc, p.value).Some? {
      RememberAllBucket(st.cache, name, Downloads(svc, ListFor(svc, p.value).value, 0, numMatches).0, other);
    }
  }

  /**
   * When the match list has no repeats and none of its matches is cached for
   * the summoner yet, the summoner's matches afterwards are the ones it had,
   * then the downloads in the order of the match list.
   */
  lemma SaveAppendsInOrder(svc: Service, st: Store, dir: string, name: string, numMatches: int, force: bool)
    requires ValidCache(st.cache)
    requires svc.summonerByName(name).Some? && ListFor(svc, svc.summonerByName(name).value).Some?
    requires var ids := ListFor(svc, svc.summonerByName(name).value).value;
      Distinct(ids) && forall j :: 0 <= j < |ids| ==> ids[j] !in BucketOf(st.cache, name).entries
    ensures var ids := ListFor(svc, svc.summonerByName(name).value).value;
      var d := Downloads(svc, ids, 0, numMatches).0;
      var b := BucketOf(Save(svc, st, dir, name, numMatches, force).0.cache, name);
      && b.keys == BucketOf(st.cache, name).keys + Firsts(d)
      && b.Valid() && b.Values() == BucketOf(st.cache, name).Values() + Seconds(d)
  {
    var ids := ListFor(svc, svc.summonerByName(name).value).value;
    var d := Downloads(svc, ids, 0, numMatches).0;
    var m := BucketOf(st.cache, name);
    SaveBucket(svc, st, dir, name, numMatches, force, name);
    DownloadsDistinct(svc, ids, 0, numMatches);
    DownloadsAreClassic(svc, ids, 0, numMatches);
    assert m.Valid();
    forall k | 0 <= k < |d| ensures d[k].0 !in m.entries {
      assert d[k].0 in ids[0..];
    }
    PutAllAppends(m, d);
  }
}
