/**
 * The saver and the loader of `src/summoner_data_handler.py` composed: a
 * summoner directory that `save_match_data_for_summoner` creates lists the
 * profile, then the match file and the timeline file of each download, in
 * the order they are written; so a later load files back exactly the
 * downloads, and the iterators of a later run yield them.
 */
module SummonerDataRoundTrip {
  import opened Wrappers
  import opened OrderedMaps
  import opened PyBuiltins
  import opened RiotApi
  import opened FileSystem
  import opened MatchFiles
  import opened SummonerDataHandling
  import opened SummonerDataProperties
  import opened SummonerDataReading

  // ---- File names of different ids ----

  /** Different ids have different match files and different timeline files. */
  lemma FileNamesInjective(a: string, b: string)
    ensures MatchFileName(a) == MatchFileName(b) ==> a == b
    ensures TimelineFileName(a) == TimelineFileName(b) ==> a == b
  {
    if MatchFileName(a) == MatchFileName(b) {
      assert a == MatchFileName(a)[6..6 + |a|];
      assert b == MatchFileName(b)[6..6 + |b|];
    }
    if TimelineFileName(a) == TimelineFileName(b) {
      assert a == TimelineFileName(a)[6..6 + |a|];
      assert b == TimelineFileName(b)[6..6 + |b|];
    }
  }

  /**
   * The match file of an id without `_timeline` in it is nobody's timeline
   * file: the two could only agree if the id were the other id followed by
   * `_timeline`.
   */
  lemma MatchFileIsNoTimelineFile(a: string, b: string)
    requires PlainId(a)
    ensures MatchFileName(a) != TimelineFileName(b)
  {
    if |a| == |b| + 9 {
      assert !OccursAt("_timeline", a, |b|);
      var k :| 0 <= k < 9 && a[|b| + k] != "_timeline"[k];
      assert MatchFileName(a)[6 + |b| + k] == a[|b| + k];
      assert TimelineFileName(b)[6 + |b| + k] == "_timeline"[k];
    }
  }

  /**
   * Ids whose files the saver can put in the directory of summoner `name`
   * and the loader files back: no repeats, no pattern inside, and no file
   * that is the profile's.
   */
  ghost predicate Saveable(name: string, ids: seq<string>) {
    && Distinct(ids)
    && forall j :: 0 <= j < |ids| ==>
         && StorableId(ids[j])
         && MatchFileName(ids[j]) != ProfileFileName(name)
         && TimelineFileName(ids[j]) != ProfileFileName(name)
  }

  // ---- Listings ----

  /** Writing a new file into a directory appends it to the listing. */
  lemma ListingPut(d: Directory, file: string, data: FileData)
    requires d.Valid() && file !in d.entries
    ensures Listing(d.Put(file, data)) == Listing(d) + [(file, data)]
  {
    var r := d.Put(file, data);
    forall i | 0 <= i < |d.keys|
      ensures Listing(r)[i] == Listing(d)[i]
    {
      assert d.keys[i] in d.entries;
    }
  }

  /** The files of a list of entries are the first entry's two files, then the files of the rest. */
  lemma {:induction false} EntryFilesCons(e: (string, CacheEntry), rest: seq<(string, CacheEntry)>)
    ensures EntryFiles([e] + rest)
              == [(MatchFileName(e.0), Stored(e.1.matchDoc)), (TimelineFileName(e.0), Stored(e.1.timelineDoc))] + EntryFiles(rest)
    decreases |rest|
  {
    var q := [e] + rest;
    if rest == [] {
      assert q[..|q| - 1] == [];
    } else {
      var init := rest[..|rest| - 1];
      var last := rest[|rest| - 1];
      assert q[..|q| - 1] == [e] + init;
      assert q[|q| - 1] == last;
      EntryFilesCons(e, init);
    }
  }

  /** The four files of two different plain ids are four different names. */
  lemma OtherFilesDiffer(x: string, y: string)
    requires PlainId(x) && PlainId(y) && x != y
    ensures MatchFileName(y) != MatchFileName(x) && MatchFileName(y) != TimelineFileName(x)
    ensures TimelineFileName(y) != MatchFileName(x) && TimelineFileName(y) != TimelineFileName(x)
  {
    FileNamesInjective(x, y);
    MatchFileIsNoTimelineFile(y, x);
    MatchFileIsNoTimelineFile(x, y);
  }

  /**
   * Two conditional writes of files the directory lacks both happen: the
   * listing gains the first file, then the second.
   */
  lemma TwoFreshWrites(tree: Tree, dir: string, file1: string, doc1: Document, file2: string, doc2: Document, force: bool)
    requires dir in tree && tree[dir].Valid()
    requires file1 !in tree[dir].entries && file2 !in tree[dir].entries && file1 != file2
    ensures var r := WriteUnlessPresent(WriteUnlessPresent(tree, dir, file1, doc1, force), dir, file2, doc2, force)[dir];
      && r == tree[dir].Put(file1, Stored(doc1)).Put(file2, Stored(doc2))
      && r.Valid() && Listing(r) == Listing(tree[dir]) + [(file1, Stored(doc1)), (file2, Stored(doc2))]
  {
    var d0 := tree[dir];
    var tree1 := WriteUnlessPresent(tree, dir, file1, doc1, force);
    assert tree1 == WriteFile(tree, dir, file1, doc1);
    ListingPut(d0, file1, Stored(doc1));
    ListingPut(d0.Put(file1, Stored(doc1)), file2, Stored(doc2));
  }

  /** A listing that gained an entry's two files, then the files of the rest, gained the files of the whole list. */
  lemma ListingGains(before: seq<(string, FileData)>, middle: seq<(string, FileData)>, after: seq<(string, FileData)>,
                     e: (string, CacheEntry), rest: seq<(string, CacheEntry)>)
    requires middle == before + [(MatchFileName(e.0), Stored(e.1.matchDoc)), (TimelineFileName(e.0), Stored(e.1.timelineDoc))]
    requires after == middle + EntryFiles(rest)
    ensures after == before + EntryFiles([e] + rest)
  {
    EntryFilesCons(e, rest);
  }

  // ---- The fetch loop on a directory it writes afresh ----

  /**
   * A turn that keeps a CLASSIC match whose two files are not in the
   * directory yet: the directory gains the match file, then the timeline
   * file, whatever `force` says, and the files of the ids after it are
   * still absent.
   */
  lemma KeepStepListing(svc: Service, st: Store, dir: string, name: string, ids: seq<string>, i: nat, remaining: int, force: bool)
    returns (st1: Store)
    requires dir in st.tree && i < |ids| && remaining != 0 && st.tree[dir].Valid()
    requires svc.matchById(ids[i]).Some? && svc.matchById(ids[i]).value.gameMode == Classic
    requires Distinct(ids) && forall j :: 0 <= j < |ids| ==> PlainId(ids[j])
    requires forall j :: i <= j < |ids| ==>
               MatchFileName(ids[j]) !in st.tree[dir].entries && TimelineFileName(ids[j]) !in st.tree[dir].entries
    ensures dir in st1.tree && st1.tree[dir].Valid()
    ensures FetchMatches(svc, st, dir, name, ids, i, remaining, force)
              == FetchMatches(svc, st1, dir, name, ids, i + 1, remaining - 1, force)
    ensures Listing(st1.tree[dir]) == Listing(st.tree[dir])
              + [(MatchFileName(ids[i]), Stored(MatchDoc(svc.matchById(ids[i]).value))),
                 (TimelineFileName(ids[i]), Stored(TimelineDocOf(svc.timelineById(ids[i]))))]
    ensures forall j :: i + 1 <= j < |ids| ==>
              MatchFileName(ids[j]) !in st1.tree[dir].entries && TimelineFileName(ids[j]) !in st1.tree[dir].entries
  {
    var x := ids[i];
    var m := svc.matchById(x).value;
    assert NextMatch(svc, st, dir, name, ids, i, remaining, force) == TakeTurn(svc, st, dir, name, ids, i, remaining, force);
    var sent := Sent(st, MatchById(x));
    st1 := Kept(svc, sent, dir, name, x, m, force);
    KeptEffect(svc, sent, dir, name, x, m, force);
    assert MatchFileName(x) != TimelineFileName(x);
    TwoFreshWrites(sent.tree, dir, MatchFileName(x), MatchDoc(m), TimelineFileName(x), TimelineDocOf(svc.timelineById(x)), force);
    forall j | i + 1 <= j < |ids|
      ensures MatchFileName(ids[j]) !in st1.tree[dir].entries && TimelineFileName(ids[j]) !in st1.tree[dir].entries
    {
      OtherFilesDiffer(x, ids[j]);
    }
  }

  /**
   * When the files of the ids still to come are not in the directory, the
   * loop appends to its listing the files of its downloads, in order:
   * each match file followed by its timeline file.
   */
  lemma {:induction false} FetchMatchesListing(svc: Service, st: Store, dir: string, name: string, ids: seq<string>, i: nat, remaining: int, force: bool)
    requires dir in st.tree && i <= |ids| && st.tree[dir].Valid()
    requires Distinct(ids) && forall j :: 0 <= j < |ids| ==> PlainId(ids[j])
    requires forall j :: i <= j < |ids| ==>
               MatchFileName(ids[j]) !in st.tree[dir].entries && TimelineFileName(ids[j]) !in st.tree[dir].entries
    ensures var r := FetchMatches(svc, st, dir, name, ids, i, remaining, force).0.tree[dir];
      r.Valid() && Listing(r) == Listing(st.tree[dir]) + EntryFiles(Downloads(svc, ids, i, remaining).0)
    decreases |ids| - i
  {
    if i == |ids| || remaining == 0 || svc.matchById(ids[i]).None? {
      LoopEnds(svc, st, dir, name, ids, i, remaining, force);
      if i < |ids| && remaining != 0 {
        assert Downloads(svc, ids, i, remaining) == DownloadAt(svc, ids, i, remaining);
      }
      assert Downloads(svc, ids, i, remaining).0 == [];
      assert EntryFiles([]) == [];
    } else if svc.matchById(ids[i]).value.gameMode == Classic {
      var x := ids[i];
      var m := svc.matchById(x).value;
      var st1 := KeepStepListing(svc, st, dir, name, ids, i, remaining, force);
      FetchMatchesListing(svc, st1, dir, name, ids, i + 1, remaining - 1, force);
      DownloadsKeep(svc, ids, i, remaining);
      var r1 := FetchMatches(svc, st1, dir, name, ids, i + 1, remaining - 1, force).0.tree[dir];
      ListingGains(Listing(st.tree[dir]), Listing(st1.tree[dir]), Listing(r1),
                   (x, EntryOf(svc, x, m)), Downloads(svc, ids, i + 1, remaining - 1).0);
    } else {
      SkipStep(svc, st, dir, name, ids, i, remaining, force);
      DownloadsSkip(svc, ids, i, remaining);
      FetchMatchesListing(svc, Sent(st, MatchById(ids[i])), dir, name, ids, i + 1, remaining, force);
    }
  }

  // ---- save_match_data_for_summoner, then the loader ----

  /** The profile step into a directory that did not exist leaves the profile as its only file. */
  lemma ProfiledListing(st: Store, dir: string, name: string, p: Profile)
    requires dir !in st.tree
    ensures var d := Profiled(st, dir, name, p).tree[dir];
      d.Valid() && Listing(d) == [(ProfileFileName(name), Stored(ProfileDoc(p)))]
  {
    var profile := (ProfileFileName(name), Stored(ProfileDoc(p)));
    assert Profiled(st, dir, name, p).tree[dir] == Empty().Put(profile.0, profile.1);
    ListingPut(Empty(), profile.0, profile.1);
    assert Listing(Empty<string, FileData>()) == [];
  }

  /**
   * A directory that did not exist before `save_match_data_for_summoner`
   * lists, afterwards, the profile, then the match file and the timeline
   * file of each download in the order of the match list. This holds when
   * the loop stopped at a failed match request too: the downloads are then
   * the matches kept before it.
   */
  lemma SaveListing(svc: Service, st: Store, dir: string, name: string, numMatches: int, force: bool)
    requires dir !in st.tree
    requires svc.summonerByName(name).Some? && ListFor(svc, svc.summonerByName(name).value).Some?
    requires Saveable(name, ListFor(svc, svc.summonerByName(name).value).value)
    ensures var p := svc.summonerByName(name).value;
      var d := Downloads(svc, ListFor(svc, p).value, 0, numMatches).0;
      var r := Save(svc, st, dir, name, numMatches, force).0.tree[dir];
      r.Valid() && Listing(r) == [(ProfileFileName(name), Stored(ProfileDoc(p)))] + EntryFiles(d)
  {
    var p := svc.summonerByName(name).value;
    var ids := ListFor(svc, p).value;
    SaveSteps(svc, st, dir, name, numMatches, force);
    var st4 := Profiled(st, dir, name, p);
    ProfiledListing(st, dir, name, p);
    FetchMatchesListing(svc, st4, dir, name, ids, 0, numMatches, force);
  }

  /**
   * The downloads of a match list the saver can file are fileable for the
   * loader: each is CLASSIC, comes from the list, and none repeats.
   */
  lemma DownloadsFileable(svc: Service, name: string, ids: seq<string>, numMatches: int)
    requires Saveable(name, ids)
    ensures var d := Downloads(svc, ids, 0, numMatches).0;
      Fileable(name, d) && DistinctKeys(d)
  {
    var d := Downloads(svc, ids, 0, numMatches).0;
    DownloadsAreClassic(svc, ids, 0, numMatches);
    DownloadsDistinct(svc, ids, 0, numMatches);
    DistinctKeysOfFirsts(d);
    forall k | 0 <= k < |d|
      ensures StorableId(d[k].0) && MatchFileName(d[k].0) != ProfileFileName(name) && TimelineFileName(d[k].0) != ProfileFileName(name)
    {
      assert d[k].0 in ids[0..];
    }
  }

  /**
   * Loading a directory `save_match_data_for_summoner` just created files
   * back exactly its downloads, in order, whatever the match cache holds.
   */
  lemma SaveThenLoad(svc: Service, st: Store, name: string, numMatches: int, force: bool, cache: Cache)
    requires ValidStore(st) && name !in st.tree
    requires svc.summonerByName(name).Some? && ListFor(svc, svc.summonerByName(name).value).Some?
    requires Saveable(name, ListFor(svc, svc.summonerByName(name).value).value)
    ensures var st1 := Save(svc, st, name, name, numMatches, force).0;
      var d := Downloads(svc, ListFor(svc, svc.summonerByName(name).value).value, 0, numMatches).0;
      Load(st1.(cache := cache), name) == (st1.(cache := RememberAll(cache, name, d)), Done)
  {
    var p := svc.summonerByName(name).value;
    var ids := ListFor(svc, p).value;
    var st1 := Save(svc, st, name, name, numMatches, force).0;
    SaveKeepsValid(svc, st, name, name, numMatches, force);
    SaveListing(svc, st, name, name, numMatches, force);
    DownloadsFileable(svc, name, ids, numMatches);
    LoadReadsBackSaved(st1.(cache := cache), name, Stored(ProfileDoc(p)), Downloads(svc, ids, 0, numMatches).0);
  }

  /**
   * A later run that finds the directory `save_match_data_for_summoner`
   * created, with no matches of the summoner cached, yields exactly the
   * entries of the downloads, in order.
   */
  lemma DataOfSaved(svc: Service, later: Service, st: Store, name: string, numMatches: int, force: bool, cache: Cache)
    requires ValidStore(st) && name !in st.tree
    requires svc.summonerByName(name).Some? && ListFor(svc, svc.summonerByName(name).value).Some?
    requires Saveable(name, ListFor(svc, svc.summonerByName(name).value).value)
    requires ValidCache(cache) && name !in cache
    ensures var st1 := Save(svc, st, name, name, numMatches, force).0;
      var d := Downloads(svc, ListFor(svc, svc.summonerByName(name).value).value, 0, numMatches).0;
      DataOf(later, st1.(cache := cache), name) == Success(Seconds(d))
  {
    var p := svc.summonerByName(name).value;
    var ids := ListFor(svc, p).value;
    var st1 := Save(svc, st, name, name, numMatches, force).0;
    SaveKeepsValid(svc, st, name, name, numMatches, force);
    SaveListing(svc, st, name, name, numMatches, force);
    DownloadsFileable(svc, name, ids, numMatches);
    DataOfLoaded(later, st1.(cache := cache), name, Stored(ProfileDoc(p)), Downloads(svc, ids, 0, numMatches).0);
  }
}
