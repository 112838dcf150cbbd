# League of Legends weak-minute detector: the match store and the timeline aggregator

The program downloads a summoner's recent CLASSIC matches from the Riot web
API and stores them on disk. It reads them back, turns each match timeline
into seven per-minute series for the summoner's slot, and labels every minute
"weak" or "strong" for a classifier. This Dafny project models the parts of
that pipeline that decide which data reaches the classifier. The other parts
are listed under "## Left out".

The parts modelled:

- **The match store** (`SummonerDataHandler`, `src/summoner_data_handler.py`).
  - `save_match_data_for_summoner` creates the directory, fetches and writes
    the profile, and walks the match list. For each CLASSIC match it writes
    the match file and the timeline file unless they exist (or `force` is
    set) and caches both, until `num_matches` matches are kept.
  - The loader reads the directory listing back. It splits the files into
    matches and timelines by their suffixes and recovers the ids with
    `str.replace`. Then it caches each match with the timeline of the same id.
  - The three iterators fetch a summoner with no directory, load one whose
    directory is not cached yet, and yield the cached entries in insertion
    order.
  - `find_player_index_in_data` takes the puuid from the profile cache, then
    the profile file, then the API. It returns the puuid's position among the
    `metadata.participants` of the match or timeline document it is given.
- **The API client** (`src/riot_api.py`). It keeps its request log and its
  name-to-puuid memo. The remote service is a parameter, the `Service` oracle.
- **The aggregator** `analyze_cs` (`04_better_machine_learning.py`). This
  covers the two snapshot series and the five counters (kills, assists,
  deaths, damage done, damage received), tallied per frame and accumulated.
  It also covers the integer steps of `main`:
  - the slot `player_index + 1`;
  - `np.diff`;
  - the labelling rule, cs below 7 or deaths above 2.
- **`03_simple_machine_learning.py`**, which carries the same aggregator. The
  only difference is the missing parentheses in the damage condition. This
  project proves that Python's precedence gives the same condition, so the
  two aggregators compute the same series.

## How the model is built

- **State.** The whole state is one `Store` value:
  - the directory tree;
  - the cache of entries per summoner, kept in insertion order;
  - the profile cache;
  - the client's request log and memo.
- **Specification functions.** Each operation is a function on `Store`: `Save`,
  `FetchMatches`, `Load`, `Prepare`, `DataOf`, `PuuidFor` and `Locate`.
- **Methods.** The classes `SummonerDataHandler`, `RiotApiHelper` and `Disk`
  carry the methods, with their loops and in-place updates. Each method is
  proved to perform exactly its function's state change.
- **Properties.** The properties are lemmas about those functions. The fetch
  loop is related to `Downloads`, an independent reference list of what it
  keeps. The loader is proved to read back what the saver writes: a directory
  the saver creates lists the profile, then the match file and the timeline
  file of each kept match, and loading it caches exactly those matches. The
  aggregator loops are proved against reference functions: `FrameTally`,
  `Running` and `MetricSeries`.
- **Errors.** A Python exception is an `Aborted`/`Failure` outcome carrying
  the error, and the store keeps what was done before it.

## Model

| member | source | states |
|---|---|---|
| RiotApi.RiotApiHelper.GetSummonerDataByName | src/riot_api.py:26-29 | answers the service's profile; logs one request; memoises the puuid only when the profile came back |
| RiotApi.RiotApiHelper.GetPuuidForSummonerName | src/riot_api.py:20-24 | a memoised name is answered without a request; a new name costs one profile request and is memoised when it succeeds |
| RiotApi.RiotApiHelper.GetMatchList | src/riot_api.py:31-41 | an empty puuid raises before any request; any other puuid is answered with the service's match list and logs one request; the memo is unchanged |
| RiotApi.ParticipantsOf | src/summoner_data_handler.py:85 | a match and a timeline list their participants; a profile and `null` have none |
| RiotApi.RiotApiHelper.GetMatchById | src/riot_api.py:43-45 | answers the service's match and logs one request |
| RiotApi.RiotApiHelper.GetMatchTimelineById | src/riot_api.py:47-49 | answers the service's timeline and logs one request |
| FileSystem.WithDir | src/summoner_data_handler.py:18 | the directory exists afterwards; when it existed the tree is unchanged, otherwise it is new and empty; no other directory changes |
| FileSystem.WriteFile | src/summoner_data_handler.py:20-21 | the file holds the document; the other files of the directory are unchanged |
| FileSystem.WriteUnlessPresentEffect | src/summoner_data_handler.py:35-37 | the file exists afterwards; it holds the new document when forced or absent before, and is unchanged otherwise; no other file or directory changes |
| FileSystem.Listing | src/summoner_data_handler.py:101 | one entry per file, in creation order, each with its content |
| FileSystem.Disk.Read | src/summoner_data_handler.py:88-89 | `None` exactly when the file is missing, else its content |
| FileSystem.Disk.Exists | src/summoner_data_handler.py:35 | true exactly when the directory holds the file |
| OrderedMaps.OrderedMap.Put | src/summoner_data_handler.py:112 | the key maps to the value; a new key goes to the end of the key order, an existing key keeps its place; key uniqueness is kept |
| OrderedMaps.PutAllAppends | src/summoner_data_handler.py:125-129 | inserting new distinct keys appends them, in order, to the keys and their values to the values |
| OrderedMaps.PutAllLookup | src/summoner_data_handler.py:125-129 | after inserting pairs with distinct keys, each key holds its own value |
| PyBuiltins.RemoveAllAbsent | src/summoner_data_handler.py:104 | `replace` of a pattern that does not occur changes nothing |
| PyBuiltins.RemoveAllConcat | src/summoner_data_handler.py:104 | `replace` on a concatenation with no occurrence across the seam works part by part |
| PyBuiltins.IndexOf | src/summoner_data_handler.py:85 | `None` exactly when the element is absent; otherwise the first position holding it |
| MatchFiles.MatchFileRoundTrip | src/summoner_data_handler.py:104 | the id recovered from `match_<id>.json` is the id, for an id with no file-name pattern in it |
| MatchFiles.TimelineFileRoundTrip | src/summoner_data_handler.py:104 | the id recovered from `match_<id>_timeline.json` is the id, unless the id ends in `match` |
| MatchFiles.IdEndingInMatchIsMisread | src/summoner_data_handler.py:104 | the timeline of an id `x + "match"` is filed under `x + "timeline"` |
| MatchFiles.MatchFileClassified | src/summoner_data_handler.py:108 | a match file is loaded as a match exactly when its id is not `timeline` |
| MatchFiles.TimelineFileClassified | src/summoner_data_handler.py:117 | a timeline file is loaded as a timeline and never as a match |
| MatchFiles.MatchFileOfIdTimeline | src/summoner_data_handler.py:117 | `match_timeline.json` is taken for the timeline of the id `timeline` |
| SummonerDataHandling.RememberAllKeepsValid | src/summoner_data_handler.py:45-48 | storing entries keeps every summoner's dictionary well formed |
| SummonerDataHandling.RememberAllSnoc | src/summoner_data_handler.py:126-129 | storing one more entry after a list is one more dictionary assignment |
| SummonerDataHandling.FetchMatches | src/summoner_data_handler.py:27-49 | the directory still exists after the loop, and a well-formed store stays well formed |
| SummonerDataHandling.Save | src/summoner_data_handler.py:14-49 | the save directory exists afterwards, even when a request failed |
| SummonerDataHandling.SaveKeepsValid | src/summoner_data_handler.py:14-49 | saving keeps every directory and every cached dictionary well formed |
| SummonerDataHandling.Scan | src/summoner_data_handler.py:101-123 | the match and timeline dictionaries built from the listing are well formed |
| SummonerDataHandling.PairingAdvances | src/summoner_data_handler.py:125-129 | pairing the id at position `j` extends the pairs made so far by that id's match and timeline |
| SummonerDataHandling.PairingStops | src/summoner_data_handler.py:125-129 | pairing ends at the end of the ids, or at the first id missing a match or a timeline, which is reported |
| SummonerDataHandling.Load | src/summoner_data_handler.py:93-129 | loading changes only the entry cache: no file, profile, request or memo changes |
| SummonerDataHandling.Filed | src/summoner_data_handler.py:125-129 | the second loop changes only the entry cache and keeps it well formed |
| SummonerDataHandling.Prepare | src/summoner_data_handler.py:68-72 | afterwards the summoner has a directory, and a cache entry unless the step failed |
| SummonerDataHandling.PrepareKeepsValid | src/summoner_data_handler.py:68-72 | preparing keeps the store well formed |
| SummonerDataHandling.Vivified | src/summoner_data_handler.py:74 | reading `cache[name]` after a successful step creates an empty entry when there is none; the outcome and the disk are unchanged |
| SummonerDataHandling.DataOf | src/summoner_data_handler.py:68-75 | the iterator fails exactly when the fetch or the load before it fails |
| SummonerDataHandling.MatchParts | src/summoner_data_handler.py:56-57 | the `match` part of each entry, in order |
| SummonerDataHandling.TimelineParts | src/summoner_data_handler.py:65-66 | the `timeline` part of each entry, in order |
| SummonerDataHandling.MatchDataOf | src/summoner_data_handler.py:51-57 | fails exactly when `iterator_on_data` fails, with its error; otherwise yields the `match` part of each of its entries |
| SummonerDataHandling.TimelineDataOf | src/summoner_data_handler.py:59-66 | fails exactly when `iterator_on_data` fails, with its error; otherwise yields the `timeline` part of each of its entries |
| SummonerDataHandling.SummonerDataHandler.constructor | src/summoner_data_handler.py:9-12 | both caches start empty |
| SummonerDataHandling.SummonerDataHandler.SaveMatchDataForSummoner | src/summoner_data_handler.py:14-49 | the new disk, caches, log and memo, and the outcome, are those `Save` specifies; the store stays well formed |
| SummonerDataHandling.SummonerDataHandler.FetchMatchList | src/summoner_data_handler.py:26-49 | the loop performs the state change and outcome `FetchMatches` specifies |
| SummonerDataHandling.SummonerDataHandler.FetchStep | src/summoner_data_handler.py:31-49 | one turn leaves the rest of the loop to produce the same final state, or stops with it |
| SummonerDataHandling.SummonerDataHandler.FetchMatch | src/summoner_data_handler.py:31-33 | one turn fetches, then skips a non-CLASSIC match, stops on a failed request, or keeps the match |
| SummonerDataHandling.SummonerDataHandler.KeepMatch | src/summoner_data_handler.py:34-48 | writes both files unless present and not forced, logs the timeline request and caches the entry |
| SummonerDataHandling.SummonerDataHandler.LoadMatchDataFromDirectory | src/summoner_data_handler.py:93-129 | performs the state change and outcome `Load` specifies |
| SummonerDataHandling.SummonerDataHandler.ScanDirectory | src/summoner_data_handler.py:95-123 | the dictionaries the first loop builds are `Scan` of the listing |
| SummonerDataHandling.SummonerDataHandler.FileMatches | src/summoner_data_handler.py:125-129 | the second loop performs the state change and outcome `Filed` specifies |
| SummonerDataHandling.SummonerDataHandler.LoadPlayerDataFromDirectory | src/summoner_data_handler.py:87-91 | reads the profile file and caches it; a missing or unreadable file fails with nothing changed |
| SummonerDataHandling.SummonerDataHandler.FindPlayerIndexInData | src/summoner_data_handler.py:77-85 | performs the state change and answer `Locate` specifies |
| SummonerDataHandling.SummonerDataHandler.PrepareSummoner | src/summoner_data_handler.py:68-72 | fetches, loads or reuses as `Prepare` specifies |
| SummonerDataHandling.SummonerDataHandler.Vivify | src/summoner_data_handler.py:74 | creates the empty entry as `Vivified` specifies |
| SummonerDataHandling.SummonerDataHandler.IteratorOnData | src/summoner_data_handler.py:68-75 | leaves the store `Prepare` specifies and yields `DataOf` |
| SummonerDataHandling.SummonerDataHandler.IteratorOnMatchData | src/summoner_data_handler.py:51-57 | leaves the store `Prepare` specifies and yields `MatchDataOf` |
| SummonerDataHandling.SummonerDataHandler.IteratorOnMatchTimelineData | src/summoner_data_handler.py:59-66 | leaves the store `Prepare` specifies and yields `TimelineDataOf` |
| SummonerDataHandling.SummonerDataHandler.MatchDocs | src/summoner_data_handler.py:56-57 | the loop yields the `match` part of every cached entry, in insertion order |
| SummonerDataHandling.SummonerDataHandler.TimelineDocs | src/summoner_data_handler.py:65-66 | the loop yields the `timeline` part of every cached entry, in insertion order |
| SummonerDataHandling.SummonerDataHandler.Entries | src/summoner_data_handler.py:74-75 | the loop yields every cached entry, in insertion order |
| SummonerDataProperties.DownloadsBound | src/summoner_data_handler.py:26-29 | at most `num_matches` matches are kept, and at most one per id of the list |
| SummonerDataProperties.DownloadsAreClassic | src/summoner_data_handler.py:31-33 | every kept match comes from the list, was fetched, is CLASSIC and is stored with its own match and timeline; the loop stops only at an id whose request failed |
| SummonerDataProperties.DownloadsAreFirstClassics | src/summoner_data_handler.py:26-49 | when every match request succeeds, the kept ids are the first `num_matches` CLASSIC ids of the list (all of them when fewer), and the loop completes |
| SummonerDataProperties.TwoWritesEffect | src/summoner_data_handler.py:35-43 | the two conditional writes change only the summoner's directory, keep its files and leave both new files there |
| SummonerDataProperties.FetchMatchesCache | src/summoner_data_handler.py:45-48 | the loop caches exactly the kept matches, in list order |
| SummonerDataProperties.FetchMatchesOutcome | src/summoner_data_handler.py:31-33 | the loop fails exactly at the first failed match request among the ids it reaches; the profiles and the memo are unchanged |
| SummonerDataProperties.FetchMatchesTree | src/summoner_data_handler.py:34-43 | the loop writes only into the summoner's directory; every file there stays, and keeps its content unless `force` is set |
| SummonerDataProperties.FetchMatchesWritesDownloads | src/summoner_data_handler.py:34-43 | both files of every kept match are in the directory afterwards |
| SummonerDataProperties.ProfileWritten | src/summoner_data_handler.py:18-22 | the directory exists once the profile is written |
| SummonerDataProperties.Profiled | src/summoner_data_handler.py:18-25 | the directory still exists once the match list is asked for |
| SummonerDataProperties.ProfiledFiles | src/summoner_data_handler.py:18-25 | the profile step creates the directory if needed and writes only the profile file; the match-list request writes nothing |
| SummonerDataProperties.SaveSteps | src/summoner_data_handler.py:14-49 | saving is the profile step, then the match-list request, then the loop, stopping at a failed request; a profile with an empty puuid stops before the match-list request, with the client's error |
| SummonerDataProperties.SaveCache | src/summoner_data_handler.py:19-49 | a failed profile request changes no cache; a fetched profile is cached and memoised; an empty puuid or a failed match list changes no entry; otherwise the kept matches are cached, and the call fails at the first failed match request |
| SummonerDataProperties.SaveFiles | src/summoner_data_handler.py:18-43 | only the summoner's directory changes; its files stay, and keep their content unless `force` is set, except the profile, which is always rewritten |
| SummonerDataProperties.SaveWritesDownloads | src/summoner_data_handler.py:34-43 | both files of every kept match are in the directory after the save |
| SummonerDataProperties.RememberAllBucket | src/summoner_data_handler.py:45-48 | storing entries inserts them, in order, into that summoner's dictionary, created only when there is an entry; every other summoner is unchanged |
| SummonerDataProperties.DownloadsDistinct | src/summoner_data_handler.py:27-45 | a match list without repeats gives kept ids without repeats |
| SummonerDataProperties.SaveBucket | src/summoner_data_handler.py:45-48 | after a save the summoner's dictionary is the old one with the kept matches inserted; other summoners are unchanged |
| SummonerDataProperties.SaveAppendsInOrder | src/summoner_data_handler.py:45-48 | for a list without repeats and no match already cached, the summoner's entries become the old ones, then the kept matches in list order |
| SummonerDataReading.PairingFacts | src/summoner_data_handler.py:125-129 | the pairs are the ids in order with their match and timeline; pairing stops at the first id lacking either, which is reported, and completes otherwise |
| SummonerDataReading.EntryFiles | src/summoner_data_handler.py:34-43 | two files per kept match |
| SummonerDataReading.ScanEntry | src/summoner_data_handler.py:101-123 | the loader files the two files of an entry as its match and timeline under its id |
| SummonerDataReading.ScanOfWritten | src/summoner_data_handler.py:101-123 | scanning a profile followed by the files of the entries gives the entries' matches and timelines, in order |
| SummonerDataReading.MapsOfWritten | src/summoner_data_handler.py:101-123 | for distinct ids, the scanned match ids are the entries' ids in order, and each holds its entry's match and timeline |
| SummonerDataReading.PairingOfFilled | src/summoner_data_handler.py:125-129 | when both dictionaries hold every id, pairing gives back the entries and completes |
| SummonerDataReading.LoadReadsBackSaved | src/summoner_data_handler.py:93-129 | loading a directory holding the profile and the files of distinct storable entries caches exactly those entries, in order, and completes |
| SummonerDataReading.PrepareWithDirectory | src/summoner_data_handler.py:68-72 | a summoner with a directory is never fetched: no request, no write; a cached one is left exactly as it is |
| SummonerDataReading.PrepareAgain | src/summoner_data_handler.py:68-72 | after an iterator prepared a summoner, the next one changes nothing |
| SummonerDataReading.DataOfCached | src/summoner_data_handler.py:71-75 | a cached summoner with a directory yields its cached entries, in insertion order |
| SummonerDataReading.DataOfLoaded | src/summoner_data_handler.py:71-75 | an uncached summoner whose directory the saver wrote yields exactly the saved entries, in write order |
| SummonerDataReading.DataOfFetched | src/summoner_data_handler.py:68-75 | a summoner with no directory, whose match list has no repeats, is fetched with the defaults, and yields the kept matches in list order, or fails at the first failed match request |
| SummonerDataReading.PuuidForAgain | src/summoner_data_handler.py:77-91 | a puuid found once is found again from the new store, with nothing changed |
| SummonerDataReading.PuuidForRequests | src/summoner_data_handler.py:77-84 | only a summoner known from no cache, no directory and no memo costs a profile request; no lookup writes a file or changes the entry cache |
| SummonerDataReading.LocateFinds | src/summoner_data_handler.py:77-85 | succeeds exactly when the puuid is found and is among the participants of the match or timeline, and answers its first position; otherwise fails with the lookup's error, `NoParticipants` for a document without participants, or `ParticipantNotFound` |
| SummonerDataRoundTrip.FileNamesInjective | src/summoner_data_handler.py:34-40 | different ids have different match files and different timeline files |
| SummonerDataRoundTrip.MatchFileIsNoTimelineFile | src/summoner_data_handler.py:34-40 | the match file of an id without `_timeline` in it is no id's timeline file |
| SummonerDataRoundTrip.OtherFilesDiffer | src/summoner_data_handler.py:34-40 | two different plain ids have four different file names |
| SummonerDataRoundTrip.ListingPut | src/summoner_data_handler.py:36-43 | writing a new file appends it to the directory listing |
| SummonerDataRoundTrip.EntryFilesCons | src/summoner_data_handler.py:34-43 | the files of a list of kept matches are the first match's two files, then the files of the rest |
| SummonerDataRoundTrip.TwoFreshWrites | src/summoner_data_handler.py:35-43 | two conditional writes of absent files both happen, and the listing gains them in order, whatever `force` says |
| SummonerDataRoundTrip.KeepStepListing | src/summoner_data_handler.py:31-48 | keeping a match whose files are absent appends its match file and timeline file to the listing, and the files of later ids stay absent |
| SummonerDataRoundTrip.FetchMatchesListing | src/summoner_data_handler.py:26-49 | when the files of the remaining ids are absent, the loop appends to the listing the two files of each kept match, in list order |
| SummonerDataRoundTrip.SaveListing | src/summoner_data_handler.py:14-49 | a directory the save creates lists the profile, then the match and timeline files of each kept match, in list order, also when the loop stopped at a failed request |
| SummonerDataRoundTrip.DownloadsFileable | src/summoner_data_handler.py:26-49 | the kept matches of a list of distinct storable ids are distinct and storable |
| SummonerDataRoundTrip.SaveThenLoad | src/summoner_data_handler.py:14-129 | loading a directory the save just created caches exactly the kept matches, in list order, and completes |
| SummonerDataRoundTrip.DataOfSaved | src/summoner_data_handler.py:14-75 | a later run that finds that directory, with the summoner uncached, yields exactly the kept matches, in list order |
| Timeline.PerFrame | 04_better_machine_learning.py:28-56 | entry `i` is frame `i`'s count of the metric |
| Timeline.CsSeries | 04_better_machine_learning.py:15 | the slot's `minionsKilled` of each frame, in order |
| Timeline.GoldSeries | 04_better_machine_learning.py:16 | the slot's `totalGold` of each frame, in order |
| Timeline.ComponentsOf | 04_better_machine_learning.py:44-46 | only the slot's own damage components are kept |
| Timeline.KillEvents | 04_better_machine_learning.py:34 | only `CHAMPION_KILL` events are kept |
| Timeline.FrameTallyStep | 04_better_machine_learning.py:33-56 | each event adds its own tally to every counter of the frame |
| Timeline.CumulativeStep | 04_better_machine_learning.py:57-66 | each frame adds its counts to the sums, and each series grows by the new sum |
| Timeline.ColumnOfCumulative | 04_better_machine_learning.py:57-66 | accumulating the five counters together gives each metric's running total |
| Timeline.RunningAt | 04_better_machine_learning.py:57-66 | entry `i` of a series is the sum of the first `i + 1` per-frame counts |
| Timeline.RunningRecurrence | 04_better_machine_learning.py:57-66 | entry 0 is the first frame's count with no baseline; each later entry adds that frame's count |
| Timeline.RunningMonotone | 04_better_machine_learning.py:57-66 | running totals of non-negative counts never decrease |
| Timeline.OnlyKillsCount | 04_better_machine_learning.py:34 | dropping the events that are not `CHAMPION_KILL` changes no tally |
| Timeline.QuietFrameRepeats | 04_better_machine_learning.py:33-66 | a frame with no kill event repeats the previous totals |
| Timeline.CountsNonNegative | 04_better_machine_learning.py:35-40 | kills, assists and deaths of a frame are never negative |
| Timeline.DamageSumsNonNegative | 04_better_machine_learning.py:44-56 | damage sums of non-negative components are non-negative |
| Timeline.DamageNonNegative | 04_better_machine_learning.py:41-56 | with non-negative components, a frame's damage done and received are non-negative |
| Timeline.SeriesNonDecreasing | 04_better_machine_learning.py:57-66 | the kill, assist and death series never decrease; the damage series never decrease when no component is negative |
| Timeline.OwnDamageIsFiltered | 04_better_machine_learning.py:44-49 | damage done is the damage of exactly the components carrying the slot's id |
| Timeline.ReceivedOnlyByVictim | 04_better_machine_learning.py:50-56 | only the victim of a kill is credited the damage it received, and all of it |
| Timeline.DamageAttributionExample | 04_better_machine_learning.py:41-49 | the killer and an assister are each credited their own components, everyone else nothing |
| Timeline.KillAndDeathInOneEvent | 04_better_machine_learning.py:35-38 | one event can count as a kill and a death of the same slot |
| Timeline.KillAndAssistInOneEvent | 04_better_machine_learning.py:37-40 | one event can count as a kill and an assist of the same slot |
| BetterMachineLearning.AnalyzeCs | 04_better_machine_learning.py:13-70 | succeeds exactly when every frame has the slot's snapshot, with the seven reference series, one entry per frame; otherwise fails with the key `str(player_index)` |
| BetterMachineLearning.AccumulateCounters | 04_better_machine_learning.py:27-66 | the five accumulated series are the running totals of the per-frame counts |
| BetterMachineLearning.TallyEvents | 04_better_machine_learning.py:28-56 | the five per-frame counters are the frame's reference tally |
| BetterMachineLearning.SlotOfLocatedPlayer | 04_better_machine_learning.py:82-83 | the slot of a located participant is in `1..n`, and entry `slot - 1` is the puuid |
| BetterMachineLearning.SecondParticipantIsSlotTwo | 04_better_machine_learning.py:82-83 | the second participant is slot 2, under key `"2"` |
| BetterMachineLearning.Diff | 04_better_machine_learning.py:90-92 | one fewer entry than the input (none for at most one), each the difference of neighbours |
| BetterMachineLearning.Labels | 04_better_machine_learning.py:99-105 | one label per cs difference; a minute is weak exactly when cs rose by less than 7 or deaths by more than 2 |
| BetterMachineLearning.DiffOfRunning | 04_better_machine_learning.py:90-92 | the differences of running totals are the values after the first |
| BetterMachineLearning.CsDiffOfTimeline | 04_better_machine_learning.py:90-92 | the cs differences are the rises of the `minionsKilled` snapshot from frame to frame |
| BetterMachineLearning.DeathsDiffOfTimeline | 04_better_machine_learning.py:90-92 | the death differences are the deaths counted in each frame after the first |
| BetterMachineLearning.LabelsByDeaths | 04_better_machine_learning.py:99-105 | a minute is weak exactly when its cs difference is below 7 or the next frame has more than 2 deaths |
| BetterMachineLearning.LabelsOfTimeline | 04_better_machine_learning.py:99-105 | one label per pair of neighbouring frames, weak exactly when the snapshot cs rose by less than 7 or the later frame had more than 2 deaths |
| SimpleMachineLearning.CreditAsParsed | 03_simple_machine_learning.py:41-43 | evaluating 03's damage condition never raises |
| SimpleMachineLearning.AsParsedIsCredited | 03_simple_machine_learning.py:41-43 | 03's damage condition, as Python parses it, is 04's: the killer or a listed assister |
| SimpleMachineLearning.MisgroupingWouldDiffer | 03_simple_machine_learning.py:41-43 | the other grouping would raise for a killer with no assist list and would not credit a killer missing from the list |
| SimpleMachineLearning.SameFrameTallies | 03_simple_machine_learning.py:33-56 | 03's per-frame counters equal 04's for every frame |
| SimpleMachineLearning.SameSeries | 03_simple_machine_learning.py:27-66 | each cumulative series 03 returns (kills, assists, deaths, damage done, damage received) equals the one 04 returns, for every timeline and slot |

## Left out

- The HTTP layer is not modelled: no URLs, headers, API key or status codes. The Riot service is the `Service` parameter, which answers each request with a document or `None`. The client's request log is part of the model.
- JSON encoding and decoding are not modelled. A file holds a `Document` or `Unreadable`, and only the read fields exist: the profile's puuid, the match's game mode, the timeline's participants and frames.
- The printing of load errors (`print` at lines 114 and 123) is left out. A file that does not parse is skipped, as the code does.
- A failed request inside `get_summoner_data_by_name` raises `TypeError` when the client indexes `None`. The model aborts the call at that point: no profile file is written, and the memo and profile cache are unchanged.
- `os.listdir` order is taken to be the order the files were created. Python does not promise any order. Each loader result therefore holds for a listing in creation order.
- `os.path.exists(summoner_name)` is modelled as "a directory of that name exists". A plain file with the summoner's name is not modelled.
- The generators are modelled eagerly as the sequence they yield. Laziness, and a consumer that stops early, are out of scope.
- `02_simple_statistical_methods.py` and `01_simple_approach.py` are not part of this model.
- The classifiers, `train_test_split`, pandas, plotting and the `gameDuration / 60` float arithmetic are not part of this model either. They are library or floating-point code.
- Integer counters, gold and damage are unbounded integers. numpy's `int64` overflow is not modelled, because the values are game statistics far below its range.
- `03_simple_machine_learning.py` shares 04's `AnalyzeCs`. The one difference is the damage condition, whose equivalence is proved in `SimpleMachineLearning`.
- SummonerDataReading.LoadReadsBackSaved: the round trip is stated only for match ids that hold no `match_`, `_timeline` or `.json`, do not end in `match`, and are not `timeline`. For the other ids, `IdEndingInMatchIsMisread` and `MatchFileOfIdTimeline` show that the code files the data under another id. Riot match ids (`EUN1_…`) are of the storable form.
- SummonerDataReading.LoadReadsBackSaved: the directory is assumed to hold only the profile and the written files. A file with any other name is not considered. `SaveListing` proves that a directory the save creates has that form.
- SummonerDataRoundTrip.SaveListing: stated for a directory the save creates. In a directory that existed, the old files come first and a file already there keeps its place; `SaveFiles` states what holds then.
- SummonerDataRoundTrip.SaveThenLoad: stated for a match list without repeats whose ids are storable (as for `LoadReadsBackSaved`) and whose files are not named like the profile file. The same holds for `DataOfSaved`.
- RiotApi.RiotApiHelper.GetMatchList: only the `summoner_puuid` form is modelled. The `summoner_name` form (lines 35-37) is never used by the handler.
- SummonerDataProperties.DownloadsAreFirstClassics: the "first `num_matches` CLASSIC matches" statement assumes every match request succeeds. With a failure, `DownloadsAreClassic` and `FetchMatchesOutcome` state what happens.
- SummonerDataHandling.Save: a negative `num_matches` is never reached by the `==` test. The model keeps that behaviour: the loop then downloads every CLASSIC match.
