/**
 * The file names of the match store (`src/summoner_data_handler.py`): a
 * summoner directory holds `<summoner>.json`, `match_<id>.json` and
 * `match_<id>_timeline.json`. The loader recovers the id by deleting every
 * occurrence of `match_`, `_timeline` and `.json`, in that order, and sorts
 * the files by suffix.
 */
module MatchFiles {
  import opened PyBuiltins

  function ProfileFileName(summonerName: string): string {
    summonerName + ".json"
  }

  function MatchFileName(matchId: string): string {
    "match_" + matchId + ".json"
  }

  function TimelineFileName(matchId: string): string {
    "match_" + matchId + "_timeline.json"
  }

  /** `filename.replace("match_", "").replace("_timeline", "").replace(".json", "")`. */
  function MatchIdOf(filename: string): string {
    RemoveAll(RemoveAll(RemoveAll(filename, "match_"), "_timeline"), ".json")
  }

  /** Loaded as a match: ends with `.json` but not with `_timeline.json`. */
  predicate IsMatchFile(filename: string) {
    EndsWith(filename, ".json") && !EndsWith(filename, "_timeline.json")
  }

  /** Loaded as a timeline: ends with `_timeline.json`. */
  predicate IsTimelineFile(filename: string) {
    EndsWith(filename, "_timeline.json")
  }

  /** An id none of whose characters could be taken for part of a file-name pattern. */
  predicate PlainId(matchId: string) {
    !Occurs("match_", matchId) && !Occurs("_timeline", matchId) && !Occurs(".json", matchId)
  }

  // ---- Removing the patterns from the fixed parts ----

  lemma FixedParts()
    ensures RemoveAll("match_", "match_") == ""
    ensures RemoveAll(".json", "match_") == ".json"
    ensures RemoveAll(".json", "_timeline") == ".json"
    ensures RemoveAll(".json", ".json") == ""
    ensures RemoveAll("_timeline.json", "_timeline") == ".json"
  {
    assert "match_"[..6] == "match_";
    assert "_timeline.json"[..9] == "_timeline";
    assert "_timeline.json"[9..] == ".json";
    assert ".json"[..5] == ".json";
  }

  /** Which characters the fixed parts of the file names hold or lack. */
  lemma Characters()
    ensures 'c' in "match_" && 'm' in "match_" && '_' in "_timeline" && '.' in ".json"
    ensures 'c' !in "_timeline.json" && 'c' !in "timeline.json" && 'c' !in "timeline"
    ensures 'm' !in ".json" && '_' !in ".json"
    ensures '_' !in "timeline.json" && '_' !in "timeline" && '.' !in "timeline"
  {
  }

  /** A pattern holding a character that `s` lacks does not occur in `s`. */
  lemma AbsentByCharacter(pat: string, s: string, c: char)
    requires c in pat && c !in s
    ensures !Occurs(pat, s)
  {
    var j :| 0 <= j < |pat| && pat[j] == c;
    forall i | 0 <= i <= |s|
      ensures !OccursAt(pat, s, i)
    {
      if i + |pat| <= |s| {
        assert s[i..i + |pat|][j] == s[i + j] != c;
      }
    }
  }

  lemma TimelineSuffixKeepsOutMatch()
    ensures RemoveAll("_timeline.json", "match_") == "_timeline.json"
  {
    Characters();
    AbsentByCharacter("match_", "_timeline.json", 'c');
    RemoveAllAbsent("_timeline.json", "match_");
  }

  // ---- Recovering the id ----

  /** Removing the leading pattern itself. */
  lemma RemoveLeading(pat: string, rest: string)
    requires pat != ""
    ensures RemoveAll(pat + rest, pat) == RemoveAll(rest, pat)
  {
    assert (pat + rest)[..|pat|] == pat;
    assert (pat + rest)[|pat|..] == rest;
  }

  /** No occurrence straddles the seam when the head of `b` differs from every later character of `pat`. */
  lemma SeamByHead(a: string, b: string, pat: string)
    requires b != [] && forall k :: 0 < k < |pat| ==> pat[k] != b[0]
    ensures NoStraddle(a, b, pat)
  {
    NoStraddleByEnds(a, b, pat);
  }

  /** `match` at the end of the id is the one way `match_` can straddle into `_timeline.json`. */
  lemma SeamBeforeTimelineSuffix(matchId: string)
    requires !EndsWith(matchId, "match")
    ensures NoStraddle(matchId, "_timeline.json", "match_")
  {
    var pat, suffix := "match_", "_timeline.json";
    forall k | 0 < k < |pat|
      ensures pat[k] != suffix[0] || !EndsWith(matchId, pat[..k])
    {
      if k == 5 {
        assert pat[..k] == "match";
      }
    }
    NoStraddleByEnds(matchId, suffix, pat);
  }

  /** Deleting `.json` from a name that ends in it and holds it nowhere else. */
  lemma DropJson(name: string)
    requires !Occurs(".json", name)
    ensures RemoveAll(name + ".json", ".json") == name
  {
    SeamByHead(name, ".json", ".json");
    RemoveAllConcat(name, ".json", ".json");
    RemoveAllAbsent(name, ".json");
    FixedParts();
    assert name + "" == name;
  }

  /** Deleting a pattern from `x + ".json"` when `x` does not hold it and the pattern does not start with `.`. */
  lemma KeepBeforeJson(x: string, pat: string)
    requires pat != "" && !Occurs(pat, x) && '.' !in pat[1..]
    requires !Occurs(pat, ".json")
    ensures RemoveAll(x + ".json", pat) == x + ".json"
  {
    forall k | 0 < k < |pat| ensures pat[k] != '.' {
      assert pat[k] == pat[1..][k - 1];
    }
    SeamByHead(x, ".json", pat);
    RemoveAllConcat(x, ".json", pat);
    RemoveAllAbsent(x, pat);
    RemoveAllAbsent(".json", pat);
  }

  /** The match file of a plain id gives back the id. */
  lemma MatchFileRoundTrip(matchId: string)
    requires PlainId(matchId)
    ensures MatchIdOf(MatchFileName(matchId)) == matchId
  {
    assert MatchFileName(matchId) == "match_" + (matchId + ".json");
    RemoveLeading("match_", matchId + ".json");
    Characters();
    AbsentByCharacter("match_", ".json", 'm');
    KeepBeforeJson(matchId, "match_");
    AbsentByCharacter("_timeline", ".json", '_');
    KeepBeforeJson(matchId, "_timeline");
    DropJson(matchId);
  }

  /** The first deletion on a timeline file: the leading `match_` only. */
  lemma TimelineFileFirstStep(matchId: string)
    requires !Occurs("match_", matchId) && !EndsWith(matchId, "match")
    ensures RemoveAll(TimelineFileName(matchId), "match_") == matchId + "_timeline.json"
  {
    var suffix := "_timeline.json";
    assert TimelineFileName(matchId) == "match_" + (matchId + suffix);
    RemoveLeading("match_", matchId + suffix);
    SeamBeforeTimelineSuffix(matchId);
    RemoveAllConcat(matchId, suffix, "match_");
    RemoveAllAbsent(matchId, "match_");
    TimelineSuffixKeepsOutMatch();
  }

  /** The second deletion on a timeline file: its `_timeline`. */
  lemma TimelineFileSecondStep(matchId: string)
    requires !Occurs("_timeline", matchId)
    ensures RemoveAll(matchId + "_timeline.json", "_timeline") == matchId + ".json"
  {
    var suffix := "_timeline.json";
    SeamByHead(matchId, suffix, "_timeline");
    RemoveAllConcat(matchId, suffix, "_timeline");
    RemoveAllAbsent(matchId, "_timeline");
    FixedParts();
  }

  /**
   * The timeline file of a plain id gives back the id, unless the id ends in
   * `match`: then `match` and the `_` of `_timeline` form a second `match_`.
   */
  lemma TimelineFileRoundTrip(matchId: string)
    requires PlainId(matchId) && !EndsWith(matchId, "match")
    ensures MatchIdOf(TimelineFileName(matchId)) == matchId
  {
    TimelineFileFirstStep(matchId);
    TimelineFileSecondStep(matchId);
    DropJson(matchId);
  }

  lemma MisreadFirstStep(x: string)
    requires !Occurs("match_", x)
    ensures RemoveAll(TimelineFileName(x + "match"), "match_") == x + "timeline.json"
  {
    var rest := "match_timeline.json";
    assert "match" + "_timeline.json" == rest;
    assert TimelineFileName(x + "match") == ("match_" + (x + "match")) + "_timeline.json";
    assert ("match_" + (x + "match")) + "_timeline.json" == "match_" + (x + rest) by {
      assert "match_" + (x + "match") == ("match_" + x) + "match";
    }
    RemoveLeading("match_", x + rest);
    SeamByHead(x, rest, "match_");
    RemoveAllConcat(x, rest, "match_");
    RemoveAllAbsent(x, "match_");
    SecondMatchPrefix();
  }

  lemma SecondMatchPrefix()
    ensures RemoveAll("match_timeline.json", "match_") == "timeline.json"
  {
    assert "match_timeline.json" == "match_" + "timeline.json";
    RemoveLeading("match_", "timeline.json");
    Characters();
    AbsentByCharacter("match_", "timeline.json", 'c');
    RemoveAllAbsent("timeline.json", "match_");
  }

  lemma MisreadSecondStep(x: string)
    requires !Occurs("_timeline", x) && !EndsWith(x, "_")
    ensures RemoveAll(x + "timeline.json", "_timeline") == x + "timeline.json"
  {
    var tail := "timeline.json";
    forall k | 0 < k < 9 ensures "_timeline"[k] != tail[0] || !EndsWith(x, "_timeline"[..k]) {
      if k == 1 {
        assert "_timeline"[..k] == "_";
      }
    }
    NoStraddleByEnds(x, tail, "_timeline");
    RemoveAllConcat(x, tail, "_timeline");
    RemoveAllAbsent(x, "_timeline");
    Characters();
    AbsentByCharacter("_timeline", tail, '_');
    RemoveAllAbsent(tail, "_timeline");
  }

  lemma MisreadThirdStep(x: string)
    requires !Occurs(".json", x)
    ensures RemoveAll(x + "timeline.json", ".json") == x + "timeline"
  {
    assert x + "timeline.json" == (x + "timeline") + ".json";
    SeamByHead(x, "timeline", ".json");
    Characters();
    AbsentByCharacter(".json", "timeline", '.');
    ConcatKeepsAbsent(x, "timeline", ".json");
    DropJson(x + "timeline");
  }

  /**
   * An id ending in `match` is misread from its timeline file: `x + "match"`
   * comes back as `x + "timeline"`, so that timeline is filed under another id.
   */
  lemma IdEndingInMatchIsMisread(x: string)
    requires PlainId(x) && !EndsWith(x, "_")
    ensures MatchIdOf(TimelineFileName(x + "match")) == x + "timeline" != x + "match"
  {
    MisreadFirstStep(x);
    MisreadSecondStep(x);
    MisreadThirdStep(x);
    assert (x + "timeline")[|x|] != (x + "match")[|x|];
  }

  // ---- Sorting the files ----

  /**
   * The match file of a plain id is loaded as a match, except for the id
   * `timeline`, whose match file `match_timeline.json` ends in `_timeline.json`.
   */
  lemma MatchFileClassified(matchId: string)
    requires PlainId(matchId)
    ensures IsMatchFile(MatchFileName(matchId)) <==> matchId != "timeline"
  {
    var f := MatchFileName(matchId);
    var t := "match_" + matchId;
    assert f == t + ".json";
    assert EndsWith(f, ".json");
    if |f| >= 14 {
      assert f[|f| - 14..] == t[|t| - 9..] + ".json";
      if |matchId| >= 9 {
        assert t[|t| - 9..] == matchId[|matchId| - 9..|matchId|];
        assert !OccursAt("_timeline", matchId, |matchId| - 9);
        assert f[|f| - 14..][..9] == t[|t| - 9..];
      } else if |matchId| == 8 {
        assert t[|t| - 9..] == "_" + matchId;
        assert ("_" + matchId)[1..] == matchId;
        assert f[|f| - 14..][..9] == t[|t| - 9..];
      } else {
        assert f[|f| - 14..][0] == t[|t| - 9..][0] == "match_"[|matchId| - 3] != '_';
      }
    }
  }

  /** A timeline file is loaded as a timeline, never as a match. */
  lemma TimelineFileClassified(matchId: string)
    ensures IsTimelineFile(TimelineFileName(matchId)) && !IsMatchFile(TimelineFileName(matchId))
  {
    var f := TimelineFileName(matchId);
    assert f == ("match_" + matchId) + "_timeline.json";
    assert f[|f| - 5..] == ".json";
  }

  /** The match file of the id `timeline` is taken for a timeline of the same id. */
  lemma MatchFileOfIdTimeline()
    ensures IsTimelineFile(MatchFileName("timeline"))
    ensures MatchIdOf(MatchFileName("timeline")) == "timeline"
  {
    Characters();
    AbsentByCharacter("match_", "timeline", 'c');
    AbsentByCharacter("_timeline", "timeline", '_');
    AbsentByCharacter(".json", "timeline", '.');
    MatchFileRoundTrip("timeline");
    assert MatchFileName("timeline") == "match" + "_timeline.json";
  }
}
