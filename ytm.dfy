/** The destination-catalog side and the transfer pipeline: each source track is
    searched by "<name> <first artist>" and either contributes the first hit's
    video id or is recorded as missed; the header mapping the caller supplies is
    flattened to raw header text; and the pipeline runs session setup, track
    fetch, name fetch, search and playlist creation in that order. The
    destination's session setup, search and playlist creation are oracles held
    in a `YtmService`. */
module Ytm {
  import opened Outcomes
  import opened PyStrings
  import opened Sequences
  import opened Spotify

  /** One search hit; `videoId` is None when the hit has no "videoId" key. */
  datatype SearchHit = SearchHit(videoId: Option<string>)
  /** The answer of a song search: it raised, or it returned a list of hits. */
  datatype SearchReply = Raised | Results(hits: seq<SearchHit>)

  /** What the match loop does with one track. */
  datatype Step =
    | Found(videoId: string)    // the first hit's id is appended to the video ids
    | Missed(entry: string)     // the track is counted and labelled as missed
    | Abort                     // the track has no artist: IndexError escapes the loop

  /** The `missed_tracks` report: `{"count": ..., "tracks": [...]}`. */
  datatype MissedTracks = MissedTracks(count: nat, tracks: seq<string>)
  datatype Matched = Matched(videoIds: seq<string>, missed: MissedTracks)

  /** A progress report at the 1-based track `index` of `total`, with the found
      and missed counts before that track is searched. */
  datatype Progress = Progress(index: nat, total: nat, found: nat, missed: nat)

  /** The search text of a track, which is also its label in the report. */
  function Query(t: Track): string
    requires |t.artists| > 0
  {
    t.name + " " + t.artists[0]
  }

  /** The video id the loop takes from a search: the first hit's, when the search
      returned a non-empty list whose first hit has one. */
  function FirstHit(reply: SearchReply): Option<string>
  {
    match reply
    case Raised => None
    case Results(hits) => if |hits| == 0 then None else hits[0].videoId
  }

  /** One iteration of the match loop, as an outcome. */
  function Resolve(t: Track, search: string -> SearchReply): Step
  {
    if |t.artists| == 0 then Abort
    else
      var q := Query(t);
      match FirstHit(search(q))
      case None => Missed(q)
      case Some(id) => Found(id)
  }

  /** The outcomes of the tracks, in order. */
  function Steps(tracks: seq<Track>, search: string -> SearchReply): (r: seq<Step>)
    ensures |r| == |tracks|
  {
    if tracks == [] then []
    else Steps(tracks[..|tracks| - 1], search) + [Resolve(tracks[|tracks| - 1], search)]
  }

  lemma {:induction false} StepAt(tracks: seq<Track>, search: string -> SearchReply, i: nat)
    requires i < |tracks|
    ensures Steps(tracks, search)[i] == Resolve(tracks[i], search)
    decreases |tracks|
  {
    if i < |tracks| - 1 {
      var init := tracks[..|tracks| - 1];
      StepAt(init, search, i);
      assert init[i] == tracks[i];
    }
  }

  function FoundOf(s: Step): Option<string>
  {
    if s.Found? then Some(s.videoId) else None
  }

  function MissedOf(s: Step): Option<string>
  {
    if s.Missed? then Some(s.entry) else None
  }

  /** How many steps are misses, counted one by one. */
  function CountMisses(steps: seq<Step>): nat
  {
    if steps == [] then 0
    else CountMisses(steps[..|steps| - 1]) + (if steps[|steps| - 1].Missed? then 1 else 0)
  }

  /** The position of the first track without artists, or the number of tracks. */
  function FirstAbort(tracks: seq<Track>): (r: nat)
    ensures r <= |tracks|
    ensures forall j :: 0 <= j < r ==> |tracks[j].artists| > 0
    ensures r < |tracks| ==> |tracks[r].artists| == 0
  {
    if tracks == [] || |tracks[0].artists| == 0 then 0
    else 1 + FirstAbort(tracks[1..])
  }

  /** A track with artists before or at the first abort lies before it. */
  lemma BeforeFirstAbort(tracks: seq<Track>, i: nat)
    requires i < |tracks| && i <= FirstAbort(tracks) && |tracks[i].artists| > 0
    ensures i < FirstAbort(tracks)
  {
  }

  /** What `get_video_ids` returns or raises. */
  function SearchAll(tracks: seq<Track>, search: string -> SearchReply): Result<Matched>
  {
    if FirstAbort(tracks) < |tracks| then Err(IndexError)
    else
      var steps := Steps(tracks, search);
      var ids := FilterMap(steps, FoundOf);
      if ids == [] then Err(NoSongsFound)
      else Ok(Matched(ids, MissedTracks(CountMisses(steps), FilterMap(steps, MissedOf))))
  }

  /** The progress trigger at 1-based index `i` of `n` tracks. */
  predicate ProgressAt(i: int, n: int)
  {
    i % 50 == 0 || i <= 5 || i > n - 5
  }

  /** The video ids and the missed report after the loop has handled the
      tracks whose outcomes are `done`, accumulated one outcome at a time. */
  function Tally(done: seq<Step>): Matched
  {
    if done == [] then Matched([], MissedTracks(0, []))
    else
      var m := Tally(done[..|done| - 1]);
      match done[|done| - 1]
      case Found(id) => Matched(m.videoIds + [id], m.missed)
      case Missed(entry) => Matched(m.videoIds, MissedTracks(m.missed.count + 1, m.missed.tracks + [entry]))
      case Abort => m
  }

  /** The reports made while the loop handles the tracks whose outcomes are
      `done`, out of `total`: before the `k`-th track it reports `k` with the
      found and missed counts of the first `k - 1` outcomes. */
  function ProgressUpTo(done: seq<Step>, total: nat): seq<Progress>
  {
    if done == [] then []
    else
      var k, before := |done|, done[..|done| - 1];
      var so := Tally(before);
      var report := if ProgressAt(k, total) then [Progress(k, total, |so.videoIds|, so.missed.count)] else [];
      ProgressUpTo(before, total) + report
  }

  /** Every report the loop makes: a track without artists raises before its own
      report. */
  function ProgressLog(tracks: seq<Track>, search: string -> SearchReply): seq<Progress>
  {
    ProgressUpTo(Steps(tracks, search)[..FirstAbort(tracks)], |tracks|)
  }

  /** The accumulated state is the filtered outcomes: the found ids in order, and
      the missed count with the missed labels in order. */
  lemma {:induction false} TallyFilters(done: seq<Step>)
    ensures Tally(done) == Matched(FilterMap(done, FoundOf), MissedTracks(CountMisses(done), FilterMap(done, MissedOf)))
    decreases |done|
  {
    if done != [] {
      var init, last := done[..|done| - 1], done[|done| - 1];
      TallyFilters(init);
      assert done == init + [last];
      FilterMapSnoc(init, last, FoundOf);
      FilterMapSnoc(init, last, MissedOf);
    }
  }

  /** Handling one more outcome `s` adds the report made before it, if any. */
  lemma ProgressSnoc(done: seq<Step>, s: Step, total: nat, report: seq<Progress>)
    requires report == if ProgressAt(|done| + 1, total)
      then [Progress(|done| + 1, total, |Tally(done).videoIds|, Tally(done).missed.count)]
      else []
    ensures ProgressUpTo(done + [s], total) == ProgressUpTo(done, total) + report
  {
    assert (done + [s])[..|done|] == done;
  }

  /** The progress log statement of the match loop, before the `index`-th track
      is searched: it appends the report for that index when the trigger fires.
      This is a piece of the loop body of `GetVideoIds`, kept as its own method so
      that the loop's proof stays small; `ProgressUpTo` is its specification, and
      `ProgressUpToFacts` and `ProgressLogFacts` state what that log contains. */
  method LogProgress(progress: seq<Progress>, ghost done: seq<Step>, ghost s: Step,
                     index: nat, total: nat, sofar: Matched) returns (logged: seq<Progress>)
    requires index == |done| + 1 && sofar == Tally(done)
    requires progress == ProgressUpTo(done, total)
    ensures logged == ProgressUpTo(done + [s], total)
  {
    var report := if ProgressAt(index, total) then [Progress(index, total, |sofar.videoIds|, sofar.missed.count)] else [];
    ProgressSnoc(done, s, total, report);
    logged := progress + report;
  }

  /** `get_video_ids`, which also hands out its progress reports. */
  method GetVideoIds(tracks: seq<Track>, search: string -> SearchReply)
    returns (result: Result<Matched>, progress: seq<Progress>)
    ensures result == SearchAll(tracks, search)
    ensures progress == ProgressLog(tracks, search)
  {
    var videoIds: seq<string> := [];
    var missed := MissedTracks(0, []);
    progress := [];
    ghost var steps := Steps(tracks, search);
    ghost var done: seq<Step> := [];
    var i := 0;
    while i < |tracks|
      invariant 0 <= i <= |tracks|
      invariant i <= FirstAbort(tracks)
      invariant done == steps[..i]
      invariant Matched(videoIds, missed) == Tally(done)
      invariant progress == ProgressUpTo(done, |tracks|)
    {
      var track := tracks[i];
      if |track.artists| == 0 {
        // `track['artists'][0]` raises inside the try, and again in the handler
        result := Err(IndexError);
        return;
      }
      BeforeFirstAbort(tracks, i);
      var query := Query(track);
      progress := LogProgress(progress, done, steps[i], i + 1, |tracks|, Matched(videoIds, missed));
      var hit := FirstHit(search(query));
      StepAt(tracks, search, i);
      if hit.Some? {
        videoIds := videoIds + [hit.value];
      } else {
        missed := MissedTracks(missed.count + 1, missed.tracks + [query]);
      }
      PrefixSnoc(steps, i);
      done := done + [steps[i]];
      i := i + 1;
    }
    assert steps[..i] == steps;
    TallyFilters(steps);
    if |videoIds| == 0 {
      result := Err(NoSongsFound);
    } else {
      result := Ok(Matched(videoIds, missed));
    }
  }

  /** The miss counter agrees with the number of missed labels. */
  lemma {:induction false} CountMissesLength(steps: seq<Step>)
    ensures CountMisses(steps) == |FilterMap(steps, MissedOf)|
    decreases |steps|
  {
    if steps != [] {
      var init, last := steps[..|steps| - 1], steps[|steps| - 1];
      CountMissesLength(init);
      assert steps == init + [last];
      FilterMapSnoc(init, last, MissedOf);
    }
  }

  /** Every track before the first one without artists is found or missed. */
  lemma StepsSearched(tracks: seq<Track>, search: string -> SearchReply, i: nat)
    requires i < FirstAbort(tracks)
    ensures Steps(tracks, search)[i].Found? || Steps(tracks, search)[i].Missed?
  {
    StepAt(tracks, search, i);
  }

  /** When every track has artists, each is counted once: as a find or as a
      miss, and the miss counter agrees with the missed labels. */
  lemma SearchedCounts(tracks: seq<Track>, search: string -> SearchReply)
    requires FirstAbort(tracks) == |tracks|
    ensures var steps := Steps(tracks, search);
      && |FilterMap(steps, FoundOf)| + |FilterMap(steps, MissedOf)| == |tracks|
      && CountMisses(steps) == |FilterMap(steps, MissedOf)|
  {
    var steps := Steps(tracks, search);
    var found, missed := FoundOf, MissedOf;
    forall i | 0 <= i < |steps|
      ensures found(steps[i]).Some? != missed(steps[i]).Some?
    {
      StepsSearched(tracks, search, i);
    }
    FilterMapPartition(steps, found, missed);
    CountMissesLength(steps);
  }

  /** When every track has artists, no video id is found exactly when every
      track is missed. */
  lemma NoneFound(tracks: seq<Track>, search: string -> SearchReply)
    requires FirstAbort(tracks) == |tracks|
    ensures FilterMap(Steps(tracks, search), FoundOf) == [] <==>
      forall j :: 0 <= j < |tracks| ==> Resolve(tracks[j], search).Missed?
  {
    var steps := Steps(tracks, search);
    FilterMapPositions(steps, FoundOf);
    forall j | 0 <= j < |tracks|
      ensures steps[j] == Resolve(tracks[j], search)
      ensures steps[j].Found? || steps[j].Missed?
    {
      StepAt(tracks, search, j);
      StepsSearched(tracks, search, j);
    }
  }

  /** `get_video_ids` raises IndexError exactly when some track has no artists,
      raises "No songs found" exactly when every track has artists and is
      missed, and otherwise accounts for every track: each is found or
      missed, and the miss count is the number of missed labels. */
  lemma SearchAllOutcome(tracks: seq<Track>, search: string -> SearchReply)
    ensures SearchAll(tracks, search) == Err(IndexError) <==>
      exists j :: 0 <= j < |tracks| && |tracks[j].artists| == 0
    ensures SearchAll(tracks, search) == Err(NoSongsFound) <==>
      forall j :: 0 <= j < |tracks| ==> Resolve(tracks[j], search).Missed?
    ensures SearchAll(tracks, search).Ok? ==>
      var m := SearchAll(tracks, search).value;
      && |m.videoIds| > 0
      && m.missed.count == |m.missed.tracks|
      && |m.videoIds| + m.missed.count == |tracks|
  {
    if FirstAbort(tracks) == |tracks| {
      NoneFound(tracks, search);
      SearchedCounts(tracks, search);
    }
  }

  /** Where the found ids come from: the first hits of the found tracks, in
      track order. */
  lemma FoundOrder(tracks: seq<Track>, search: string -> SearchReply)
    requires FirstAbort(tracks) == |tracks|
    ensures var steps := Steps(tracks, search);
      var ids, found := FilterMap(steps, FoundOf), Kept(steps, FoundOf);
      && |found| == |ids|
      && (forall j :: 0 <= j < |found| ==>
            found[j] < |tracks| && Resolve(tracks[found[j]], search) == Found(ids[j]))
      && (forall j, k :: 0 <= j < k < |found| ==> found[j] < found[k])
      && (forall i :: 0 <= i < |tracks| ==> (i in found <==> Resolve(tracks[i], search).Found?))
  {
    var steps := Steps(tracks, search);
    FilterMapPositions(steps, FoundOf);
    forall i | 0 <= i < |tracks|
      ensures steps[i] == Resolve(tracks[i], search)
    {
      StepAt(tracks, search, i);
    }
  }

  /** Where the missed labels come from: the queries of the tracks whose search
      gave no video id, in track order. */
  lemma MissedOrder(tracks: seq<Track>, search: string -> SearchReply)
    requires FirstAbort(tracks) == |tracks|
    ensures var steps := Steps(tracks, search);
      var labels, lost := FilterMap(steps, MissedOf), Kept(steps, MissedOf);
      && |lost| == |labels|
      && (forall j :: 0 <= j < |lost| ==>
            lost[j] < |tracks| && Resolve(tracks[lost[j]], search) == Missed(labels[j]))
      && (forall j, k :: 0 <= j < k < |lost| ==> lost[j] < lost[k])
      && (forall i :: 0 <= i < |tracks| ==> (i in lost <==> Resolve(tracks[i], search).Missed?))
  {
    var steps := Steps(tracks, search);
    FilterMapPositions(steps, MissedOf);
    forall i | 0 <= i < |tracks|
      ensures steps[i] == Resolve(tracks[i], search)
    {
      StepAt(tracks, search, i);
    }
  }

  /** On success, the video ids are the first hits of the found tracks in track
      order, the missed labels are the queries of the other tracks in track
      order, and every track is on exactly one side. */
  lemma SearchAllOrder(tracks: seq<Track>, search: string -> SearchReply)
    requires SearchAll(tracks, search).Ok?
    ensures var m, steps := SearchAll(tracks, search).value, Steps(tracks, search);
      var found, lost := Kept(steps, FoundOf), Kept(steps, MissedOf);
      && |found| == |m.videoIds| && |lost| == |m.missed.tracks|
      && (forall j :: 0 <= j < |found| ==>
            found[j] < |tracks| && Resolve(tracks[found[j]], search) == Found(m.videoIds[j]))
      && (forall j :: 0 <= j < |lost| ==>
            lost[j] < |tracks| && Resolve(tracks[lost[j]], search) == Missed(m.missed.tracks[j]))
      && (forall j, k :: 0 <= j < k < |found| ==> found[j] < found[k])
      && (forall j, k :: 0 <= j < k < |lost| ==> lost[j] < lost[k])
      && (forall i :: 0 <= i < |tracks| ==> (i in found <==> i !in lost))
  {
    FoundOrder(tracks, search);
    MissedOrder(tracks, search);
  }

  /** The tracks before `m`, when all of them have artists, are each counted
      once: as a find or as a miss. */
  lemma PrefixCounts(tracks: seq<Track>, search: string -> SearchReply, m: nat)
    requires m <= FirstAbort(tracks)
    ensures var done := Steps(tracks, search)[..m];
      |FilterMap(done, FoundOf)| + |FilterMap(done, MissedOf)| == m
  {
    var done := Steps(tracks, search)[..m];
    var found, missed := FoundOf, MissedOf;
    forall i | 0 <= i < |done|
      ensures found(done[i]).Some? != missed(done[i]).Some?
    {
      StepsSearched(tracks, search, i);
    }
    FilterMapPartition(done, found, missed);
  }

  /** The tally of the tracks before `m`, when all of them have artists. */
  lemma PrefixTally(tracks: seq<Track>, search: string -> SearchReply, m: nat)
    requires m <= FirstAbort(tracks)
    ensures var done := Steps(tracks, search)[..m];
      && |Tally(done).videoIds| == |FilterMap(done, FoundOf)|
      && Tally(done).missed.count == |FilterMap(done, MissedOf)|
      && |Tally(done).videoIds| + Tally(done).missed.count == m
  {
    var done := Steps(tracks, search)[..m];
    TallyFilters(done);
    CountMissesLength(done);
    PrefixCounts(tracks, search, m);
  }

  /** A report the loop over the outcomes `done` may make: at a triggered index
      of a handled track, with the tally of the tracks before that index. */
  predicate ReportFits(e: Progress, done: seq<Step>, total: nat)
  {
    && 1 <= e.index <= |done|
    && e.total == total
    && ProgressAt(e.index, total)
    && e.found == |Tally(done[..e.index - 1]).videoIds|
    && e.missed == Tally(done[..e.index - 1]).missed.count
  }

  /** The reports of the loop over the outcomes `done` all fit, come in
      increasing index order, and cover every triggered index. */
  lemma {:induction false} ProgressUpToFacts(done: seq<Step>, total: nat)
    ensures forall j :: 0 <= j < |ProgressUpTo(done, total)| ==> ReportFits(ProgressUpTo(done, total)[j], done, total)
    ensures var log := ProgressUpTo(done, total);
      forall j, k :: 0 <= j < k < |log| ==> log[j].index < log[k].index
    ensures var log := ProgressUpTo(done, total);
      forall i :: 1 <= i <= |done| && ProgressAt(i, total) ==> exists j :: 0 <= j < |log| && log[j].index == i
    decreases |done|
  {
    if done != [] {
      var n, init := |done|, done[..|done| - 1];
      ProgressUpToFacts(init, total);
      var earlier := ProgressUpTo(init, total);
      var log := ProgressUpTo(done, total);
      assert log[..|earlier|] == earlier;
      forall j | 0 <= j < |earlier|
        ensures log[j] == earlier[j] && ReportFits(log[j], done, total)
      {
        assert log[j] == log[..|earlier|][j];
        assert ReportFits(earlier[j], init, total);
        assert done[..earlier[j].index - 1] == init[..earlier[j].index - 1];
      }
      if ProgressAt(n, total) {
        assert log[|earlier|].index == n;
      }
    }
  }

  /** A report `get_video_ids` may make for `tracks`: at a triggered index of a
      track that was searched, with the numbers of tracks found and missed
      before that index, which together are the index less one. */
  predicate ReportMade(e: Progress, tracks: seq<Track>, search: string -> SearchReply)
  {
    && 1 <= e.index <= FirstAbort(tracks)
    && e.total == |tracks|
    && ProgressAt(e.index, |tracks|)
    && var before := Steps(tracks, search)[..e.index - 1];
       && e.found == |FilterMap(before, FoundOf)|
       && e.missed == |FilterMap(before, MissedOf)|
       && e.found + e.missed == e.index - 1
  }

  /** The progress reports of `get_video_ids` are all made as above, come in
      increasing index order, and cover every triggered index up to the first
      track without artists. */
  lemma ProgressLogFacts(tracks: seq<Track>, search: string -> SearchReply)
    ensures forall j :: 0 <= j < |ProgressLog(tracks, search)| ==>
      ReportMade(ProgressLog(tracks, search)[j], tracks, search)
    ensures var log := ProgressLog(tracks, search);
      forall j, k :: 0 <= j < k < |log| ==> log[j].index < log[k].index
    ensures var log := ProgressLog(tracks, search);
      forall i :: 1 <= i <= FirstAbort(tracks) && ProgressAt(i, |tracks|) ==>
        exists j :: 0 <= j < |log| && log[j].index == i
  {
    var steps := Steps(tracks, search);
    var done := steps[..FirstAbort(tracks)];
    var log := ProgressLog(tracks, search);
    ProgressUpToFacts(done, |tracks|);
    forall j | 0 <= j < |log|
      ensures ReportMade(log[j], tracks, search)
    {
      var m := log[j].index - 1;
      assert ReportFits(log[j], done, |tracks|);
      assert done[..m] == steps[..m];
      PrefixTally(tracks, search, m);
    }
  }

  /** A batch whose tracks all have artists reports its first and its last
      track. */
  lemma ProgressEnds(tracks: seq<Track>, search: string -> SearchReply)
    requires |tracks| > 0 && FirstAbort(tracks) == |tracks|
    ensures var log := ProgressLog(tracks, search);
      |log| > 0 && log[0].index == 1 && log[|log| - 1].index == |tracks|
  {
    var log := ProgressLog(tracks, search);
    ProgressLogFacts(tracks, search);
    assert ProgressAt(1, |tracks|);
    assert ProgressAt(|tracks|, |tracks|);
    var first :| 0 <= first < |log| && log[first].index == 1;
    var last :| 0 <= last < |log| && log[last].index == |tracks|;
    assert first == 0;
    assert last == |log| - 1;
  }

  /** The headers handed to playlist creation: a mapping of header names to
      values, in insertion order, or header text already in raw form. */
  datatype Headers = HeaderDict(entries: seq<(string, string)>) | HeaderText(text: string)

  /** The raw line of one header entry; an empty value is skipped. */
  function HeaderLine(entry: (string, string)): Option<string>
  {
    if entry.1 == "" then None else Some(entry.0 + ": " + entry.1)
  }

  /** The raw header text given to the destination's session setup. */
  function RawHeaders(headers: Headers): string
  {
    match headers
    case HeaderDict(entries) => Join(FilterMap(entries, HeaderLine), "\n")
    case HeaderText(text) => text
  }

  /** The header conversion at the start of `create_ytm_playlist`. */
  method FlattenHeaders(headers: Headers) returns (raw: string)
    ensures raw == RawHeaders(headers)
  {
    match headers
    case HeaderText(text) =>
      raw := text;
    case HeaderDict(entries) =>
      var lines: seq<string> := [];
      var i := 0;
      while i < |entries|
        invariant 0 <= i <= |entries|
        invariant lines == FilterMap(entries[..i], HeaderLine)
      {
        var (key, value) := entries[i];
        PrefixSnoc(entries, i);
        FilterMapSnoc(entries[..i], entries[i], HeaderLine);
        if value != "" {
          lines := lines + [key + ": " + value];
        }
        i := i + 1;
      }
      assert entries[..i] == entries;
      raw := Join(lines, "\n");
  }

  /** The lines of a flattened mapping are "<name>: <value>" for exactly the
      entries with a non-empty value, in insertion order. */
  lemma HeaderLinesKept(entries: seq<(string, string)>)
    ensures var lines, kept := FilterMap(entries, HeaderLine), Kept(entries, HeaderLine);
      && |kept| == |lines|
      && (forall j :: 0 <= j < |kept| ==>
            kept[j] < |entries| && entries[kept[j]].1 != "" &&
            lines[j] == entries[kept[j]].0 + ": " + entries[kept[j]].1)
      && (forall j, k :: 0 <= j < k < |kept| ==> kept[j] < kept[k])
      && (forall i :: 0 <= i < |entries| ==> (entries[i].1 != "" <==> i in kept))
  {
    FilterMapPositions(entries, HeaderLine);
  }

  /** No header line holds a line break when no name or value does. */
  lemma HeaderLinesFree(entries: seq<(string, string)>)
    requires forall k :: 0 <= k < |entries| ==> '\n' !in entries[k].0 && '\n' !in entries[k].1
    ensures var lines := FilterMap(entries, HeaderLine);
      forall j :: 0 <= j < |lines| ==> !Contains(lines[j], "\n")
  {
    var lines, kept := FilterMap(entries, HeaderLine), Kept(entries, HeaderLine);
    HeaderLinesKept(entries);
    forall j | 0 <= j < |lines|
      ensures !Contains(lines[j], "\n")
    {
      var e := entries[kept[j]];
      assert '\n' !in e.0 + ": " + e.1;
      ContainsChar(lines[j], '\n');
    }
  }

  /** When no name or value holds a line break and some value is non-empty,
      splitting the raw text at line breaks gives back the header lines. */
  lemma RawHeadersSplit(entries: seq<(string, string)>)
    requires forall k :: 0 <= k < |entries| ==> '\n' !in entries[k].0 && '\n' !in entries[k].1
    requires exists k :: 0 <= k < |entries| && entries[k].1 != ""
    ensures Split(RawHeaders(HeaderDict(entries)), "\n") == FilterMap(entries, HeaderLine)
  {
    var lines := FilterMap(entries, HeaderLine);
    HeaderLinesKept(entries);
    var k :| 0 <= k < |entries| && entries[k].1 != "";
    assert k in Kept(entries, HeaderLine);
    HeaderLinesFree(entries);
    SplitJoin(lines, "\n");
  }

  /** The playlist-creation request: title, description, privacy status and
      video ids. */
  datatype NewPlaylist = NewPlaylist(title: string, description: string, privacy: string, videoIds: seq<string>)

  /** The destination service as the pipeline sees it: session setup from raw
      header text (false when it raises), the song search, and playlist
      creation (false when it raises). */
  datatype YtmService = YtmService(
    setup: string -> bool,
    search: string -> SearchReply,
    create: NewPlaylist -> bool)

  /** The market the pipeline fetches tracks for. */
  const Market := "IN"

  /** What `create_ytm_playlist` returns or raises, with the creation request it
      sends, if any. */
  ghost function Transfer(link: string, headers: Headers, spotify: SpotifyEnv,
                          fetchName: string -> Result<string>, ytm: YtmService): (Result<MissedTracks>, Option<NewPlaylist>)
    requires ytm.setup(RawHeaders(headers)) ==> PagingEnds(link, Market, spotify)
  {
    if !ytm.setup(RawHeaders(headers)) then (Err(SetupFailed), None)
    else match AllTracks(link, Market, spotify)
      case Err(e) => (Err(e), None)
      case Ok(tracks) =>
        match GetPlaylistName(link, fetchName)
        case Err(e) => (Err(e), None)
        case Ok(name) =>
          match SearchAll(tracks, ytm.search)
          case Err(e) => (Err(e), None)
          case Ok(m) =>
            var request := NewPlaylist(name, "", "PRIVATE", m.videoIds);
            (if ytm.create(request) then Ok(m.missed) else Err(CreateFailed), Some(request))
  }

  /** `create_ytm_playlist`: also hands out the creation request it sent. */
  method CreateYtmPlaylist(link: string, headers: Headers, spotify: SpotifyEnv,
                           fetchName: string -> Result<string>, ytm: YtmService)
    returns (result: Result<MissedTracks>, created: Option<NewPlaylist>)
    requires ytm.setup(RawHeaders(headers)) ==> PagingEnds(link, Market, spotify)
    ensures (result, created) == Transfer(link, headers, spotify, fetchName, ytm)
  {
    created := None;
    var raw := FlattenHeaders(headers);
    if !ytm.setup(raw) {
      result := Err(SetupFailed);
      return;
    }
    var tracks, tokenRequested, fetched := GetAllTracks(link, Market, spotify);
    if tracks.Err? {
      result := Err(tracks.error);
      return;
    }
    var name := GetPlaylistName(link, fetchName);
    if name.Err? {
      result := Err(name.error);
      return;
    }
    var matched, progress := GetVideoIds(tracks.value, ytm.search);
    if matched.Err? {
      result := Err(matched.error);
      return;
    }
    var request := NewPlaylist(name.value, "", "PRIVATE", matched.value.videoIds);
    created := Some(request);
    if ytm.create(request) {
      result := Ok(matched.value.missed);
    } else {
      result := Err(CreateFailed);
    }
  }

  /** A playlist is requested exactly when setup, the track fetch, the name
      fetch and the search all succeed; it is private, has an empty description,
      carries the fetched name and at least one video id, and together with the
      missed count accounts for every fetched track. The call succeeds exactly
      when a request was sent and accepted, and then reports the missed tracks.
      A failed setup or a link without "/playlist/" stops the pipeline before
      anything else. */
  lemma TransferOutcome(link: string, headers: Headers, spotify: SpotifyEnv,
                        fetchName: string -> Result<string>, ytm: YtmService)
    requires ytm.setup(RawHeaders(headers)) ==> PagingEnds(link, Market, spotify)
    ensures !ytm.setup(RawHeaders(headers)) ==>
      Transfer(link, headers, spotify, fetchName, ytm) == (Err(SetupFailed), None)
    ensures ytm.setup(RawHeaders(headers)) ==>
      var outcome := Transfer(link, headers, spotify, fetchName, ytm);
      var tracks, name := AllTracks(link, Market, spotify), GetPlaylistName(link, fetchName);
      && (outcome.1.Some? <==> tracks.Ok? && name.Ok? && SearchAll(tracks.value, ytm.search).Ok?)
      && (outcome.1.Some? ==>
            var request := outcome.1.value;
            && request.title == name.value
            && request.description == ""
            && request.privacy == "PRIVATE"
            && request.videoIds == SearchAll(tracks.value, ytm.search).value.videoIds
            && |request.videoIds| > 0
            && |request.videoIds| + SearchAll(tracks.value, ytm.search).value.missed.count == |tracks.value|)
      && (outcome.0.Ok? ==> outcome.0.value == SearchAll(tracks.value, ytm.search).value.missed)
      && (!Contains(link, PlaylistMarker) ==> outcome.0 == Err(IndexError))
    ensures var outcome := Transfer(link, headers, spotify, fetchName, ytm);
      outcome.0.Ok? <==> outcome.1.Some? && ytm.create(outcome.1.value)
  {
    if ytm.setup(RawHeaders(headers)) {
      AllTracksErrors(link, Market, spotify);
      if AllTracks(link, Market, spotify).Ok? {
        SearchAllOutcome(AllTracks(link, Market, spotify).value, ytm.search);
      }
    }
  }
}
