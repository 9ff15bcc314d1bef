/**
 * The split plan: one left-to-right pass over the tracks of a cue sheet that
 * carries the current audio file forward and decides, for each track, the
 * source file, the start and end of the cut, the output name, the metadata
 * and the cover image. Where the program calls `Split` (a bounded cut) or
 * `SplitLast` (a cut to the end of the file, whose length is probed), this
 * model appends a `SplitPlan` record with end `At(t)` or `Open`.
 */
module Plan {
  import opened Cue
  import opened CutPoint
  import opened Naming

  /** The end of a cut: a time from the cue sheet, or the end of the source file. */
  datatype End = At(t: real) | Open

  /** The tags written into the output: title, artist, album and track number. */
  datatype Metadata = Metadata(title: string, artist: string, album: string, track: nat)

  /** The arguments of one `Split` or `SplitLast` call. */
  datatype SplitPlan = SplitPlan(
    source: string,
    start: real,
    end: End,
    outDir: string,
    outFileName: string,
    meta: Metadata,
    cover: string,
    options: Options)

  /** The track's performer, or the album performer when the track names none. */
  function EffectiveArtist(cue: CueSheet, t: Track): string {
    if t.performer == "" then cue.performer else t.performer
  }

  /**
   * The audio file in force after the first `k` tracks: the FILE of the
   * latest of them that declares one, "" before any does.
   */
  function CarriedFile(tracks: seq<Track>, k: nat): string
    requires k <= |tracks|
  {
    if k == 0 then ""
    else if tracks[k - 1].dataFile != "" then tracks[k - 1].dataFile
    else CarriedFile(tracks, k - 1)
  }

  /**
   * Track `i`'s cut is open when it is the last track, or when the next track
   * starts a new FILE; otherwise it ends at the next track's cut point.
   */
  function EndOf(tracks: seq<Track>, i: nat): End
    requires i < |tracks|
  {
    if i == |tracks| - 1 || tracks[i + 1].dataFile != "" then Open
    else At(GetCutPoint(tracks[i + 1].indices))
  }

  /** The plan for track `i` (0-based), which is track number `i + 1`. */
  function PlanFor(cue: CueSheet, i: nat, cueDir: string, outDir: string, opts: Options): SplitPlan
    requires i < |cue.tracks|
  {
    var t := cue.tracks[i];
    SplitPlan(
      InDirectory(cueDir, CarriedFile(cue.tracks, i + 1)),
      GetCutPoint(t.indices),
      EndOf(cue.tracks, i),
      outDir,
      OutputName(i + 1, t.title),
      Metadata(t.title, EffectiveArtist(cue, t), cue.title, i + 1),
      CoverPath(cueDir),
      opts)
  }

  /** The plan the pass appends for track `i`, from the carried file and artist, is `PlanFor(i)`. */
  lemma PlanStep(cue: CueSheet, i: nat, cueDir: string, outDir: string, opts: Options,
                 audioFileName: string, artistName: string, end: End)
    requires i < |cue.tracks|
    requires audioFileName == CarriedFile(cue.tracks, i + 1)
    requires artistName == EffectiveArtist(cue, cue.tracks[i])
    requires end == EndOf(cue.tracks, i)
    ensures PlanFor(cue, i, cueDir, outDir, opts) ==
      SplitPlan(InDirectory(cueDir, audioFileName), GetCutPoint(cue.tracks[i].indices), end,
        outDir, OutputName(i + 1, cue.tracks[i].title),
        Metadata(cue.tracks[i].title, artistName, cue.title, i + 1), CoverPath(cueDir), opts)
  {
  }

  /** `plans` is the plan of `cue` for its first `k` tracks, in track order. */
  ghost predicate IsPlanPrefix(plans: seq<SplitPlan>, k: nat, cue: CueSheet, cueDir: string, outDir: string, opts: Options)
    requires k <= |cue.tracks|
  {
    |plans| == k &&
    forall i :: 0 <= i < k ==> plans[i] == PlanFor(cue, i, cueDir, outDir, opts)
  }

  /** Appending the plan of the next track keeps a plan prefix. */
  lemma PrefixExtend(plans: seq<SplitPlan>, k: nat, cue: CueSheet, cueDir: string, outDir: string, opts: Options, plan: SplitPlan)
    requires k < |cue.tracks|
    requires IsPlanPrefix(plans, k, cue, cueDir, outDir, opts)
    requires plan == PlanFor(cue, k, cueDir, outDir, opts)
    ensures IsPlanPrefix(plans + [plan], k + 1, cue, cueDir, outDir, opts)
  {
  }

  /** `plans` is the plan of `cue`: one entry per track, in track order. */
  ghost predicate IsPlanOf(plans: seq<SplitPlan>, cue: CueSheet, cueDir: string, outDir: string, opts: Options) {
    IsPlanPrefix(plans, |cue.tracks|, cue, cueDir, outDir, opts)
  }

  /**
   * Builds the plan of the cue sheet. A sheet without tracks yields `None`:
   * the program then fails on `cue.Tracks[^1]` before any cut is made.
   */
  method StartSplit(cue: CueSheet, cueDir: string, outDir: string, opts: Options)
    returns (r: Option<seq<SplitPlan>>)
    ensures r.None? <==> |cue.tracks| == 0
    ensures r.Some? ==> IsPlanOf(r.value, cue, cueDir, outDir, opts)
  {
    var tracks := cue.tracks;
    var audioFileName := "";
    var artistName := "";
    var plans: seq<SplitPlan> := [];
    var i := 0;
    while i < |tracks| - 1
      invariant 0 <= i && (|tracks| > 0 ==> i <= |tracks| - 1) && (|tracks| == 0 ==> i == 0)
      invariant IsPlanPrefix(plans, i, cue, cueDir, outDir, opts)
      invariant audioFileName == CarriedFile(tracks, i)
    {
      var track := tracks[i];
      artistName := if track.performer == "" then cue.performer else track.performer;
      if track.dataFile != "" {
        audioFileName := track.dataFile;
      }
      assert audioFileName == CarriedFile(tracks, i + 1);
      var plan;
      if tracks[i + 1].dataFile != "" {
        // the last track of this FILE: cut to the end of the file
        plan := SplitPlan(InDirectory(cueDir, audioFileName), GetCutPoint(track.indices), Open,
          outDir, OutputName(i + 1, track.title),
          Metadata(track.title, artistName, cue.title, i + 1), CoverPath(cueDir), opts);
      } else {
        var startCutPoint := GetCutPoint(track.indices);
        var endCutPoint := GetCutPoint(tracks[i + 1].indices);
        plan := SplitPlan(InDirectory(cueDir, audioFileName), startCutPoint, At(endCutPoint),
          outDir, OutputName(i + 1, track.title),
          Metadata(track.title, artistName, cue.title, i + 1), CoverPath(cueDir), opts);
      }
      PlanStep(cue, i, cueDir, outDir, opts, audioFileName, artistName, plan.end);
      PrefixExtend(plans, i, cue, cueDir, outDir, opts, plan);
      plans := plans + [plan];
      i := i + 1;
    }
    if |tracks| == 0 {
      return None;
    }
    var lastTrack := tracks[|tracks| - 1];
    artistName := if lastTrack.performer == "" then cue.performer else lastTrack.performer;
    if lastTrack.dataFile != "" {
      audioFileName := lastTrack.dataFile;
    }
    var last := SplitPlan(InDirectory(cueDir, audioFileName), GetCutPoint(lastTrack.indices), Open,
      outDir, OutputName(|tracks|, lastTrack.title),
      Metadata(lastTrack.title, artistName, cue.title, |tracks|), CoverPath(cueDir), opts);
    PlanStep(cue, |tracks| - 1, cueDir, outDir, opts, audioFileName, artistName, Open);
    PrefixExtend(plans, |tracks| - 1, cue, cueDir, outDir, opts, last);
    plans := plans + [last];
    r := Some(plans);
  }

  /** Track `j` declares the file in force after `k` tracks: no later one of them declares another. */
  ghost predicate LatestDeclaration(tracks: seq<Track>, j: nat, k: nat)
    requires j < k <= |tracks|
  {
    tracks[j].dataFile != "" && forall l :: j < l < k ==> tracks[l].dataFile == ""
  }

  /**
   * The carried file is exactly the FILE of the latest declaring track, and ""
   * while no track has declared one.
   */
  lemma {:induction false} CarriedFileIsLatestDeclared(tracks: seq<Track>, k: nat)
    requires k <= |tracks|
    ensures (forall j :: 0 <= j < k ==> tracks[j].dataFile == "") <==> CarriedFile(tracks, k) == ""
    ensures forall j :: 0 <= j < k && LatestDeclaration(tracks, j, k) ==> CarriedFile(tracks, k) == tracks[j].dataFile
  {
    if k > 0 {
      CarriedFileIsLatestDeclared(tracks, k - 1);
      var last := tracks[k - 1].dataFile;
      if last != "" {
        assert CarriedFile(tracks, k) == last;
        forall j | 0 <= j < k && LatestDeclaration(tracks, j, k)
          ensures CarriedFile(tracks, k) == tracks[j].dataFile
        {
          assert j == k - 1;
        }
      } else {
        assert CarriedFile(tracks, k) == CarriedFile(tracks, k - 1);
        forall j | 0 <= j < k && LatestDeclaration(tracks, j, k)
          ensures CarriedFile(tracks, k) == tracks[j].dataFile
        {
          assert j < k - 1;
          assert LatestDeclaration(tracks, j, k - 1);
        }
      }
    }
  }

  /** A track that declares a FILE is cut from that file. */
  lemma SourceOfDeclaringTrack(cue: CueSheet, i: nat, cueDir: string, outDir: string, opts: Options)
    requires i < |cue.tracks| && cue.tracks[i].dataFile != ""
    ensures PlanFor(cue, i, cueDir, outDir, opts).source == InDirectory(cueDir, cue.tracks[i].dataFile)
  {
  }

  /** Tracks with no FILE declaration between them are cut from the same source. */
  lemma {:induction false} SourceConstantWithinFile(cue: CueSheet, i: nat, j: nat, cueDir: string, outDir: string, opts: Options)
    requires i <= j < |cue.tracks|
    requires forall l :: i < l <= j ==> cue.tracks[l].dataFile == ""
    ensures PlanFor(cue, i, cueDir, outDir, opts).source == PlanFor(cue, j, cueDir, outDir, opts).source
    decreases j - i
  {
    if i < j {
      SourceConstantWithinFile(cue, i, j - 1, cueDir, outDir, opts);
      assert CarriedFile(cue.tracks, j + 1) == CarriedFile(cue.tracks, j);
    }
  }

  /**
   * A cut is open exactly for the last track and for a track followed by a new
   * FILE; every other cut ends where the next track's cut starts, in the same
   * source file.
   */
  lemma EndOpenIff(cue: CueSheet, i: nat, cueDir: string, outDir: string, opts: Options)
    requires i < |cue.tracks|
    ensures PlanFor(cue, i, cueDir, outDir, opts).end == Open <==>
      i == |cue.tracks| - 1 || cue.tracks[i + 1].dataFile != ""
    ensures PlanFor(cue, i, cueDir, outDir, opts).end != Open ==>
      PlanFor(cue, i, cueDir, outDir, opts).end == At(PlanFor(cue, i + 1, cueDir, outDir, opts).start) &&
      PlanFor(cue, i, cueDir, outDir, opts).source == PlanFor(cue, i + 1, cueDir, outDir, opts).source
  {
  }

  /**
   * Each plan's number is its 1-based position, its output is
   * `"{NN} {title}.flac"`, its tags are (title, effective artist, album title,
   * number) and its cover is `cover.jpg` beside the cue sheet, for the last
   * track as for every other; numbers increase and no two tracks share an
   * output name.
   */
  lemma NamingAndMetadata(cue: CueSheet, i: nat, j: nat, cueDir: string, outDir: string, opts: Options)
    requires i < |cue.tracks| && j < |cue.tracks|
    ensures PlanFor(cue, i, cueDir, outDir, opts).meta ==
      Metadata(cue.tracks[i].title, EffectiveArtist(cue, cue.tracks[i]), cue.title, i + 1)
    ensures ParseOutputName(PlanFor(cue, i, cueDir, outDir, opts).outFileName) == Some((i + 1, cue.tracks[i].title))
    ensures PlanFor(cue, i, cueDir, outDir, opts).cover == InDirectory(cueDir, "cover.jpg")
    ensures i < j ==> PlanFor(cue, i, cueDir, outDir, opts).meta.track < PlanFor(cue, j, cueDir, outDir, opts).meta.track
    ensures i < j ==> PlanFor(cue, i, cueDir, outDir, opts).outFileName != PlanFor(cue, j, cueDir, outDir, opts).outFileName
  {
    OutputNameRoundTrip(i + 1, cue.tracks[i].title);
    OutputNameInjective(i + 1, cue.tracks[i].title, j + 1, cue.tracks[j].title);
  }

  /** The artist tag is the track performer when there is one, the album performer otherwise. */
  lemma ArtistFallback(cue: CueSheet, i: nat, cueDir: string, outDir: string, opts: Options)
    requires i < |cue.tracks|
    ensures cue.tracks[i].performer == "" ==> PlanFor(cue, i, cueDir, outDir, opts).meta.artist == cue.performer
    ensures cue.tracks[i].performer != "" ==> PlanFor(cue, i, cueDir, outDir, opts).meta.artist == cue.tracks[i].performer
  {
  }

  /** The last plan is track number `|tracks|` and always cuts to the end of its file. */
  lemma LastPlanIsOpen(cue: CueSheet, cueDir: string, outDir: string, opts: Options)
    requires |cue.tracks| > 0
    ensures PlanFor(cue, |cue.tracks| - 1, cueDir, outDir, opts).end == Open
    ensures PlanFor(cue, |cue.tracks| - 1, cueDir, outDir, opts).meta.track == |cue.tracks|
  {
  }

  /**
   * Three tracks in one file, marks 0:00:00/0:02:00, 1:00:00 and 2:30:00:
   * track 1 ends where track 2 starts, and track 3 is open.
   */
  lemma SingleFileExample(cueDir: string, outDir: string, opts: Options)
    ensures
      var cue := CueSheet("Album", "Band", [
        Track("", "One", "album.flac", [CueIndex(0, 0, 0), CueIndex(0, 2, 0)]),
        Track("", "Two", "", [CueIndex(1, 0, 0)]),
        Track("Guest", "Three", "", [CueIndex(2, 30, 0)])]);
      && PlanFor(cue, 0, cueDir, outDir, opts).start == 1.0
      && PlanFor(cue, 0, cueDir, outDir, opts).end == At(60.0)
      && PlanFor(cue, 0, cueDir, outDir, opts).end == At(PlanFor(cue, 1, cueDir, outDir, opts).start)
      && PlanFor(cue, 2, cueDir, outDir, opts).end == Open
      && PlanFor(cue, 2, cueDir, outDir, opts).source == InDirectory(cueDir, "album.flac")
      && PlanFor(cue, 0, cueDir, outDir, opts).meta.artist == "Band"
      && PlanFor(cue, 2, cueDir, outDir, opts).meta.artist == "Guest"
  {
  }

  /** Track 2 declares a second file, so track 1 is cut to the end of the first one. */
  lemma TwoFileExample(cueDir: string, outDir: string, opts: Options)
    ensures
      var cue := CueSheet("Album", "Band", [
        Track("", "One", "a.flac", [CueIndex(0, 0, 0)]),
        Track("", "Two", "b.flac", [CueIndex(0, 0, 0)])]);
      && PlanFor(cue, 0, cueDir, outDir, opts).end == Open
      && PlanFor(cue, 0, cueDir, outDir, opts).source == InDirectory(cueDir, "a.flac")
      && PlanFor(cue, 1, cueDir, outDir, opts).source == InDirectory(cueDir, "b.flac")
  {
  }
}
