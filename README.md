# SplitAlbums: split-plan model

SplitAlbums cuts one album-length audio file into per-track FLAC files. A cue
sheet gives the track boundaries, titles and performers. For every track the
program calls `Split` (cut from this track's start to the next track's start)
or `SplitLast` (cut from this track's start to the end of the source file,
whose length is probed with ffprobe). `Split` then runs ffmpeg to cut and tag
the track and, unless `--no-cover` is given, runs ffmpeg again to attach
`cover.jpg`.

This project models those decisions in Dafny:

- `cue.dfy` (`Cue`): the parsed cue sheet taken as input. It holds the album
  title and performer and, for each track, its performer, title, declared
  FILE and INDEX marks. It also holds the command-line options that are
  passed through to every cut.
- `cut_point.dfy` (`CutPoint`): `GetCutPoint`, computed in exact real
  arithmetic and related to integer frame counts at 75 frames per second.
- `naming.dfy` (`Naming`): the decimal and zero-padded (`{n:00}`) rendering
  of track numbers, the output name `"{NN} {title}.flac"`, and
  `dir\name` paths.
- `plan.dfy` (`Plan`): `StartSplit` as a method whose loop mirrors the
  program's loop. The loop carries the current audio file forward and
  computes the artist for each track. Where the program calls
  `Split`/`SplitLast`, the model appends a `SplitPlan` record whose end is
  `At(t)` or `Open`. The method is proved against `PlanFor`, the plan of one
  track as a function of the sheet. Lemmas then state what the plans mean:
  file carry-forward, open ends, bounded ends meeting the next start,
  numbering, naming and tags.
- `steps.dfy` (`Steps`): the tool launches of one plan, as `Probe`, `Cut` and
  `Mux` steps. It covers the cut destination with and without a cover, the
  temporary `{n}.flac` file, the `-ar`/`-sample_fmt` arguments, and stopping
  at the first launch that fails.

In these cases the model follows what the code does, which may be unexpected:

- With an index count other than 1 or 2, the code does not reject the track.
  `GetCutPoint` returns the sentinel `-1`, and that value becomes the cut
  time.
- The cover is always `{cueDir}\cover.jpg` and is muxed whenever
  `--no-cover` is absent. The path is not checked for existence.
- If the first track declares no FILE, the carried name is still the empty
  string. Its source path is then `{cueDir}\`.
- A sheet with no tracks runs no loop iteration and then fails on
  `cue.Tracks[^1]`. `StartSplit` models this as the result `None`.

## Model

| member | source | states |
|---|---|---|
| `CutPoint.SecondsAreFrames` | SplitAlbums/Program.cs:99 | the time of a mark, minutes*60 + seconds + frames/75, is exactly its frame count over 75 |
| `CutPoint.CutPointFrames` | SplitAlbums/Program.cs:97-103 | `GetCutPoint` (Program.cs:95-104): one mark: the cut is its frames/75; two marks: half their frame sum over 75; the result is -1 exactly when the mark count is neither 1 nor 2, and never negative otherwise |
| `CutPoint.MidpointBetween` | SplitAlbums/Program.cs:100-101 | the two-mark cut lies between the two mark times, and equals both when the marks coincide |
| `CutPoint.SingleMarkMonotone` | SplitAlbums/Program.cs:99 | a single-mark cut point moves forward exactly when its mark does |
| `CutPoint.IndexOrderIsLexicographic` | SplitAlbums/Program.cs:99 | for marks with seconds < 60 and frames < 75, time order is the order of (minutes, seconds, frames) |
| `CutPoint.OneIndexExample` | SplitAlbums/Program.cs:99 | 1:30:37 is 6787 frames and cuts at 90 + 37/75 seconds |
| `Naming.NatText` | SplitAlbums/Program.cs:128 | the decimal text of a number is non-empty, all digits, and has no leading zero unless the number is 0 |
| `Naming.NatTextValue` | SplitAlbums/Program.cs:128 | the decimal text reads back as the number |
| `Naming.IntText` | SplitAlbums/Program.cs:114 | an integer's text starts with '-' exactly when it is negative |
| `Naming.IntTextValue` | SplitAlbums/Program.cs:114 | after the optional '-', the text of an integer is all digits and reads back as its absolute value |
| `Naming.Pad2Correct` | SplitAlbums/Program.cs:73 | `Pad2`: `{n:00}` has at least two digits, exactly two below 100, no padding from 10 on, and reads back as n |
| `Naming.OutputNameRoundTrip` | SplitAlbums/Program.cs:83 | `OutputName`: the track number and the title, empty or not, can be read back from `"{NN} {title}.flac"` |
| `Naming.OutputNameInjective` | SplitAlbums/Program.cs:91 | two output names are equal exactly when their numbers and titles are |
| `Naming.InDirectory` | SplitAlbums/Program.cs:71 | `{dir}\{name}` is the directory, one backslash, then the name |
| `Naming.InDirectoryInjective` | SplitAlbums/Program.cs:81 | within one directory, equal paths have equal names |
| `Plan.StartSplit` | SplitAlbums/Program.cs:56-93 | no tracks gives no plan; otherwise it gives exactly one plan per track, in order, the i-th equal to `PlanFor(i)`, the plan of track i built from `CarriedFile`, `EndOf` and `EffectiveArtist` |
| `Plan.CarriedFileIsLatestDeclared` | SplitAlbums/Program.cs:61-88 | `CarriedFile`: the carried file is "" exactly while no earlier track has declared a FILE, and otherwise is the FILE of the latest declaring track |
| `Plan.SourceOfDeclaringTrack` | SplitAlbums/Program.cs:67-71 | a track that declares a FILE is cut from `{cueDir}\{that file}` |
| `Plan.SourceConstantWithinFile` | SplitAlbums/Program.cs:67-81 | tracks with no FILE declaration between them are cut from the same source |
| `Plan.EndOpenIff` | SplitAlbums/Program.cs:68-92 | `EndOf`: a cut is open exactly for the last track and for a track followed by a new FILE; otherwise it ends at the next plan's start, in the same source |
| `Plan.NamingAndMetadata` | SplitAlbums/Program.cs:73-92 | for every track, the last one included, a plan's tags are (title, effective artist, album title, i+1), its output name reads back as (i+1, title) and its cover is `{cueDir}\cover.jpg`; for i < j, numbers increase strictly and the two output names differ |
| `Plan.ArtistFallback` | SplitAlbums/Program.cs:66 | `EffectiveArtist`: the artist tag is the track performer when non-empty, else exactly the album performer |
| `Plan.LastPlanIsOpen` | SplitAlbums/Program.cs:86-92 | the last plan is numbered with the track count and always cuts to the end of its file |
| `Plan.SingleFileExample` | SplitAlbums/Program.cs:78-84 | three tracks in one file: track 1 cuts from 1 s (midpoint of 0:00 and 0:02) to 60 s, which is track 2's start, and track 3 is open |
| `Plan.TwoFileExample` | SplitAlbums/Program.cs:68-74 | when track 2 declares a second file, track 1 is open and each track reads its own file |
| `Steps.SampleArgs` | SplitAlbums/Program.cs:111-119 | the arguments are `-ar {rate} ` if a rate is given, then `-sample_fmt {format} ` if a format is given; they are empty exactly when neither is given |
| `Steps.InvocationsShape` | SplitAlbums/Program.cs:182-201 | `Invocations`: an open end, and only an open end, probes the source first; one launch without a cover, two with; the last launch writes `{outDir}\{outFileName}` |
| `Steps.CutReadsPlan` | SplitAlbums/Program.cs:120-131 | `SplitSteps`: the cut reads the plan's source, interval and tags; it writes the final file with `--no-cover`, and otherwise `{outDir}\{n}.flac`, which the mux then reads with the cover to write the final file |
| `Steps.TempNeverClobbersOutput` | SplitAlbums/Program.cs:128-131 | a temporary `{n}.flac` path is never a path whose name contains a space, so it is never a finished track's path |
| `Steps.OutputsDoNotCollide` | SplitAlbums/Program.cs:127-131 | in one plan, distinct tracks have distinct output paths, and no temporary path is any track's output path (as strings; `..` in a title is not resolved) |
| `Steps.RunUntilFailure` | SplitAlbums/Program.cs:147-152 | the launches made are a prefix of those planned; all but the last succeeded; either all were made or the last one failed; the outcome of each launch is given by its position in the run |
| `Steps.RunStopsAtFirstFailure` | SplitAlbums/Program.cs:147-175 | with no failure every launch is made; otherwise the run ends exactly at the first failing launch |
| `Steps.FailureStopsLaterTracks` | SplitAlbums/Program.cs:64-92 | once a launch for track k fails, no launch for any later track is made; the failing launch is identified by its position in the run |

## Left out

- Command-line parsing and `RootCommand` wiring (Program.cs:11-54): library plumbing. The options appear only as the `Options` record.
- Registering the GB2312 code page and parsing the cue sheet with CueSharp (Program.cs:58-60): foreign calls. The parsed `CueSheet` is an input. `string.IsNullOrEmpty` is modelled as a test for "", because the model has no null strings.
- Starting ffmpeg/ffprobe, reading their output streams and printing the command lines (Program.cs:133-148, 156-171, 182-194): external I/O. A launch is a `Step`. Whether the launch at each position succeeds is a parameter of `RunUntilFailure`.
- Deleting stale and temporary files (Program.cs:108-109, 177): file-system I/O.
- Parsing and `TrimEnd` of the probed duration (Program.cs:194, 201): it comes from an external tool. The end of such a cut stays `Open`.
- Rendering cut times with `0.000000` (Program.cs:72, 82, 90): floating-point formatting. Cut points stay exact reals.
- `ShowErrorAndExit` (Program.cs:204-212): console colours and the process exit code. Only the stop after the first failure is modelled. The text of the diagnostics is not modelled, including the exit code each message names.
- `GetCutPoint` is computed on unbounded integers and exact reals. It does not model an overflow of the 32-bit product `Minutes * 60`, or rounding in `double`.
- `StartSplit` builds the whole plan before any launch. The program instead launches each track's tools inside the loop. `Steps.FailureStopsLaterTracks` states the order that results.
- `Steps.OutputsDoNotCollide`, `Steps.TempNeverClobbersOutput`: compare paths as strings. The model has no file system, so it does not resolve `..` or `\` inside a title, or case-insensitive names.
- `Steps.CutReadsPlan`: the ffmpeg and ffprobe argument strings (Program.cs:122-131, 187) are not built. The program puts tags and paths inside `"` quotes without escaping them, so a `"` or a trailing `\` in a title, performer, album or path changes the command line. The model's steps carry the values unchanged.
- `CutPoint.CutPointFrames`: INDEX marks are taken as non-negative (`nat` minutes, seconds and frames). CueSharp stores them as `int`. The "never negative otherwise" clause relies on this.
