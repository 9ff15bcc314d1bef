/**
 * What one plan asks of the external tools. `Split` runs ffmpeg once to cut
 * and tag the track and, unless covers are switched off, a second time to
 * attach `cover.jpg`; `SplitLast` first asks ffprobe for the duration of the
 * source file and then splits up to it. The tools themselves are outside
 * the model: a run is described by the steps it launches, and whether a step
 * succeeds is a parameter.
 */
module Steps {
  import opened Cue
  import opened Naming
  import opened Plan

  /** One launch of an external tool. */
  datatype Step =
    | Probe(file: string)
    | Cut(input: string, start: real, end: End, meta: Metadata, sampleArgs: string, output: string)
    | Mux(audio: string, cover: string, output: string)
  {
    /** The file a step writes; a probe writes none. */
    function Writes(): Option<string> {
      match this
      case Probe(_) => None
      case Cut(_, _, _, _, _, out) => Some(out)
      case Mux(_, _, out) => Some(out)
    }
  }

  function RateArg(sampleRate: Option<int>): string {
    match sampleRate
    case None => ""
    case Some(r) => "-ar " + IntText(r) + " "
  }

  function FormatArg(sampleFormat: Option<string>): string {
    match sampleFormat
    case None => ""
    case Some(f) => "-sample_fmt " + f + " "
  }

  /**
   * The optional encoder arguments, assembled as `Split` does: `-ar {rate} `
   * when a sample rate is given, then `-sample_fmt {format} ` when a sample
   * format is given. `SplitSteps` uses the closed form `RateArg + FormatArg`
   * that this method is proved to compute.
   */
  method SampleArgs(sampleRate: Option<int>, sampleFormat: Option<string>) returns (args: string)
    ensures args == RateArg(sampleRate) + FormatArg(sampleFormat)
    ensures args == "" <==> sampleRate.None? && sampleFormat.None?
  {
    args := "";
    if sampleRate.Some? {
      args := args + ("-ar " + IntText(sampleRate.value) + " ");
      assert args == RateArg(sampleRate);
    }
    if sampleFormat.Some? {
      args := args + ("-sample_fmt " + sampleFormat.value + " ");
    } else {
      assert args + "" == args;
    }
    assert |args| == |RateArg(sampleRate)| + |FormatArg(sampleFormat)|;
  }

  /** `{outDir}\{trackIndex}.flac`, where the cut goes before the cover is attached. */
  function TempPath(outDir: string, trackIndex: nat): string {
    InDirectory(outDir, NatText(trackIndex) + ".flac")
  }

  /** `{outDir}\{outFileName}`, the finished track. */
  function FinalPath(p: SplitPlan): string {
    InDirectory(p.outDir, p.outFileName)
  }

  /** The ffmpeg launches of `Split`: a cut, then a cover mux unless covers are off. */
  function SplitSteps(p: SplitPlan): seq<Step> {
    var args := RateArg(p.options.sampleRate) + FormatArg(p.options.sampleFormat);
    var temp := TempPath(p.outDir, p.meta.track);
    if p.options.noCover then
      [Cut(p.source, p.start, p.end, p.meta, args, FinalPath(p))]
    else
      [Cut(p.source, p.start, p.end, p.meta, args, temp), Mux(temp, p.cover, FinalPath(p))]
  }

  /** All launches for one plan: an open end is first resolved by probing the source. */
  function Invocations(p: SplitPlan): seq<Step> {
    if p.end.Open? then [Probe(p.source)] + SplitSteps(p) else SplitSteps(p)
  }

  /**
   * An open end, and only an open end, probes the source first; the cut reads
   * the plan's source, interval and tags; with covers on, the mux reads what the
   * cut wrote; and the last launch always writes the finished track.
   */
  lemma InvocationsShape(p: SplitPlan)
    ensures var inv := Invocations(p);
      && |inv| == (if p.end.Open? then 1 else 0) + (if p.options.noCover then 1 else 2)
      && (inv[0].Probe? <==> p.end.Open?)
      && (p.end.Open? ==> inv[0] == Probe(p.source))
      && inv[|inv| - 1].Writes() == Some(FinalPath(p))
      && (p.options.noCover ==> forall k :: 0 <= k < |inv| ==> !inv[k].Mux?)
  {
  }

  lemma CutReadsPlan(p: SplitPlan)
    ensures var cut := SplitSteps(p)[0];
      && cut.Cut?
      && cut.input == p.source && cut.start == p.start && cut.end == p.end && cut.meta == p.meta
      && cut.output == (if p.options.noCover then FinalPath(p) else TempPath(p.outDir, p.meta.track))
      && (!p.options.noCover ==> SplitSteps(p)[1] == Mux(cut.output, p.cover, FinalPath(p)))
  {
  }

  /** The temporary name `{n}.flac` contains no space. */
  lemma NoSpaceInTempName(n: nat)
    ensures forall k :: 0 <= k < |NatText(n) + ".flac"| ==> (NatText(n) + ".flac")[k] != ' '
  {
    var t := NatText(n) + ".flac";
    forall k | 0 <= k < |t|
      ensures t[k] != ' '
    {
      if k < |NatText(n)| {
        assert t[k] == NatText(n)[k] && IsDigit(NatText(n)[k]);
      }
    }
  }

  /**
   * As path strings, the temporary path of any track is never the finished
   * path of any track named `"{NN} {title}.flac"`, nor of any other name with
   * a space in it: the mux's input string is never its output string.
   */
  lemma TempNeverClobbersOutput(outDir: string, n: nat, name: string)
    requires ' ' in name
    ensures TempPath(outDir, n) != InDirectory(outDir, name)
  {
    NoSpaceInTempName(n);
    InDirectoryInjective(outDir, NatText(n) + ".flac", name);
  }

  lemma OutputNameHasSpace(n: nat, title: string)
    ensures ' ' in OutputName(n, title)
  {
    Pad2Correct(n);
    assert OutputName(n, title)[|Pad2(n)|] == ' ';
  }

  /**
   * Over a whole plan, no two tracks write the same finished file, and no
   * temporary file is the finished file of any track.
   */
  lemma OutputsDoNotCollide(cue: CueSheet, i: nat, j: nat, cueDir: string, outDir: string, opts: Options)
    requires i < |cue.tracks| && j < |cue.tracks|
    ensures i != j ==> FinalPath(PlanFor(cue, i, cueDir, outDir, opts)) != FinalPath(PlanFor(cue, j, cueDir, outDir, opts))
    ensures TempPath(outDir, i + 1) != FinalPath(PlanFor(cue, j, cueDir, outDir, opts))
  {
    var pi := PlanFor(cue, i, cueDir, outDir, opts);
    var pj := PlanFor(cue, j, cueDir, outDir, opts);
    OutputNameInjective(i + 1, cue.tracks[i].title, j + 1, cue.tracks[j].title);
    InDirectoryInjective(outDir, pi.outFileName, pj.outFileName);
    OutputNameHasSpace(j + 1, cue.tracks[j].title);
    TempNeverClobbersOutput(outDir, i + 1, pj.outFileName);
  }

  /** The launches of each plan, one group per track, in track order. */
  function Groups(plans: seq<SplitPlan>): seq<seq<Step>> {
    seq(|plans|, k requires 0 <= k < |plans| => Invocations(plans[k]))
  }

  /** The groups one after another. */
  function Flatten<T>(groups: seq<seq<T>>): seq<T> {
    if groups == [] then [] else groups[0] + Flatten(groups[1..])
  }

  lemma {:induction false} FlattenAppend<T>(a: seq<seq<T>>, b: seq<seq<T>>)
    ensures Flatten(a + b) == Flatten(a) + Flatten(b)
  {
    if a == [] {
      assert a + b == b;
    } else {
      assert (a + b)[1..] == a[1..] + b;
      FlattenAppend(a[1..], b);
    }
  }

  /**
   * The launches made from position `n` on, given that those before `n` were
   * made and succeeded: in order, up to and including the first one that
   * fails, after which the program exits. Whether the launch at position `k`
   * succeeds is `succeeds(k)`.
   */
  function RunFrom(steps: seq<Step>, n: nat, succeeds: nat -> bool): (run: seq<Step>)
    requires n <= |steps|
    ensures n <= |run| && run <= steps
    ensures forall k :: n <= k < |run| - 1 ==> succeeds(k)
    ensures run == steps || (|run| > n && !succeeds(|run| - 1))
    decreases |steps| - n
  {
    if n == |steps| then steps
    else if !succeeds(n) then steps[..n + 1]
    else RunFrom(steps, n + 1, succeeds)
  }

  /**
   * The launches actually made: a prefix of those planned, all but the last
   * succeeded, and either every launch was made or the last one failed.
   */
  function RunUntilFailure(steps: seq<Step>, succeeds: nat -> bool): (run: seq<Step>)
    ensures run <= steps
    ensures forall k :: 0 <= k < |run| - 1 ==> succeeds(k)
    ensures run == steps || (run != [] && !succeeds(|run| - 1))
  {
    RunFrom(steps, 0, succeeds)
  }

  lemma {:induction false} RunFromStopsAtFirstFailure(steps: seq<Step>, n: nat, succeeds: nat -> bool, k: nat)
    requires n <= k <= |steps|
    requires forall j :: n <= j < k ==> succeeds(j)
    ensures k == |steps| ==> RunFrom(steps, n, succeeds) == steps
    ensures k < |steps| && !succeeds(k) ==> RunFrom(steps, n, succeeds) == steps[..k + 1]
    decreases k - n
  {
    if n < k {
      RunFromStopsAtFirstFailure(steps, n + 1, succeeds, k);
    }
  }

  /** With no failure every launch is made; otherwise the run ends at the first failure. */
  lemma RunStopsAtFirstFailure(steps: seq<Step>, succeeds: nat -> bool, k: nat)
    requires k <= |steps|
    requires forall j :: 0 <= j < k ==> succeeds(j)
    ensures k == |steps| ==> RunUntilFailure(steps, succeeds) == steps
    ensures k < |steps| && !succeeds(k) ==> RunUntilFailure(steps, succeeds) == steps[..k + 1]
  {
    RunFromStopsAtFirstFailure(steps, 0, succeeds, k);
  }

  lemma {:induction false} RunFromIgnoresLaterSteps(a: seq<Step>, b: seq<Step>, n: nat, succeeds: nat -> bool, j: nat)
    requires n <= j < |a| && !succeeds(j)
    ensures RunFrom(a + b, n, succeeds) == RunFrom(a, n, succeeds)
    decreases j - n
  {
    if succeeds(n) {
      RunFromIgnoresLaterSteps(a, b, n + 1, succeeds, j);
    } else {
      assert (a + b)[..n + 1] == a[..n + 1];
    }
  }

  /** A failure among the first steps stops the run before any later step. */
  lemma FailureStopsLaterSteps(a: seq<Step>, b: seq<Step>, succeeds: nat -> bool, j: nat)
    requires j < |a| && !succeeds(j)
    ensures RunUntilFailure(a + b, succeeds) == RunUntilFailure(a, succeeds)
  {
    RunFromIgnoresLaterSteps(a, b, 0, succeeds, j);
  }

  lemma FlattenSplit<T>(groups: seq<seq<T>>, n: nat)
    requires n <= |groups|
    ensures Flatten(groups) == Flatten(groups[..n]) + Flatten(groups[n..])
  {
    assert groups[..n] + groups[n..] == groups;
    FlattenAppend(groups[..n], groups[n..]);
  }

  lemma FlattenPrefixStep<T>(groups: seq<seq<T>>, k: nat)
    requires k < |groups|
    ensures Flatten(groups[..k + 1]) == Flatten(groups[..k]) + groups[k]
  {
    var single := [groups[k]];
    assert groups[..k] + single == groups[..k + 1];
    FlattenAppend(groups[..k], single);
    assert single[1..] == [];
    assert Flatten(single) == groups[k] + [];
    assert groups[k] + [] == groups[k];
  }

  /** A failure inside group `k` stops the run before any launch of a later group. */
  lemma FailureStopsLaterGroups(groups: seq<seq<Step>>, k: nat, succeeds: nat -> bool, j: nat)
    requires k < |groups|
    requires j < |groups[k]| && !succeeds(|Flatten(groups[..k])| + j)
    ensures RunUntilFailure(Flatten(groups), succeeds) <= Flatten(groups[..k + 1])
  {
    var before := Flatten(groups[..k]);
    var a := Flatten(groups[..k + 1]);
    var rest := Flatten(groups[k + 1..]);
    assert |a| == |before| + |groups[k]| by {
      FlattenPrefixStep(groups, k);
    }
    FailureStopsLaterSteps(a, rest, succeeds, |before| + j);
    assert Flatten(groups) == a + rest by {
      FlattenSplit(groups, k + 1);
    }
  }

  /**
   * Tracks are split one at a time in order: once the `j`-th launch for track
   * `k`, at position `|launches of earlier tracks| + j` of the run, fails, no
   * launch for a later track is made.
   */
  lemma FailureStopsLaterTracks(plans: seq<SplitPlan>, k: nat, succeeds: nat -> bool, j: nat)
    requires k < |plans|
    requires j < |Invocations(plans[k])| && !succeeds(|Flatten(Groups(plans)[..k])| + j)
    ensures RunUntilFailure(Flatten(Groups(plans)), succeeds) <= Flatten(Groups(plans)[..k + 1])
  {
    FailureStopsLaterGroups(Groups(plans), k, succeeds, j);
  }
}
