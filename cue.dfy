/**
 * The parsed cue sheet, as a cue-sheet parser hands it to the splitter:
 * an album title and performer and the ordered list of TRACK records,
 * each with its INDEX marks and the FILE declared on it, if any.
 * These are inputs only; nothing here is computed.
 */
module Cue {

  datatype Option<+T> = None | Some(value: T)

  /** One INDEX mark: minutes, seconds and frames (75 frames per second). */
  datatype CueIndex = CueIndex(minutes: nat, seconds: nat, frames: nat)

  /**
   * One TRACK. `performer` may be empty (the album performer is used then);
   * `dataFile` is the name of the FILE declared on this track, or "" when the
   * track continues the file of an earlier track.
   */
  datatype Track = Track(performer: string, title: string, dataFile: string, indices: seq<CueIndex>)

  /** The whole sheet: album TITLE, album PERFORMER and the tracks in order. */
  datatype CueSheet = CueSheet(title: string, performer: string, tracks: seq<Track>)

  /** The command-line options handed unchanged to every cut: -ar, -sample_fmt and --no-cover. */
  datatype Options = Options(sampleRate: Option<int>, sampleFormat: Option<string>, noCover: bool)
}
