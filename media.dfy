/**
 * What the condenser learns from outside programs, as oracles: ffprobe's
 * streams, whether each ffmpeg run succeeds, the cues pysrt reads from a
 * subtitle, the directory listing, and the answers given in the dialogs.
 */
module Media {
  import opened Wrappers
  import opened Periods
  import opened Streams

  /** Where the subtitle used for a video comes from: a file, or a stream of the video itself. */
  datatype SubSource = External(path: string) | Internal(video: string, stream: nat)

  datatype Tools = Tools(
    probe: string -> Option<(seq<Stream>, seq<Stream>)>,  // ffprobe: (audio streams, subtitle streams), None when it fails
    extractSrtOk: (string, nat) -> bool,                   // ffmpeg extracting subtitle stream n of a video
    convertOk: string -> bool,                             // ffmpeg converting a non-SRT subtitle file to SRT
    cues: SubSource -> seq<Cue>,                           // the cues pysrt parses from the resulting SRT file
    segmentOk: (string, nat) -> bool,                      // ffmpeg cutting audio segment i of a video
    concatOk: string -> bool,                              // ffmpeg concatenating the segments into an output file
    listing: string -> seq<string>)                        // `os.listdir` of a directory, in its order

  datatype Dialogs = Dialogs(
    input: Option<string>,           // the video or folder picked when none is given on the command line
    audioChoice: Option<nat>,        // the audio stream dialog; None when cancelled
    subtitleChoice: Option<nat>,     // the subtitle stream dialog; None when cancelled
    subtitleFile: Option<string>)    // the subtitle file dialog; None when cancelled
}
