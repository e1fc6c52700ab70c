/**
 * The exceptions the condenser raises, one constructor per raise site.
 * Every one of them ends in the single `except` block of `main`.
 */
module Errors {

  datatype Error =
    | EmptySubtitleFile          // SubtitleError: the parsed subtitle file has no cue
    | SubtitleConversionFailed   // SubtitleError: ffmpeg could not convert a non-SRT subtitle
    | NoSpeechCue                // IndexError: every cue was filtered away, `periods[0]` fails
    | SubtitleIndexOutOfRange    // IndexError: `all_subtitle_paths[i]` past the end of the list
    | EmptyBatch                 // ValueError: a folder without videos leaves nothing to unpack from `zip`
    | AudioExtractionFailed      // MediaError: ffmpeg failed on one audio segment
    | ConcatenationFailed        // MediaError: ffmpeg failed to concatenate the segments
    | SubtitleExtractionFailed   // MediaError: ffmpeg failed to extract an internal subtitle
    | ProbeFailed                // ValueError: ffprobe failed on a video
    | AudioSelectionCanceled     // ValueError: the audio stream dialog was cancelled
    | NoSubtitleSelected         // ValueError: no subtitle anywhere and none picked by the user
    | MissingSubtitles           // ValueError: videos without external and without internal subtitles
    | NoInput                    // ValueError: no file or folder given
    | NoSuchPath                 // OSError: the given path does not exist
}
