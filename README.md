# Condenser, modelled in Dafny

Condenser shortens a video's audio to the parts where someone speaks, using the video's
subtitles. It reads the subtitle cues and filters their text. It pads every remaining cue
into a period and merges overlapping periods. It cuts one audio segment per merged period
with ffmpeg and concatenates the segments into the output file. Optionally it also writes
the subtitles moved onto the shortened timeline. Given a folder, it groups the videos by
the labels of their audio and subtitle streams. It then condenses each group, skipping
every video whose output already exists. A temporary directory holds the intermediate
files and is removed at the end.

The model covers `condenser.py`, module by module:

| module | what it holds |
|---|---|
| `Config` | The settings as one immutable `Config` value, plus the padding clamp of the configuration loader. |
| `CueFilter` | `filter_text`: tag stripping with `<[^<]+?>`, dropping bracketed annotations, deleting configured characters. |
| `Periods` | `extract_periods`: a function `PeriodsOf` that specifies it, and the in-place `while i` / `for j` merge as methods over an array. |
| `Retime` | `condense_subtitles`: the in-place cue update as a method, the specification `Threaded`, and the original-cue reading `Condensed`. |
| `Streams` | `streams_to_options`, `check_all_equal` and the two stream choosers. |
| `Grouping` | The first-fit grouping loop of `main`, and the all-equal shortcut. |
| `Subtitles` | Same-name subtitle lookup, the batch lookup, `convert_sub_if_needed` and the precedence of `get_srt`. |
| `AudioParts` | Segment names, `extract_audio_parts`, and the quote escaping of the concat list. |
| `Batch` | `condense` and `condense_multi` as a state machine over a `FileSystem` object (see below). |
| `Driver` | `main`: the input, the folder and single-file branches, and the `finally` cleanup. |

`Batch` also holds the generic `Loop` (steps in order, up to the first exception) with its lemmas.

The `FileSystem` object has three fields:
- the set of existing files;
- the set of existing directories;
- whether the temporary directory exists.

ffprobe, ffmpeg, pysrt, the directory listing and the dialogs are oracles. They are fields
of the `Tools` and `Dialogs` values in `Media`, which fix what each external call returns.

Each imperative part of the source is a method over arrays or over the `FileSystem`. Its
`ensures` ties it to a specification function, and lemmas state what that function
promises. The settings are module globals in the source; here every operation receives
them as a `Config` argument.

Behaviours modelled exactly as written:
- **The merge replaces the running end.** `extract_periods` assigns the absorbed period's
  end rather than taking the larger end, so a nested cue shrinks its period
  (`Periods.NestedCueShrinks`).
- **The merge test is inclusive.** A start equal to the running end is absorbed.
- **A file whose every cue is filtered away is an error.** It raises an index error at
  `periods[0]`; it never yields an empty result.
- **`condense_subtitles` offsets by the previous period alone.** `offset` ends each period
  equal to that period's own length, not to the running total (see Findings).
- **`condense_subtitles` updates the cue objects in place.** `Retime.NoRematch` proves
  this never changes what is emitted when the periods are ordered. `Retime.PeriodsOfOrdered`
  proves that `extract_periods` returns ordered periods for a cue file sorted by start, and
  `Retime.ExtractedNoRematch` combines the two.
- **`condense_multi` indexes the found subtitles by video position.** The list of found
  subtitles has no entries for videos without one, yet the loop indexes it by video
  position. A video can therefore get another video's subtitle, or raise an index error
  (`Subtitles.FoundListShifts`, `Batch.SourceByPosition`).

Where the prose description of the program and the code disagree, the model follows the
code. The description says the subtitle offset accumulates the condensed duration of all
earlier periods, so that moved cues never overlap; the code does not do this.

## Model

| member | source | states |
|---|---|---|
| Config.ClampPadding | condenser.py:425-431 | The padding ends up in [0, 60000]; a value already in range is kept; the result is the closest value of the range to the one requested. |
| Config.WithPadding | condenser.py:425-431 | Loading a padding changes only the padding: a value in [0, 60000] is kept, a negative one becomes 0, and one above 60000 becomes 60000. |
| Strings.NatToString | condenser.py:92 | `"{}".format(n)` for a natural number is a non-empty string of digits, one digit exactly for n < 10. |
| Strings.ParseNatToString | condenser.py:92 | Reading a rendered number back gives the number. |
| Strings.NatToStringInjective | condenser.py:92 | Different numbers are rendered differently. |
| CueFilter.CloseAt | condenser.py:97 | The lazy `+?` stops at the first `>` after the tag body; a `<` before it means no match. The result is the shortest match, and there is no match when it returns none. |
| CueFilter.TagAt | condenser.py:97 | The match of `<[^<]+?>` at the start of a string is the shortest one, and none means no match of any length. |
| CueFilter.StripTags | condenser.py:97 | `re.sub` only deletes characters, and text without `<` is unchanged. |
| CueFilter.DeleteChars | condenser.py:109-110 | `translate` with a deletion table keeps the other characters in order. No character of the table is left, and every other character keeps its count. |
| CueFilter.FilterText | condenser.py:96-112 | Empty after tag stripping gives `""`. Wrapped in (), （）, [] or {} with `filter_parentheses` gives `""`. Otherwise the result is the stripped text with exactly the filtered characters deleted, in order. |
| CueFilter.CueText | condenser.py:119-121 | The filter is applied only when some filtering setting is on; otherwise the text is kept. |
| CueFilter.EmptyBracketsKept | condenser.py:97 | A bare `<>` is not a tag and survives. |
| CueFilter.SinglePass | condenser.py:97 | Matches do not overlap and the substitution runs once: `<a<b>>` becomes `<a>`. |
| CueFilter.PlainPrefix | condenser.py:97 | Text without `<` passes through stripping whatever follows it. |
| CueFilter.AnnotationDropped | condenser.py:96-107 | A cue `<i>(bang)</i>` is dropped when `filter_parentheses` is on: the tags go first, then the brackets are recognised. |
| Paths.LastIndex | condenser.py:304 | The last occurrence of a character, or -1 when there is none. |
| Paths.SplitExt | condenser.py:304 | `splitext` splits the path into root and extension with nothing lost. The extension starts with a dot, holds no separator and no other dot. |
| Paths.SplitExtStem | condenser.py:304 | The extension is split off only after a non-dot character of the last path component. There is no extension exactly when every dot after a non-dot character has a separator after it. |
| Paths.Join | condenser.py:380-385 | `join` gives an absolute second part unchanged; otherwise the result ends with the second part. |
| Paths.Split | condenser.py:493 | The second part of `split` is the last path component: a suffix of the path without separator. |
| Paths.Lower | condenser.py:305 | `lower` keeps the length and lowers each character. |
| Periods.FilterCues | condenser.py:119-121 | Every cue keeps its times, and its text is what the filter leaves. |
| Periods.SurvivorsExactly | condenser.py:122 | Exactly the cues with non-empty text produce a period. |
| Periods.SurvivorsSorted | condenser.py:122 | Dropping the empty cues keeps an ordering by start. |
| Periods.SurvivorsProperties | condenser.py:122 | Both of the above together. |
| Periods.Candidates | condenser.py:122 | There is one period `[start - padding, end + padding]` per surviving cue, in order. |
| Periods.Adjust | condenser.py:124-126 | The first start is clamped to 0 and the padding is taken off the last end; every other bound is unchanged. |
| Periods.RunLast | condenser.py:132-138 | The inner loop absorbs periods while their start is at most the running end, and stops at the first gap. |
| Periods.RunStarts | condenser.py:128-140 | The run starts are increasing indices in range, the first being `i`, and there are at most as many as periods. |
| Periods.OpensRun | condenser.py:134 | A later period opens a run exactly when its start exceeds the end before it; an equal start is absorbed. |
| Periods.RunStartsAreOpenings | condenser.py:134 | The same, for every period after `i`. |
| Periods.NotInLaterRuns | condenser.py:140 | The runs from `i` on never start before `i`. |
| Periods.MergeCount | condenser.py:139 | One merged period is appended per run. |
| Periods.SpanOfRun | condenser.py:135-139 | Merged period `k` starts at its run's first start and ends at the end of the run's last period, as assigned. |
| Periods.MergedSpansRun | condenser.py:135-139 | The same for every merged period. |
| Periods.MergeStructure | condenser.py:128-140 | There are between 1 and |periods| merged periods, one per run. The runs are consecutive and cover every period once, and a run opens exactly at a gap. Each merged period spans its run. |
| Periods.MergedEndsAndGaps | condenser.py:128-140 | The first merged start is the first start, and the last merged end is the last end. Each merged period starts strictly after the previous one ends. |
| Periods.RunLastIs | condenser.py:132-138 | A block without gaps, followed by a gap or by the end, is exactly one run. |
| Periods.MergeFromStep | condenser.py:130-140 | Such a block is the next merged period. |
| Periods.AbsorbRun | condenser.py:131-138 | The `for j` loop absorbs exactly the next run into `periods[i]`. `expanded` counts the periods absorbed. Every other entry, before and after `i`, is untouched. |
| Periods.MergeInPlace | condenser.py:128-140 | The `while i` loop over the array appends exactly the merged periods. |
| Periods.ExtractPeriods | condenser.py:115-144 | `extract_periods` on the array equals `PeriodsOf`, errors included. |
| Periods.PeriodsOfOutcome | condenser.py:115-144 | An empty file raises `SubtitleError`, and a file with no surviving cue raises an index error. Otherwise there are between 1 and |survivors| merged periods. The first starts at max(0, first survivor's start - padding). The last ends at the last survivor's own end, and the periods are separated by gaps. |
| Periods.NestedCueShrinks | condenser.py:135 | A cue nested in a longer one shrinks the merged period to the inner end. |
| Periods.TouchingCuesMerge | condenser.py:134 | With padding 500, cues 500 ms apart merge: equality counts. |
| Retime.Shift | condenser.py:343-344 | A moved cue keeps its text and length, and the period start lands on the offset. |
| Retime.Emit | condenser.py:338-345 | One period emits at most one cue per cue. |
| Retime.Update | condenser.py:341-344 | Exactly the cues inside the period are moved, and the others are unchanged. |
| Retime.EmitMembers | condenser.py:338-345 | A period emits exactly the cues lying wholly inside it, both ends inclusive, each moved by the offset. |
| Retime.StartsFromFirst | condenser.py:336 | Ordered periods start no earlier than the first. |
| Retime.EmitSame | condenser.py:341 | A period emits the same from two cue lists that agree on every cue that could lie inside it. |
| Retime.NoRematchFrom | condenser.py:336-346 | Moved cues sit before every later period, so the in-place update emits what the original cues would. |
| Retime.NoRematch | condenser.py:336-346 | For ordered periods and well-formed cues, `condense_subtitles` with in-place mutation equals the reading over the original cues. |
| Retime.AdjustedCover | condenser.py:122-126 | Each padded and adjusted period still covers its cue, and the first starts at 0 or later. |
| Retime.SurvivorsWellFormed | condenser.py:119-122 | The cues that survive the filter of a sorted, well-formed file are sorted and well formed. |
| Retime.MergedRun | condenser.py:128-140 | Merged period `k` spans a block of the periods whose first one is period 0 or opens a run. |
| Retime.MergedPeriodOrdered | condenser.py:128-140 | Each merged period of periods covering sorted cues starts at 0 or later and does not end before it starts. |
| Retime.MergedOrdered | condenser.py:128-140 | Merging periods that cover sorted, well-formed cues gives ordered periods. |
| Retime.PeriodsOfOrdered | condenser.py:115-143 | For a cue file sorted by start with well-formed cues and a non-negative padding, every period returned is ordered: start at 0 or later, end not before start, a gap after the previous period. |
| Retime.ExtractedNoRematch | condenser.py:316-346 | On the periods `extract_periods` returns for the same file, the in-place update emits what the original cues give. |
| Retime.LoadedNoRematch | condenser.py:425-431 | The same holds for every padding the configuration loader can set. |
| Retime.CondensedMember | condenser.py:336-346 | From period `k0` on, a cue is emitted exactly when it is an original cue inside some period `k`, moved by the length of period `k - 1`. |
| Retime.CondensedMembers | condenser.py:336-346 | What `condense_subtitles` emits is exactly the original cues inside some period `k`, each shifted by the length of period `k - 1` (0 for the first period). |
| Retime.EmitThree | condenser.py:338-345 | The cues a period emits from a list of three, in list order. |
| Retime.UpdateThree | condenser.py:341-344 | The cue list a period leaves from a list of three. |
| Retime.OverlapWitness | condenser.py:336-346 | As written, three periods of length d that are 2d apart, each filled by one cue, put the second and third cues both at [d, 2d]. |
| Retime.OverlapTail | condenser.py:336-346 | The last two periods of that example, both offset by d. |
| Retime.CumulativeSeparated | condenser.py:334 | With the running total as offset, every emitted cue lies within [offset, offset + total length]. A period's cues end no later than any later cue starts. |
| Retime.LengthNonNegative | condenser.py:334 | The total length of well-formed periods is not negative. |
| Retime.CumulativeWitness | condenser.py:334 | With the running total, the same example puts the third cue at [2d, 3d]. |
| Retime.MoveInside | condenser.py:338-345 | The inner loop moves exactly the cues inside the period, in place, and appends them in cue order. |
| Retime.CondenseSubtitles | condenser.py:331-348 | The loop over the periods, on an array of cues mutated in place, equals `Threaded`, with `offset` as written. |
| Streams.Labels | condenser.py:81-93 | There is exactly one label per stream, the label of stream `i` being at position `i`. |
| Streams.StreamsToOptions | condenser.py:81-93 | Starting from `"(No tag)"` everywhere and assigning by index gives `Labels`. |
| Streams.NoTagIffUndescribed | condenser.py:82-92 | A label is `"(No tag)"` exactly when the stream has no tags or has neither a language nor a title. |
| Streams.NumberPrefix | condenser.py:92 | In `d + ": " + x` with `d` all digits, `d` is recovered. |
| Streams.LabelShape | condenser.py:92 | A described label is its number followed by `": "` and the rest. |
| Streams.DescribedLabelsDiffer | condenser.py:92 | Described streams at different positions get different labels. |
| Streams.CheckAllEqualIff | condenser.py:64-65 | `check_all_equal` holds exactly when every element equals the first. |
| Streams.CountBound | condenser.py:65 | An element occurs at most |li| times, and exactly |li| times iff it is every element. |
| Streams.ChooseAudioStream | condenser.py:206-215 | Stream 0 for at most one stream. With more streams it is the choice, and cancelling raises. |
| Streams.ChooseSubtitleStream | condenser.py:218-233 | Stream 0 unless there are several streams and `ask_when_multiple_srt` is set. Then it is the choice, and cancelling also gives 0. |
| Grouping.PlaceAt | condenser.py:520-528 | Placing a video keeps the groups non-empty and in range. |
| Grouping.Grouped | condenser.py:518-528 | The groups of the first `n` videos are non-empty and in range. |
| Grouping.PlaceKeepsGrouping | condenser.py:520-528 | Placing video `i` keeps a partition of the indices. Indices within a group increase, and groups are ordered by first index. Members share their group's signature, and different groups differ. |
| Grouping.GroupedIsGrouping | condenser.py:518-528 | The first-fit groups partition the videos by their (audio labels, subtitle labels) pair. |
| Grouping.SameGroupIffSameSignature | condenser.py:518-528 | Two videos share a group exactly when their pairs are equal. |
| Grouping.AllEqualOneGroup | condenser.py:518-528 | When all pairs are equal, first fit makes one group of all the videos, in order. |
| Grouping.GroupOptions | condenser.py:518-528 | The nested grouping loop computes the first-fit groups. |
| Grouping.Zip | condenser.py:518 | The pair list has one (audio, subtitle) pair per video. |
| Grouping.Batches | condenser.py:505-528 | The batches are non-empty lists of valid indices. |
| Grouping.BatchesAreFirstFit | condenser.py:505 | The shortcut is taken exactly when all pairs are equal; either way the batches are the first-fit groups. |
| Grouping.BatchesCoverAll | condenser.py:505-537 | Every video is in some batch. |
| AudioParts.SegmentPathsDistinct | condenser.py:151 | Different segments get different `out_{i}.flac` paths. |
| AudioParts.ExtractAudio | condenser.py:147-177 | It succeeds exactly when every cut succeeds, then lists every segment path in order. Otherwise it raises `MediaError`. |
| AudioParts.ExtractAudioParts | condenser.py:147-177 | The loop equals `ExtractAudio` and stops at the first failing cut. |
| AudioParts.EscapeQuotes | condenser.py:184 | Escaping never shortens a path. |
| AudioParts.EscapeRoundTrip | condenser.py:184 | Reading each `'\''` back as a quote gives the path back. |
| AudioParts.ConcatLineRoundTrip | condenser.py:184 | Each concat-list line names exactly its segment path. |
| AudioParts.LineEnd | condenser.py:184 | The first line ends at the first newline: none before it. |
| AudioParts.EscapeKeepsNewlines | condenser.py:184 | Escaping the quotes adds no newline. |
| AudioParts.FirstLine | condenser.py:184 | The first line of the list is the first segment's line, when its path has no newline. |
| AudioParts.LineEndIs | condenser.py:184 | A newline with none before it is where the first line ends. |
| AudioParts.ConcatListRoundTrip | condenser.py:182-184 | Reading the concat list back line by line gives the segment paths, in order, when no path holds a newline. |
| Subtitles.FirstExisting | condenser.py:259-263 | It gives the first `root + suffix + ext` that exists, in extension order, or nothing when none exists. |
| Subtitles.NoSameNameInFewerFiles | condenser.py:257-263 | Removing files never creates a same-name subtitle. |
| Subtitles.Matching | condenser.py:266-275 | Every video lands in exactly one of the two lists. |
| Subtitles.FindMatchingSubtitles | condenser.py:266-275 | The loop computes `Matching`. |
| Subtitles.MatchingInvalid | condenser.py:266-275 | The videos without a subtitle are exactly those whose lookup fails. |
| Subtitles.MatchingFound | condenser.py:266-275 | Every subtitle found exists. |
| Subtitles.MatchingMembers | condenser.py:266-275 | Both of the above, and the invalid list is empty exactly when every video has a subtitle. |
| Subtitles.MatchingInvalidShrinks | condenser.py:266-275 | With fewer files, the invalid list cannot become empty. |
| Subtitles.FoundListShifts | condenser.py:266-275 | With only the second of two videos having a subtitle, the found list is that subtitle alone, so position 0 belongs to another video. |
| Subtitles.MkvRoot | condenser.py:258 | The root of `d/x.mkv` is `d/x`. |
| Subtitles.ConvertSubIfNeeded | condenser.py:303-313 | An `.srt` extension, in any case, is kept. Any other is converted to `out.srt` in the temporary directory. A failed conversion raises `SubtitleError`. |
| Subtitles.OutSrtExt | condenser.py:306 | A path ending in `out.srt` has extension `.srt`. |
| Subtitles.TempSrtIsSrt | condenser.py:306 | `out.srt` in the temporary directory is an SRT path. |
| Subtitles.ConvertedIsSrt | condenser.py:303-313 | Whatever the conversion returns is an SRT path. |
| Subtitles.GetSrtPrecedence | condenser.py:278-300 | Order: same-name file, then an internal stream (to `out.srt`), then the picked file. No subtitle selected exactly when there is none of the three. |
| Subtitles.GetSrtIsSrt | condenser.py:278-300 | Whatever `get_srt` returns is an SRT path. |
| Subtitles.FromFileIsSrt | condenser.py:300 | A converted external file is an SRT path. |
| Batch.Condense | condenser.py:316-328 | Success iff the periods, every segment cut and the concatenation succeed. It adds the output, and the condensed SRT when configured. It adds no other file and changes no directory. |
| Batch.SourceByPosition | condenser.py:400-403 | Once a subtitle was found, video `i` takes the `i`-th subtitle found, or an index error past the end. With none found, the chosen stream. |
| Batch.SkipHasNoEffect | condenser.py:394-396 | An item whose output exists is skipped with no effect. |
| Batch.ItemEffect | condenser.py:389-406 | An item only adds files and leaves the directories. On success its output exists, and the temp dir is removed if it was processed. An exception leaves the files and the temp dir. |
| Batch.LoopGrows | condenser.py:389-406 | A loop of steps that only add files and directories does the same. |
| Batch.LoopOutputs | condenser.py:389-406 | A loop ending without exception leaves every step's outputs, and no temp dir if there was none. |
| Batch.LoopSkipsAll | condenser.py:389-396 | A loop whose every step is skipped changes nothing. |
| Batch.ItemStepEffect | condenser.py:389-406 | The items meet the three step properties. |
| Batch.RunItemsGrow | condenser.py:389-406 | The loop of `condense_multi` only adds files and directories. |
| Batch.RunItemsOutputs | condenser.py:389-406 | Without exception, every video's output exists and no temp dir is left. |
| Batch.AllPresentSkipsAll | condenser.py:389-396 | When every output exists, the run skips everything and changes nothing. |
| Batch.SecondRunSkipsAll | condenser.py:351-409 | A second `condense_multi` over what a successful first one left skips every video and changes nothing. |
| Batch.CondenseMultiEffect | condenser.py:351-409 | It only adds files and directories. Without exception the output directory exists and holds `root + "." + format` for every video, and no temp dir is left. |
| Batch.CondenseVideo | condenser.py:316-328 | `condense` on the file system matches `Condense`; an exception leaves it unchanged. |
| Batch.ProcessItem | condenser.py:389-406 | One loop pass on the file system matches `Item`. |
| Batch.CondenseMulti | condenser.py:351-409 | `condense_multi` on the file system matches `CondenseMultiSpec`. |
| Batch.RunJob | condenser.py:389-406 | The item loop on the file system matches `RunItems`. |
| Driver.Filter | condenser.py:496-497 | A comprehension keeps exactly the elements that satisfy the condition. |
| Driver.FilterAppend | condenser.py:496-497 | Filtering a concatenation filters each part and keeps the parts in order. |
| Driver.FilterOne | condenser.py:496-497 | A single element is kept exactly when it satisfies the condition; with `FilterAppend` this fixes the order and the repetitions of the result. |
| Driver.VideoNames | condenser.py:496-497 | The videos are exactly the listed names that are existing files and have a video extension (case-sensitive). |
| Driver.VideoNamesInOrder | condenser.py:496-497 | The videos keep the listing order: the videos of two consecutive parts of the listing are those of the first part, then those of the second; a single name is kept exactly when it is a video file. |
| Driver.ProbeAll | condenser.py:501-502 | The probe succeeds iff every video's probe succeeds, giving each video's streams. |
| Driver.ScanFolder | condenser.py:490-502 | Paths are `join(dir, name)`, with each video's probed streams. A folder without videos is an error exactly when there are none. |
| Driver.AudioOptions | condenser.py:503 | The audio labels of every video. |
| Driver.SubtitleOptions | condenser.py:504 | The subtitle labels of every video. |
| Driver.Pick | condenser.py:533-534 | A group's paths and names are picked by its indices. |
| Driver.BatchEffect | condenser.py:530-537 | One group only adds files and directories; without exception each of its videos has its output. |
| Driver.BatchStepEffect | condenser.py:530-537 | The groups meet the three step properties. |
| Driver.GroupsOutputs | condenser.py:530-537 | The group loop only adds files and directories; without exception every covered video has its output. |
| Driver.FolderOutputs | condenser.py:490-537 | The folder branch only adds files and directories; without exception every video of the folder has its output. |
| Driver.OneGroup | condenser.py:505-516 | The all-equal shortcut is the loop over one group of all videos. |
| Driver.RunGroups | condenser.py:530-537 | The group loop on the file system matches `RunBatches`. |
| Driver.CondenseFolder | condenser.py:490-537 | The folder branch on the file system matches `FolderSpec`. |
| Driver.SingleOutputIsNotInput | condenser.py:541-556 | Without a fixed output directory, the output `root + "_con." + format` is never the video itself. |
| Driver.SingleEffect | condenser.py:539-556 | The single-file branch only adds files and directories. On success its output exists. An exception leaves the files unchanged. |
| Driver.CondenseSingle | condenser.py:539-556 | The single-file branch on the file system matches `SingleSpec`. |
| Driver.MainEffect | condenser.py:472-556 | The `try` block only adds. On success an input was given. A folder gets every video's output, and a single video gets its output. |
| Driver.MainBody | condenser.py:472-556 | The `try` block on the file system matches `MainSpec`. Before the input is known to exist, nothing changes. |
| Driver.Run | condenser.py:412-571 | `main` matches `MainSpec`, and on every exit path the `finally` leaves no temporary directory. Files and directories only grow. |

## Left out

- ffmpeg, ffprobe and pysrt are oracles in `Media.Tools`, and the dialogs are scripted answers in `Media.Dialogs`. They are not modelled:
  - ffprobe's JSON parsing (`probe_video`) is not modelled: the probe returns the audio and subtitle streams directly.
  - The contents of the produced files are not modelled.
  - pysrt's parsing and saving are not modelled.
- The `Video`/`Folder` button box of `main` is not modelled separately. Its outcome is part of the scripted input path, and cancelling is `NoInput`.
- The same scripted dialog answers serve every group of a folder; the source asks again for each group.
- Configuration loading from `config.json` is not modelled beyond the padding clamp. The `use_system_ffmpeg` probing is also not modelled.
- Timing, printing, the log file written by `main`'s `except` block, and the time-based names of the temporary directory are not modelled.
- The temporary directory's name is a parameter, assumed new: `Driver.Run` requires that it does not exist yet.
- Run-time values are left out:
  - The float-second arguments given to ffmpeg are not modelled. Times stay integer milliseconds.
  - The audio stream index given to ffmpeg is not passed to the segment oracle.
- Files inside the temporary directory are not tracked; only whether the directory exists.
- Errors inside `shutil.rmtree(..., ignore_errors=True)` are not modelled.
- `os.makedirs` is modelled only as adding the directory, not its parent directories.
- `str.lower` is modelled on ASCII letters only.
- `os.path` is modelled for POSIX paths only (separator `/`).
- `Retime.PeriodsOfOrdered`: stated for cue files sorted by start, with every cue ending no earlier than it starts. For an unsorted file the merge can return a period that ends before it starts (cues at 5000-6000 ms and 1000-2000 ms with a padding of 500 give one period from 4500 to 2000), and `NoRematch` then says nothing.
- `Batch.Condense`: a failed concatenation is modelled as leaving the files unchanged. ffmpeg runs with `-y` and may already have created or truncated the output file before it fails (condenser.py:180-203). Such a broken file would make the next run skip that video (condenser.py:394-396).
- `Batch.ItemEffect`: "an exception leaves the files unchanged" holds only under the assumption on failed concatenations stated for `Batch.Condense`.
- `Driver.SingleEffect`: the same assumption; a failed concatenation is taken to leave no output file.
- `AudioParts.ConcatListRoundTrip`: stated for segment paths without a newline. A newline in the temporary directory's name would split a line of the concat list.
- `Retime.Threaded` models the cue objects being mutated as an update of a cue list, not as aliased objects.
- The message choice between "all files" and "some files" in `condense_multi` only changes the dialog text. It is not modelled.
- `Batch.SecondRunSkipsAll`: stated for `condense_multi`, not for the whole of `main`. A second folder run lists the folder again, and the listing is an oracle that may have changed.

## Findings

| source | as written | input that shows it | evidently intended | confidence | as-written member | corrected member |
|---|---|---|---|---|---|---|
| condenser.py:337, condenser.py:346 | `end_time = end - start - offset; offset += end_time` leaves `offset` equal to the previous period's length, not the total so far (the comment on line 334 says it tracks the condensed time). | Three periods of length d, 2d apart, each holding one cue that fills it: the second and third cues are both written at [d, 2d]. | `offset += end - start`: each period is shifted by the total length of the periods before it, so cues of different periods never overlap. | not executed | Retime.OverlapWitness | Retime.CumulativeSeparated |
