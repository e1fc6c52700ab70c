/**
 * The batch driver (`condense`, `condense_multi` and `main`) as a state
 * machine over an abstract file system: the set of existing files, the set
 * of existing directories, and whether the temporary directory exists.
 * ffmpeg, ffprobe, pysrt and the dialogs are the oracles of `Media`; an
 * exception ends the run and is reported with the state it left behind.
 */
module Batch {
  import opened Wrappers
  import opened Errors
  import opened Config
  import opened Paths
  import opened Periods
  import opened Streams
  import opened Grouping
  import opened Subtitles
  import opened AudioParts
  import opened Media

  datatype Disk = Disk(files: set<string>, dirs: set<string>, temp: bool)

  /** The file system a run changes: it creates output files, output directories and the temporary directory. */
  class FileSystem {
    var files: set<string>
    var dirs: set<string>
    var temp: bool

    function State(): Disk
      reads this
    {
      Disk(files, dirs, temp)
    }
  }

  /** The state a run leaves behind, and the exception that ended it, if any. */
  datatype Outcome = Outcome(disk: Disk, error: Option<Error>)

  /**
   * `condense`: the periods of the subtitle, one audio segment per period,
   * their concatenation into the output file, and the condensed SRT next to
   * it when `output_condensed_subtitles` is set.
   */
  function Condense(cfg: Config, tools: Tools, source: SubSource, video: string, tempDir: string,
                    output: string, disk: Disk): (r: Result<Disk, Error>)
    ensures r.Success? ==> r.value.dirs == disk.dirs && r.value.temp == disk.temp
    ensures r.Success? <==>
      && PeriodsOf(cfg, tools.cues(source)).Success?
      && (forall i :: 0 <= i < |PeriodsOf(cfg, tools.cues(source)).value| ==> tools.segmentOk(video, i))
      && tools.concatOk(output)
    ensures r.Success? ==> output in r.value.files && disk.files <= r.value.files
    ensures r.Success? ==> r.value.files - disk.files <= {output, Root(output) + ".srt"}
    ensures r.Success? && cfg.outputCondensedSubtitles ==> Root(output) + ".srt" in r.value.files
  {
    match PeriodsOf(cfg, tools.cues(source))
    case Failure(e) => Failure(e)
    case Success(periods) =>
      var ok := (i: nat) => tools.segmentOk(video, i);
      assert forall i :: 0 <= i < |periods| ==> ok(i) == tools.segmentOk(video, i);
      match ExtractAudio(|periods|, tempDir, ok)
      case Failure(e) => Failure(e)
      case Success(_) =>
        if !tools.concatOk(output) then Failure(ConcatenationFailed)
        else
          var condensedSrt := if cfg.outputCondensedSubtitles then {Root(output) + ".srt"} else {};
          Success(disk.(files := disk.files + {output} + condensedSrt))
  }

  /** What one `condense_multi` call works on. */
  datatype Job = Job(
    videoPaths: seq<string>,
    videoNames: seq<string>,
    found: seq<string>,       // the same-name subtitles found, without gaps
    subIndex: nat,
    outputDir: string,
    tempDir: string)

  predicate ValidJob(job: Job)
  {
    |job.videoPaths| == |job.videoNames|
  }

  /** The output of video `i`: its name's root with the configured format, in the output directory. */
  function OutputPath(cfg: Config, job: Job, i: nat): string
    requires ValidJob(job) && i < |job.videoNames|
  {
    Join(job.outputDir, Root(job.videoNames[i]) + "." + cfg.outputFormat)
  }

  /**
   * The subtitle for video `i`: `all_subtitle_paths[i]` when that list is
   * not empty (it has no entry for the videos without subtitles, so this is
   * the `i`-th subtitle found, and an index error past its end), the chosen
   * stream of the video otherwise.
   */
  function SourceFor(tools: Tools, job: Job, i: nat): Result<SubSource, Error>
    requires ValidJob(job) && i < |job.videoPaths|
  {
    var video := job.videoPaths[i];
    if |job.found| > 0 && i >= |job.found| then Failure(SubtitleIndexOutOfRange)
    else if |job.found| > 0 && job.found[i] != "" then
      match FromFile(tools, job.found[i], job.tempDir)
      case Success((source, _)) => Success(source)
      case Failure(e) => Failure(e)
    else if tools.extractSrtOk(video, job.subIndex) then Success(Internal(video, job.subIndex))
    else Failure(SubtitleExtractionFailed)
  }

  /**
   * The indexing as written: once some subtitle was found, video `i` takes
   * the `i`-th subtitle found, whichever video it belongs to (see
   * `FoundListShifts`), and a video past the end of that list raises an
   * index error; only when none was found do the videos use the chosen stream.
   */
  lemma SourceByPosition(tools: Tools, job: Job, i: nat)
    requires ValidJob(job) && i < |job.videoPaths|
    ensures |job.found| > 0 && i >= |job.found| ==> SourceFor(tools, job, i) == Failure(SubtitleIndexOutOfRange)
    ensures |job.found| > i && job.found[i] != "" && SourceFor(tools, job, i).Success? ==>
      SourceFor(tools, job, i).value == External(job.found[i])
    ensures |job.found| == 0 && SourceFor(tools, job, i).Success? ==>
      SourceFor(tools, job, i).value == Internal(job.videoPaths[i], job.subIndex)
  {
  }

  /**
   * One pass of the `condense_multi` loop: an existing output is skipped;
   * otherwise the temporary directory is created, the video condensed and
   * the directory removed.  An exception leaves the directory in place.
   */
  function Item(cfg: Config, tools: Tools, job: Job, disk: Disk, i: nat): Outcome
    requires ValidJob(job) && i < |job.videoPaths|
  {
    var output := OutputPath(cfg, job, i);
    if output in disk.files then Outcome(disk, None)
    else
      var started := disk.(temp := true);
      match SourceFor(tools, job, i)
      case Failure(e) => Outcome(started, Some(e))
      case Success(source) =>
        match Condense(cfg, tools, source, job.videoPaths[i], job.tempDir, output, started)
        case Failure(e) => Outcome(started, Some(e))
        case Success(done) => Outcome(done.(temp := false), None)
  }

  /** Item `i` of a job, as a step of the loop; there is nothing to do past the last video. */
  function ItemStep(cfg: Config, tools: Tools, job: Job): (Disk, nat) -> Outcome
    requires ValidJob(job)
  {
    (d: Disk, i: nat) => if i < |job.videoPaths| then Item(cfg, tools, job, d, i) else Outcome(d, None)
  }

  /** The steps from `i` up to `n`, in order, up to the first exception. */
  function Loop(step: (Disk, nat) -> Outcome, n: nat, disk: Disk, i: nat): Outcome
    requires i <= n
    decreases n - i
  {
    if i == n then Outcome(disk, None)
    else
      var o := step(disk, i);
      if o.error.Some? then o else Loop(step, n, o.disk, i + 1)
  }

  /** The videos from `i` on, in order, up to the first exception. */
  function RunItems(cfg: Config, tools: Tools, job: Job, disk: Disk, i: nat): Outcome
    requires ValidJob(job) && i <= |job.videoPaths|
  {
    Loop(ItemStep(cfg, tools, job), |job.videoPaths|, disk, i)
  }

  /** The output directory of a folder: `<folder>_con` next to it or under the fixed directory, or the fixed directory itself. */
  function OutputDir(cfg: Config, parent: string, folder: string): string
  {
    match cfg.fixedOutputDir
    case Some(fixed) => if cfg.fixedOutputDirWithSubfolders then Join(fixed, folder + "_con") else fixed
    case None => Join(parent, folder + "_con")
  }

  /**
   * `condense_multi`: videos without a same-name subtitle need an internal
   * one (and the subtitle stream is then chosen once for all), the audio
   * stream is chosen once, the output directory is created and the videos
   * are condensed in order.
   */
  function CondenseMultiSpec(cfg: Config, tools: Tools, dialogs: Dialogs, disk: Disk, subtitleOption: seq<string>,
                             videoPaths: seq<string>, videoNames: seq<string>, subtitleStreams: seq<Stream>,
                             audioStreams: seq<Stream>, parent: string, folder: string, tempDir: string): Outcome
    requires |videoPaths| == |videoNames|
  {
    var (found, invalid) := Matching(cfg, disk.files, videoPaths);
    if invalid != [] && |subtitleOption| == 0 then Outcome(disk, Some(MissingSubtitles))
    else
      var subIndex := if invalid != [] then ChooseSubtitleStream(cfg, subtitleStreams, dialogs.subtitleChoice) else 0;
      match ChooseAudioStream(audioStreams, dialogs.audioChoice)
      case Failure(e) => Outcome(disk, Some(e))
      case Success(_) =>
        var outputDir := OutputDir(cfg, parent, folder);
        var job := Job(videoPaths, videoNames, found, subIndex, outputDir, tempDir);
        RunItems(cfg, tools, job, disk.(dirs := disk.dirs + {outputDir}), 0)
  }

  /** A video whose output already exists is skipped with no other effect. */
  lemma SkipHasNoEffect(cfg: Config, tools: Tools, job: Job, disk: Disk, i: nat)
    requires ValidJob(job) && i < |job.videoPaths| && OutputPath(cfg, job, i) in disk.files
    ensures Item(cfg, tools, job, disk, i) == Outcome(disk, None)
  {
  }

  /**
   * One pass only adds files and never touches the directories; a video
   * condensed without exception has its output and leaves no temporary
   * directory, and an exception leaves the files as they were.
   */
  lemma ItemEffect(cfg: Config, tools: Tools, job: Job, disk: Disk, i: nat)
    requires ValidJob(job) && i < |job.videoPaths|
    ensures var o := Item(cfg, tools, job, disk, i);
      && disk.files <= o.disk.files && o.disk.dirs == disk.dirs
      && (o.error.None? ==> OutputPath(cfg, job, i) in o.disk.files)
      && (o.error.None? && OutputPath(cfg, job, i) !in disk.files ==> !o.disk.temp)
      && (o.error.None? && OutputPath(cfg, job, i) in disk.files ==> o.disk == disk)
      && (o.error.Some? ==> o.disk.files == disk.files && o.disk.temp)
  {
    var output := OutputPath(cfg, job, i);
    if output !in disk.files {
      var started := disk.(temp := true);
      var source := SourceFor(tools, job, i);
      if source.Success? {
        var c := Condense(cfg, tools, source.value, job.videoPaths[i], job.tempDir, output, started);
        if c.Success? {
          assert Item(cfg, tools, job, disk, i) == Outcome(c.value.(temp := false), None);
        } else {
          assert Item(cfg, tools, job, disk, i) == Outcome(started, Some(c.error));
        }
      } else {
        assert Item(cfg, tools, job, disk, i) == Outcome(started, Some(source.error));
      }
    }
  }

  /** Every step only adds files and directories. */
  ghost predicate Grows(step: (Disk, nat) -> Outcome)
  {
    forall d: Disk, k: nat :: d.files <= step(d, k).disk.files && d.dirs <= step(d, k).disk.dirs
  }

  /** A step that succeeds leaves no temporary directory when there was none. */
  ghost predicate KeepsClean(step: (Disk, nat) -> Outcome)
  {
    forall d: Disk, k: nat :: step(d, k).error.None? && !d.temp ==> !step(d, k).disk.temp
  }

  /** Step `k` below `n`, when it succeeds, leaves the files `out(k)`. */
  ghost predicate Leaves(step: (Disk, nat) -> Outcome, out: nat -> set<string>, n: nat)
  {
    forall d: Disk, k: nat :: k < n && step(d, k).error.None? ==> out(k) <= step(d, k).disk.files
  }

  /** A loop whose every step only adds files and directories does the same. */
  lemma {:induction false} LoopGrows(step: (Disk, nat) -> Outcome, n: nat, disk: Disk, i: nat)
    requires i <= n && Grows(step)
    ensures disk.files <= Loop(step, n, disk, i).disk.files && disk.dirs <= Loop(step, n, disk, i).disk.dirs
    decreases n - i
  {
    if i < n && step(disk, i).error.None? {
      LoopGrows(step, n, step(disk, i).disk, i + 1);
    }
  }

  /**
   * A loop whose steps only add files, leave their own outputs when they
   * succeed and never leave the temporary directory behind when they
   * succeed, ends without exception only with every output present, and
   * with no temporary directory if there was none at the start.
   */
  lemma {:induction false} LoopOutputs(step: (Disk, nat) -> Outcome, out: nat -> set<string>, n: nat, disk: Disk, i: nat)
    requires i <= n && Grows(step) && KeepsClean(step) && Leaves(step, out, n)
    requires Loop(step, n, disk, i).error.None?
    ensures forall k :: i <= k < n ==> out(k) <= Loop(step, n, disk, i).disk.files
    ensures !disk.temp ==> !Loop(step, n, disk, i).disk.temp
    decreases n - i
  {
    if i < n {
      var o := step(disk, i);
      LoopOutputs(step, out, n, o.disk, i + 1);
      LoopGrows(step, n, o.disk, i + 1);
    }
  }

  /** A loop whose every step is skipped changes nothing. */
  lemma {:induction false} LoopSkipsAll(step: (Disk, nat) -> Outcome, n: nat, disk: Disk, i: nat)
    requires i <= n
    requires forall k :: i <= k < n ==> step(disk, k) == Outcome(disk, None)
    ensures Loop(step, n, disk, i) == Outcome(disk, None)
    decreases n - i
  {
    if i < n {
      LoopSkipsAll(step, n, disk, i + 1);
    }
  }

  /** The output of video `k`; nothing past the last one. */
  function OutputOf(cfg: Config, job: Job): nat -> set<string>
    requires ValidJob(job)
  {
    (k: nat) => if k < |job.videoNames| then {OutputPath(cfg, job, k)} else {}
  }

  /** The items of a job meet what `LoopGrows` and `LoopOutputs` ask of a step. */
  lemma ItemStepEffect(cfg: Config, tools: Tools, job: Job)
    requires ValidJob(job)
    ensures Grows(ItemStep(cfg, tools, job)) && KeepsClean(ItemStep(cfg, tools, job))
    ensures Leaves(ItemStep(cfg, tools, job), OutputOf(cfg, job), |job.videoPaths|)
  {
    var step := ItemStep(cfg, tools, job);
    var out := OutputOf(cfg, job);
    forall d: Disk, k: nat
      ensures d.files <= step(d, k).disk.files && d.dirs <= step(d, k).disk.dirs
      ensures step(d, k).error.None? && !d.temp ==> !step(d, k).disk.temp
      ensures k < |job.videoPaths| && step(d, k).error.None? ==> out(k) <= step(d, k).disk.files
    {
      if k < |job.videoPaths| {
        ItemEffect(cfg, tools, job, d, k);
      }
    }
  }

  /** A run over the videos from `i` only adds files and directories. */
  lemma RunItemsGrow(cfg: Config, tools: Tools, job: Job, disk: Disk, i: nat)
    requires ValidJob(job) && i <= |job.videoPaths|
    ensures disk.files <= RunItems(cfg, tools, job, disk, i).disk.files
    ensures disk.dirs <= RunItems(cfg, tools, job, disk, i).disk.dirs
  {
    ItemStepEffect(cfg, tools, job);
    LoopGrows(ItemStep(cfg, tools, job), |job.videoPaths|, disk, i);
  }

  /**
   * A run over the videos from `i` that ends without exception leaves the
   * output of every one of them, and no temporary directory if there was
   * none before.
   */
  lemma RunItemsOutputs(cfg: Config, tools: Tools, job: Job, disk: Disk, i: nat)
    requires ValidJob(job) && i <= |job.videoPaths|
    requires RunItems(cfg, tools, job, disk, i).error.None?
    ensures forall k :: i <= k < |job.videoPaths| ==> OutputPath(cfg, job, k) in RunItems(cfg, tools, job, disk, i).disk.files
    ensures !disk.temp ==> !RunItems(cfg, tools, job, disk, i).disk.temp
  {
    var out := OutputOf(cfg, job);
    ItemStepEffect(cfg, tools, job);
    LoopOutputs(ItemStep(cfg, tools, job), out, |job.videoPaths|, disk, i);
    forall k | i <= k < |job.videoPaths| ensures OutputPath(cfg, job, k) in RunItems(cfg, tools, job, disk, i).disk.files {
      assert out(k) == {OutputPath(cfg, job, k)};
    }
  }

  /** When every output exists already, the run skips every video and changes nothing. */
  lemma AllPresentSkipsAll(cfg: Config, tools: Tools, job: Job, disk: Disk, i: nat)
    requires ValidJob(job) && i <= |job.videoPaths|
    requires forall k :: i <= k < |job.videoPaths| ==> OutputPath(cfg, job, k) in disk.files
    ensures RunItems(cfg, tools, job, disk, i) == Outcome(disk, None)
  {
    forall k | i <= k < |job.videoPaths| ensures ItemStep(cfg, tools, job)(disk, k) == Outcome(disk, None) {
      SkipHasNoEffect(cfg, tools, job, disk, k);
    }
    LoopSkipsAll(ItemStep(cfg, tools, job), |job.videoPaths|, disk, i);
  }

  /**
   * Running `condense_multi` a second time over what a successful first run
   * left behind skips every video and changes nothing.
   */
  lemma SecondRunSkipsAll(cfg: Config, tools: Tools, dialogs: Dialogs, disk: Disk, subtitleOption: seq<string>,
                          videoPaths: seq<string>, videoNames: seq<string>, subtitleStreams: seq<Stream>,
                          audioStreams: seq<Stream>, parent: string, folder: string, tempDir: string)
    requires |videoPaths| == |videoNames|
    requires CondenseMultiSpec(cfg, tools, dialogs, disk, subtitleOption, videoPaths, videoNames, subtitleStreams,
                               audioStreams, parent, folder, tempDir).error.None?
    ensures var after := CondenseMultiSpec(cfg, tools, dialogs, disk, subtitleOption, videoPaths, videoNames,
                                           subtitleStreams, audioStreams, parent, folder, tempDir).disk;
      CondenseMultiSpec(cfg, tools, dialogs, after, subtitleOption, videoPaths, videoNames, subtitleStreams,
                        audioStreams, parent, folder, tempDir) == Outcome(after, None)
  {
    CondenseMultiEffect(cfg, tools, dialogs, disk, subtitleOption, videoPaths, videoNames, subtitleStreams,
                        audioStreams, parent, folder, tempDir);
    var after := CondenseMultiSpec(cfg, tools, dialogs, disk, subtitleOption, videoPaths, videoNames, subtitleStreams,
                                   audioStreams, parent, folder, tempDir).disk;
    var outputDir := OutputDir(cfg, parent, folder);
    var invalid := Matching(cfg, disk.files, videoPaths).1;
    assert !(invalid != [] && |subtitleOption| == 0);
    MatchingInvalidShrinks(cfg, disk.files, after.files, videoPaths);
    var (found', invalid') := Matching(cfg, after.files, videoPaths);
    var subIndex' := if invalid' != [] then ChooseSubtitleStream(cfg, subtitleStreams, dialogs.subtitleChoice) else 0;
    var job' := Job(videoPaths, videoNames, found', subIndex', outputDir, tempDir);
    assert after.(dirs := after.dirs + {outputDir}) == after;
    forall k | 0 <= k < |videoPaths| ensures OutputPath(cfg, job', k) in after.files {
      assert OutputPath(cfg, job', k) == Join(outputDir, Root(videoNames[k]) + "." + cfg.outputFormat);
    }
    AllPresentSkipsAll(cfg, tools, job', after, 0);
  }

  /**
   * `condense_multi` only adds files and directories; when it ends without
   * exception the output directory exists and holds the output of every
   * video of the batch.
   */
  lemma CondenseMultiEffect(cfg: Config, tools: Tools, dialogs: Dialogs, disk: Disk, subtitleOption: seq<string>,
                            videoPaths: seq<string>, videoNames: seq<string>, subtitleStreams: seq<Stream>,
                            audioStreams: seq<Stream>, parent: string, folder: string, tempDir: string)
    requires |videoPaths| == |videoNames|
    ensures var o := CondenseMultiSpec(cfg, tools, dialogs, disk, subtitleOption, videoPaths, videoNames,
                                       subtitleStreams, audioStreams, parent, folder, tempDir);
      && disk.files <= o.disk.files && disk.dirs <= o.disk.dirs
      && (o.error.None? ==> OutputDir(cfg, parent, folder) in o.disk.dirs)
      && (o.error.None? ==> forall k :: 0 <= k < |videoNames| ==>
            Join(OutputDir(cfg, parent, folder), Root(videoNames[k]) + "." + cfg.outputFormat) in o.disk.files)
      && (o.error.None? && !disk.temp ==> !o.disk.temp)
  {
    var (found, invalid) := Matching(cfg, disk.files, videoPaths);
    if !(invalid != [] && |subtitleOption| == 0) {
      var subIndex := if invalid != [] then ChooseSubtitleStream(cfg, subtitleStreams, dialogs.subtitleChoice) else 0;
      if ChooseAudioStream(audioStreams, dialogs.audioChoice).Success? {
        var outputDir := OutputDir(cfg, parent, folder);
        var job := Job(videoPaths, videoNames, found, subIndex, outputDir, tempDir);
        var start := disk.(dirs := disk.dirs + {outputDir});
        RunItemsGrow(cfg, tools, job, start, 0);
        var o := RunItems(cfg, tools, job, start, 0);
        assert CondenseMultiSpec(cfg, tools, dialogs, disk, subtitleOption, videoPaths, videoNames,
                                 subtitleStreams, audioStreams, parent, folder, tempDir) == o;
        if o.error.None? {
          RunItemsOutputs(cfg, tools, job, start, 0);
          forall k | 0 <= k < |videoNames|
            ensures Join(outputDir, Root(videoNames[k]) + "." + cfg.outputFormat) in o.disk.files
          {
            assert OutputPath(cfg, job, k) == Join(outputDir, Root(videoNames[k]) + "." + cfg.outputFormat);
          }
        }
      }
    }
  }

  /**
   * `condense` on the file system: the periods, the segments, the
   * concatenation, then the output (and the condensed SRT) appear; an
   * exception leaves the files as they were.
   */
  method CondenseVideo(fs: FileSystem, cfg: Config, tools: Tools, source: SubSource, video: string, tempDir: string,
                       output: string) returns (err: Option<Error>)
    modifies fs
    ensures var r := Condense(cfg, tools, source, video, tempDir, output, old(fs.State()));
      && (r.Success? ==> err.None? && fs.State() == r.value)
      && (r.Failure? ==> err == Some(r.error) && fs.State() == old(fs.State()))
  {
    var periods := ExtractPeriods(cfg, tools.cues(source));
    if periods.Failure? {
      return Some(periods.error);
    }
    var ok := (i: nat) => tools.segmentOk(video, i);
    var parts, _ := ExtractAudioParts(periods.value, tempDir, ok);
    if parts.Failure? {
      return Some(parts.error);
    }
    if !tools.concatOk(output) {
      return Some(ConcatenationFailed);
    }
    fs.files := fs.files + {output};
    if cfg.outputCondensedSubtitles {
      fs.files := fs.files + {Root(output) + ".srt"};
    }
    return None;
  }

  /** One pass of the `condense_multi` loop on the file system. */
  method ProcessItem(fs: FileSystem, cfg: Config, tools: Tools, job: Job, i: nat) returns (err: Option<Error>)
    requires ValidJob(job) && i < |job.videoPaths|
    modifies fs
    ensures Outcome(fs.State(), err) == Item(cfg, tools, job, old(fs.State()), i)
  {
    var output := OutputPath(cfg, job, i);
    if output in fs.files {
      return None;
    }
    fs.temp := true;
    var source := SourceFor(tools, job, i);
    if source.Failure? {
      return Some(source.error);
    }
    err := CondenseVideo(fs, cfg, tools, source.value, job.videoPaths[i], job.tempDir, output);
    if err.Some? {
      return;
    }
    fs.temp := false;
  }

  /**
   * `condense_multi` on the file system: the checks and choices made once
   * for the batch, the output directory, then the videos in order until the
   * first exception.
   */
  method CondenseMulti(fs: FileSystem, cfg: Config, tools: Tools, dialogs: Dialogs, subtitleOption: seq<string>,
                       videoPaths: seq<string>, videoNames: seq<string>, subtitleStreams: seq<Stream>,
                       audioStreams: seq<Stream>, parent: string, folder: string, tempDir: string)
    returns (err: Option<Error>)
    requires |videoPaths| == |videoNames|
    modifies fs
    ensures Outcome(fs.State(), err) == CondenseMultiSpec(cfg, tools, dialogs, old(fs.State()), subtitleOption, videoPaths,
                                                         videoNames, subtitleStreams, audioStreams, parent, folder, tempDir)
  {
    var found, invalid := FindMatchingSubtitles(cfg, fs.files, videoPaths);
    var subIndex := 0;
    if invalid != [] {
      if |subtitleOption| == 0 {
        return Some(MissingSubtitles);
      }
      subIndex := ChooseSubtitleStream(cfg, subtitleStreams, dialogs.subtitleChoice);
    }
    var audioIndex := ChooseAudioStream(audioStreams, dialogs.audioChoice);
    if audioIndex.Failure? {
      return Some(audioIndex.error);
    }
    var outputDir := OutputDir(cfg, parent, folder);
    fs.dirs := fs.dirs + {outputDir};
    var job := Job(videoPaths, videoNames, found, subIndex, outputDir, tempDir);
    err := RunJob(fs, cfg, tools, job);
  }

  /** The loop of `condense_multi`: the videos in order, stopping at the first exception. */
  method RunJob(fs: FileSystem, cfg: Config, tools: Tools, job: Job) returns (err: Option<Error>)
    requires ValidJob(job)
    modifies fs
    ensures Outcome(fs.State(), err) == RunItems(cfg, tools, job, old(fs.State()), 0)
  {
    ghost var step := ItemStep(cfg, tools, job);
    ghost var start := fs.State();
    for i := 0 to |job.videoPaths|
      invariant Loop(step, |job.videoPaths|, fs.State(), i) == Loop(step, |job.videoPaths|, start, 0)
    {
      ghost var before := fs.State();
      err := ProcessItem(fs, cfg, tools, job, i);
      assert step(before, i) == Outcome(fs.State(), err);
      if err.Some? {
        return;
      }
    }
    return None;
  }
}
