/**
 * `main`: the input path, the folder branch (list the folder, keep the
 * videos, probe them, group them by stream labels and run `condense_multi`
 * on each group) and the single-file branch, inside a `try` whose `finally`
 * removes the temporary directory.
 */
module Driver {
  import opened Wrappers
  import opened Errors
  import opened Config
  import opened Paths
  import opened Streams
  import opened Grouping
  import opened Subtitles
  import opened Media
  import opened Batch

  /** The extensions that make a file of the folder a video; the comparison is case-sensitive. */
  const VideoExts: seq<string> := [".mkv", ".mp4", ".webm", ".mpg", ".mp2", ".mpeg", ".mpe", ".mpv", ".ogg", ".m4p",
                                   ".m4v", ".avi", ".wmv", ".mov", ".qt", ".flv", ".swf", ".mp3", ".wav", ".flac",
                                   ".m4a", ".aac"]

  /** The elements of `xs` that satisfy `p`, in order (a list comprehension with a condition). */
  function Filter(xs: seq<string>, p: string -> bool): (r: seq<string>)
    ensures |r| <= |xs|
    ensures forall x :: x in r <==> x in xs && p(x)
  {
    if xs == [] then [] else (if p(xs[0]) then [xs[0]] else []) + Filter(xs[1..], p)
  }

  /**
   * Filtering a concatenation filters each part and keeps them in order;
   * with `FilterOne` this fixes the result: the order and the repetitions of
   * the kept elements are those of `xs`.
   */
  lemma {:induction false} FilterAppend(xs: seq<string>, ys: seq<string>, p: string -> bool)
    ensures Filter(xs + ys, p) == Filter(xs, p) + Filter(ys, p)
    decreases |xs|
  {
    if xs == [] {
      assert xs + ys == ys;
    } else {
      assert (xs + ys)[1..] == xs[1..] + ys;
      FilterAppend(xs[1..], ys, p);
    }
  }

  /** A single element is kept exactly when it satisfies the condition. */
  lemma FilterOne(x: string, p: string -> bool)
    ensures Filter([x], p) == if p(x) then [x] else []
  {
    assert [x][1..] == [];
  }

  /** The videos of a folder, their paths and their probed streams. */
  datatype Scan = Scan(videoNames: seq<string>, videoPaths: seq<string>,
                       audio: seq<seq<Stream>>, subtitles: seq<seq<Stream>>)

  predicate ValidScan(scan: Scan)
  {
    && |scan.videoNames| > 0
    && |scan.videoPaths| == |scan.videoNames| == |scan.audio| == |scan.subtitles|
  }

  /**
   * The videos of a folder, in listing order: the names whose path is an
   * existing file (not a directory) and whose extension is a video extension.
   */
  function VideoNames(listing: seq<string>, files: set<string>, dir: string): (r: seq<string>)
    ensures forall f :: f in r <==> f in listing && Join(dir, f) in files && Ext(f) in VideoExts
  {
    var fileNames := Filter(listing, f => Join(dir, f) in files);
    Filter(fileNames, f => Ext(f) in VideoExts)
  }

  /**
   * The videos keep the listing order: the videos of two consecutive parts of
   * the listing are those of the first part followed by those of the second,
   * and a single name is kept exactly when it is a video file.
   */
  lemma VideoNamesInOrder(xs: seq<string>, ys: seq<string>, files: set<string>, dir: string)
    ensures VideoNames(xs + ys, files, dir) == VideoNames(xs, files, dir) + VideoNames(ys, files, dir)
    ensures forall f ::
              VideoNames([f], files, dir) == (if Join(dir, f) in files && Ext(f) in VideoExts then [f] else [])
  {
    var isFile := f => Join(dir, f) in files;
    var isVideo := f => Ext(f) in VideoExts;
    FilterAppend(xs, ys, isFile);
    FilterAppend(Filter(xs, isFile), Filter(ys, isFile), isVideo);
    forall f
      ensures VideoNames([f], files, dir) == (if Join(dir, f) in files && Ext(f) in VideoExts then [f] else [])
    {
      FilterOne(f, isFile);
      FilterOne(f, isVideo);
      assert Filter([], isVideo) == [];
    }
  }

  /** ffprobe on every path; the first failure raises. */
  function ProbeAll(tools: Tools, paths: seq<string>): (r: Option<(seq<seq<Stream>>, seq<seq<Stream>>)>)
    ensures r.Some? <==> forall k :: 0 <= k < |paths| ==> tools.probe(paths[k]).Some?
    ensures r.Some? ==> |r.value.0| == |r.value.1| == |paths|
    ensures r.Some? ==> forall k :: 0 <= k < |paths| ==> tools.probe(paths[k]) == Some((r.value.0[k], r.value.1[k]))
  {
    if exists k :: 0 <= k < |paths| && tools.probe(paths[k]).None? then None
    else
      Some((seq(|paths|, k requires 0 <= k < |paths| => tools.probe(paths[k]).value.0),
            seq(|paths|, k requires 0 <= k < |paths| => tools.probe(paths[k]).value.1)))
  }

  /**
   * The folder branch up to the grouping: the videos, their paths, and
   * ffprobe on each (a failed probe raises).  With no video, unpacking the
   * empty `zip` raises.
   */
  function ScanFolder(tools: Tools, files: set<string>, dir: string): (r: Result<Scan, Error>)
    ensures r.Success? ==> ValidScan(r.value) && r.value.videoNames == VideoNames(tools.listing(dir), files, dir)
    ensures r.Success? ==> forall k :: 0 <= k < |r.value.videoNames| ==>
      && r.value.videoPaths[k] == Join(dir, r.value.videoNames[k])
      && tools.probe(r.value.videoPaths[k]) == Some((r.value.audio[k], r.value.subtitles[k]))
    ensures r.Failure? ==> r.error == ProbeFailed || r.error == EmptyBatch
    ensures r == Failure(EmptyBatch) <==> VideoNames(tools.listing(dir), files, dir) == []
  {
    var videoNames := VideoNames(tools.listing(dir), files, dir);
    var videoPaths := seq(|videoNames|, k requires 0 <= k < |videoNames| => Join(dir, videoNames[k]));
    match ProbeAll(tools, videoPaths)
    case None => Failure(ProbeFailed)
    case Some((audio, subtitles)) =>
      if videoNames == [] then Failure(EmptyBatch)
      else Success(Scan(videoNames, videoPaths, audio, subtitles))
  }

  /** The labels of each video's audio streams. */
  function AudioOptions(scan: Scan): (r: seq<seq<string>>)
    requires ValidScan(scan)
    ensures |r| == |scan.audio| && forall k :: 0 <= k < |r| ==> r[k] == Labels(scan.audio[k])
  {
    seq(|scan.audio|, k requires 0 <= k < |scan.audio| => Labels(scan.audio[k]))
  }

  /** The labels of each video's subtitle streams. */
  function SubtitleOptions(scan: Scan): (r: seq<seq<string>>)
    requires ValidScan(scan)
    ensures |r| == |scan.subtitles| && forall k :: 0 <= k < |r| ==> r[k] == Labels(scan.subtitles[k])
  {
    seq(|scan.subtitles|, k requires 0 <= k < |scan.subtitles| => Labels(scan.subtitles[k]))
  }

  /** The elements of `xs` at the indices `ids`, in that order. */
  function Pick<T>(xs: seq<T>, ids: seq<nat>): (r: seq<T>)
    requires forall a :: 0 <= a < |ids| ==> ids[a] < |xs|
    ensures |r| == |ids| && forall a :: 0 <= a < |ids| ==> r[a] == xs[ids[a]]
  {
    seq(|ids|, a requires 0 <= a < |ids| => xs[ids[a]])
  }

  /**
   * `condense_multi` on one group: its videos, and the subtitle labels and
   * streams of its first member for all of them.
   */
  function BatchOutcome(cfg: Config, tools: Tools, dialogs: Dialogs, disk: Disk, scan: Scan, ids: seq<nat>,
                        parent: string, folder: string, tempDir: string): Outcome
    requires ValidScan(scan) && |ids| > 0 && forall a :: 0 <= a < |ids| ==> ids[a] < |scan.videoNames|
  {
    CondenseMultiSpec(cfg, tools, dialogs, disk, Labels(scan.subtitles[ids[0]]),
                      Pick(scan.videoPaths, ids), Pick(scan.videoNames, ids),
                      scan.subtitles[ids[0]], scan.audio[ids[0]], parent, folder, tempDir)
  }

  /** Group `b` of a folder, as a step of the loop over the groups; nothing past the last group. */
  function BatchStep(cfg: Config, tools: Tools, dialogs: Dialogs, scan: Scan, batches: seq<seq<nat>>,
                     parent: string, folder: string, tempDir: string): (Disk, nat) -> Outcome
    requires ValidScan(scan) && WellFormed(batches, |scan.videoNames|)
  {
    (d: Disk, b: nat) =>
      if b < |batches| then BatchOutcome(cfg, tools, dialogs, d, scan, batches[b], parent, folder, tempDir)
      else Outcome(d, None)
  }

  /** The groups from `b` on, in order, up to the first exception. */
  function RunBatches(cfg: Config, tools: Tools, dialogs: Dialogs, disk: Disk, scan: Scan, batches: seq<seq<nat>>,
                      b: nat, parent: string, folder: string, tempDir: string): Outcome
    requires ValidScan(scan) && WellFormed(batches, |scan.videoNames|) && b <= |batches|
  {
    Loop(BatchStep(cfg, tools, dialogs, scan, batches, parent, folder, tempDir), |batches|, disk, b)
  }

  /** The folder branch of `main`. */
  function FolderSpec(cfg: Config, tools: Tools, dialogs: Dialogs, disk: Disk, dir: string, tempDir: string): Outcome
  {
    var (parent, folder) := Split(dir);
    match ScanFolder(tools, disk.files, dir)
    case Failure(e) => Outcome(disk, Some(e))
    case Success(scan) =>
      var batches := Batches(AudioOptions(scan), SubtitleOptions(scan));
      RunBatches(cfg, tools, dialogs, disk, scan, batches, 0, parent, folder, tempDir)
  }

  /**
   * The output of the single-file branch: the video's root with `_con` and
   * the format, next to the video or, with a fixed output directory, in it.
   */
  function SingleOutput(cfg: Config, path: string): string
  {
    var root := match cfg.fixedOutputDir
      case Some(fixed) => Join(fixed, Root(Split(path).1))
      case None => Root(path);
    root + "_con." + cfg.outputFormat
  }

  /**
   * The single-file branch of `main`: probe, create the temporary
   * directory, find the subtitle, choose the audio stream, create the fixed
   * output directory if there is one, and condense.
   */
  function SingleSpec(cfg: Config, tools: Tools, dialogs: Dialogs, disk: Disk, path: string, tempDir: string): Outcome
  {
    match tools.probe(path)
    case None => Outcome(disk, Some(ProbeFailed))
    case Some((audio, subtitles)) =>
      var started := disk.(temp := true);
      match GetSrt(cfg, tools, dialogs, started.files, subtitles, path, tempDir)
      case Failure(e) => Outcome(started, Some(e))
      case Success((source, _)) =>
        match ChooseAudioStream(audio, dialogs.audioChoice)
        case Failure(e) => Outcome(started, Some(e))
        case Success(_) =>
          var ready := if cfg.fixedOutputDir.Some? then started.(dirs := started.dirs + {cfg.fixedOutputDir.value})
                       else started;
          match Condense(cfg, tools, source, path, tempDir, SingleOutput(cfg, path), ready)
          case Failure(e) => Outcome(ready, Some(e))
          case Success(done) => Outcome(done, None)
  }

  /** The input: the command-line path, or else the one picked in the dialogs. */
  function Input(dialogs: Dialogs, filePath: Option<string>): Option<string>
  {
    if filePath.Some? then filePath else dialogs.input
  }

  /** The `try` block of `main`. */
  function MainSpec(cfg: Config, tools: Tools, dialogs: Dialogs, disk: Disk, filePath: Option<string>,
                    tempDir: string): Outcome
  {
    match Input(dialogs, filePath)
    case None => Outcome(disk, Some(NoInput))
    case Some(path) =>
      if path !in disk.files && path !in disk.dirs then Outcome(disk, Some(NoSuchPath))
      else if path in disk.dirs then FolderSpec(cfg, tools, dialogs, disk, path, tempDir)
      else SingleSpec(cfg, tools, dialogs, disk, path, tempDir)
  }

  /** Where the folder branch writes the output of the video `name`. */
  function FolderOutput(cfg: Config, dir: string, name: string): string
  {
    Join(OutputDir(cfg, Split(dir).0, Split(dir).1), Root(name) + "." + cfg.outputFormat)
  }

  /** The outputs of the videos of group `c`; nothing past the last group. */
  function BatchOutputs(cfg: Config, dir: string, scan: Scan, batches: seq<seq<nat>>): nat -> set<string>
    requires ValidScan(scan) && WellFormed(batches, |scan.videoNames|)
  {
    (c: nat) => if c < |batches| then set a | 0 <= a < |batches[c]| :: FolderOutput(cfg, dir, scan.videoNames[batches[c][a]])
                else {}
  }

  /**
   * One group only adds files and directories, leaves no temporary
   * directory when there was none, and when it ends without exception every
   * one of its videos has its output.
   */
  lemma BatchEffect(cfg: Config, tools: Tools, dialogs: Dialogs, disk: Disk, scan: Scan, ids: seq<nat>,
                    dir: string, tempDir: string)
    requires ValidScan(scan) && |ids| > 0 && forall a :: 0 <= a < |ids| ==> ids[a] < |scan.videoNames|
    ensures var o := BatchOutcome(cfg, tools, dialogs, disk, scan, ids, Split(dir).0, Split(dir).1, tempDir);
      && disk.files <= o.disk.files && disk.dirs <= o.disk.dirs
      && (o.error.None? && !disk.temp ==> !o.disk.temp)
      && (o.error.None? ==> forall a :: 0 <= a < |ids| ==> FolderOutput(cfg, dir, scan.videoNames[ids[a]]) in o.disk.files)
  {
    var (parent, folder) := Split(dir);
    CondenseMultiEffect(cfg, tools, dialogs, disk, Labels(scan.subtitles[ids[0]]),
                        Pick(scan.videoPaths, ids), Pick(scan.videoNames, ids),
                        scan.subtitles[ids[0]], scan.audio[ids[0]], parent, folder, tempDir);
    assert forall a :: 0 <= a < |ids| ==> Pick(scan.videoNames, ids)[a] == scan.videoNames[ids[a]];
  }

  /** The groups of a folder meet what `LoopGrows` and `LoopOutputs` ask of a step. */
  lemma BatchStepEffect(cfg: Config, tools: Tools, dialogs: Dialogs, scan: Scan, batches: seq<seq<nat>>,
                        dir: string, tempDir: string)
    requires ValidScan(scan) && WellFormed(batches, |scan.videoNames|)
    ensures var step := BatchStep(cfg, tools, dialogs, scan, batches, Split(dir).0, Split(dir).1, tempDir);
      Grows(step) && KeepsClean(step) && Leaves(step, BatchOutputs(cfg, dir, scan, batches), |batches|)
  {
    var step := BatchStep(cfg, tools, dialogs, scan, batches, Split(dir).0, Split(dir).1, tempDir);
    var out := BatchOutputs(cfg, dir, scan, batches);
    forall d: Disk, k: nat
      ensures d.files <= step(d, k).disk.files && d.dirs <= step(d, k).disk.dirs
      ensures step(d, k).error.None? && !d.temp ==> !step(d, k).disk.temp
      ensures k < |batches| && step(d, k).error.None? ==> out(k) <= step(d, k).disk.files
    {
      if k < |batches| {
        BatchEffect(cfg, tools, dialogs, d, scan, batches[k], dir, tempDir);
      }
    }
  }

  /**
   * The folder branch only adds files and directories, and when it ends
   * without exception every video of the folder has its output in the
   * output directory.
   */
  lemma FolderOutputs(cfg: Config, tools: Tools, dialogs: Dialogs, disk: Disk, dir: string, tempDir: string)
    ensures var o := FolderSpec(cfg, tools, dialogs, disk, dir, tempDir);
      && disk.files <= o.disk.files && disk.dirs <= o.disk.dirs
      && (o.error.None? ==> forall f :: f in VideoNames(tools.listing(dir), disk.files, dir) ==>
            FolderOutput(cfg, dir, f) in o.disk.files)
  {
    var (parent, folder) := Split(dir);
    var scanned := ScanFolder(tools, disk.files, dir);
    if scanned.Success? {
      var scan := scanned.value;
      var batches := Batches(AudioOptions(scan), SubtitleOptions(scan));
      BatchesCoverAll(AudioOptions(scan), SubtitleOptions(scan));
      GroupsOutputs(cfg, tools, dialogs, disk, scan, batches, dir, tempDir);
      var o := RunBatches(cfg, tools, dialogs, disk, scan, batches, 0, parent, folder, tempDir);
      assert FolderSpec(cfg, tools, dialogs, disk, dir, tempDir) == o;
      if o.error.None? {
        forall f | f in scan.videoNames ensures FolderOutput(cfg, dir, f) in o.disk.files {
          var k :| 0 <= k < |scan.videoNames| && scan.videoNames[k] == f;
        }
      }
    }
  }

  /**
   * The groups of a folder only add files and directories, and when they
   * cover every video and end without exception, every video has its output.
   */
  lemma GroupsOutputs(cfg: Config, tools: Tools, dialogs: Dialogs, disk: Disk, scan: Scan, batches: seq<seq<nat>>,
                      dir: string, tempDir: string)
    requires ValidScan(scan) && WellFormed(batches, |scan.videoNames|)
    requires forall k :: 0 <= k < |scan.videoNames| ==> InSome(batches, k)
    ensures var o := RunBatches(cfg, tools, dialogs, disk, scan, batches, 0, Split(dir).0, Split(dir).1, tempDir);
      && disk.files <= o.disk.files && disk.dirs <= o.disk.dirs
      && (o.error.None? ==> forall k :: 0 <= k < |scan.videoNames| ==> FolderOutput(cfg, dir, scan.videoNames[k]) in o.disk.files)
  {
    var step := BatchStep(cfg, tools, dialogs, scan, batches, Split(dir).0, Split(dir).1, tempDir);
    var out := BatchOutputs(cfg, dir, scan, batches);
    BatchStepEffect(cfg, tools, dialogs, scan, batches, dir, tempDir);
    LoopGrows(step, |batches|, disk, 0);
    var o := Loop(step, |batches|, disk, 0);
    if o.error.None? {
      LoopOutputs(step, out, |batches|, disk, 0);
      forall k | 0 <= k < |scan.videoNames| ensures FolderOutput(cfg, dir, scan.videoNames[k]) in o.disk.files {
        assert InSome(batches, k);
        var c :| 0 <= c < |batches| && k in batches[c];
        var a :| 0 <= a < |batches[c]| && batches[c][a] == k;
        assert FolderOutput(cfg, dir, scan.videoNames[k]) in out(c);
      }
    }
  }

  /**
   * The single-file output never overwrites its video when it is written
   * next to it: `_con.` and the format come after the video's root, where
   * the video has its extension (which starts with a dot) or nothing.
   */
  lemma SingleOutputIsNotInput(cfg: Config, path: string)
    requires cfg.fixedOutputDir.None?
    ensures SingleOutput(cfg, path) != path
  {
    var (root, ext) := SplitExt(path);
    var out := SingleOutput(cfg, path);
    assert out == root + ("_con." + cfg.outputFormat);
  }

  /**
   * The single-file branch only adds files and directories; when it ends
   * without exception its output exists, and the temporary directory is
   * still there for the `finally` of `main` to remove.
   */
  lemma SingleEffect(cfg: Config, tools: Tools, dialogs: Dialogs, disk: Disk, path: string, tempDir: string)
    ensures var o := SingleSpec(cfg, tools, dialogs, disk, path, tempDir);
      && disk.files <= o.disk.files && disk.dirs <= o.disk.dirs
      && (o.error.None? ==> SingleOutput(cfg, path) in o.disk.files && o.disk.temp)
      && (o.error.Some? ==> o.disk.files == disk.files)
  {
    var o := SingleSpec(cfg, tools, dialogs, disk, path, tempDir);
    if tools.probe(path).Some? {
      var (audio, subtitles) := tools.probe(path).value;
      var started := disk.(temp := true);
      var srt := GetSrt(cfg, tools, dialogs, started.files, subtitles, path, tempDir);
      if srt.Success? && ChooseAudioStream(audio, dialogs.audioChoice).Success? {
        var ready := if cfg.fixedOutputDir.Some? then started.(dirs := started.dirs + {cfg.fixedOutputDir.value})
                     else started;
        var c := Condense(cfg, tools, srt.value.0, path, tempDir, SingleOutput(cfg, path), ready);
        assert o == if c.Success? then Outcome(c.value, None) else Outcome(ready, Some(c.error));
      }
    }
  }

  /**
   * The `try` block of `main` only adds files and directories; when it ends
   * without exception on a folder, every video of the folder has its
   * output, and on a single video, its output exists.
   */
  lemma MainEffect(cfg: Config, tools: Tools, dialogs: Dialogs, disk: Disk, filePath: Option<string>, tempDir: string)
    ensures var o := MainSpec(cfg, tools, dialogs, disk, filePath, tempDir);
      && disk.files <= o.disk.files && disk.dirs <= o.disk.dirs
      && (o.error.None? ==> Input(dialogs, filePath).Some?)
      && (o.error.None? && Input(dialogs, filePath).value in disk.dirs ==>
            var dir := Input(dialogs, filePath).value;
            forall f :: f in VideoNames(tools.listing(dir), disk.files, dir) ==> FolderOutput(cfg, dir, f) in o.disk.files)
      && (o.error.None? && Input(dialogs, filePath).value !in disk.dirs ==>
            SingleOutput(cfg, Input(dialogs, filePath).value) in o.disk.files)
  {
    match Input(dialogs, filePath)
    case None =>
    case Some(path) =>
      if path in disk.dirs {
        FolderOutputs(cfg, tools, dialogs, disk, path, tempDir);
      } else if path in disk.files {
        SingleEffect(cfg, tools, dialogs, disk, path, tempDir);
      }
  }

  /** The loop over the groups of a folder, running `condense_multi` on each until the first exception. */
  method RunGroups(fs: FileSystem, cfg: Config, tools: Tools, dialogs: Dialogs, scan: Scan, batches: seq<seq<nat>>,
                   parent: string, folder: string, tempDir: string) returns (err: Option<Error>)
    requires ValidScan(scan) && WellFormed(batches, |scan.videoNames|)
    modifies fs
    ensures Outcome(fs.State(), err) == RunBatches(cfg, tools, dialogs, old(fs.State()), scan, batches, 0, parent, folder, tempDir)
  {
    ghost var step := BatchStep(cfg, tools, dialogs, scan, batches, parent, folder, tempDir);
    ghost var start := fs.State();
    for b := 0 to |batches|
      invariant Loop(step, |batches|, fs.State(), b) == Loop(step, |batches|, start, 0)
    {
      ghost var before := fs.State();
      var ids := batches[b];
      err := CondenseMulti(fs, cfg, tools, dialogs, Labels(scan.subtitles[ids[0]]),
                           Pick(scan.videoPaths, ids), Pick(scan.videoNames, ids),
                           scan.subtitles[ids[0]], scan.audio[ids[0]], parent, folder, tempDir);
      assert step(before, b) == Outcome(fs.State(), err);
      if err.Some? {
        return;
      }
    }
    return None;
  }

  /** Every video of a folder, in order, as one group. */
  lemma OneGroup(cfg: Config, tools: Tools, dialogs: Dialogs, disk: Disk, scan: Scan, parent: string, folder: string,
                 tempDir: string)
    requires ValidScan(scan)
    ensures var all := seq(|scan.videoNames|, k => k);
      WellFormed([all], |scan.videoNames|) &&
      RunBatches(cfg, tools, dialogs, disk, scan, [all], 0, parent, folder, tempDir) ==
        CondenseMultiSpec(cfg, tools, dialogs, disk, Labels(scan.subtitles[0]), scan.videoPaths, scan.videoNames,
                          scan.subtitles[0], scan.audio[0], parent, folder, tempDir)
  {
    var all := seq(|scan.videoNames|, k => k);
    assert Pick(scan.videoPaths, all) == scan.videoPaths;
    assert Pick(scan.videoNames, all) == scan.videoNames;
    var step := BatchStep(cfg, tools, dialogs, scan, [all], parent, folder, tempDir);
    var o := step(disk, 0);
    assert Loop(step, 1, o.disk, 1) == Outcome(o.disk, None);
  }

  /**
   * The folder branch of `main` on the file system: the videos and their
   * labels, then one `condense_multi` over everything when all the label
   * lists agree, or one per first-fit group.
   */
  method CondenseFolder(fs: FileSystem, cfg: Config, tools: Tools, dialogs: Dialogs, dir: string, tempDir: string)
    returns (err: Option<Error>)
    modifies fs
    ensures Outcome(fs.State(), err) == FolderSpec(cfg, tools, dialogs, old(fs.State()), dir, tempDir)
  {
    var (parent, folder) := Split(dir);
    var scanned := ScanFolder(tools, fs.files, dir);
    if scanned.Failure? {
      return Some(scanned.error);
    }
    var scan := scanned.value;
    var audioOptions := AudioOptions(scan);
    var subtitleOptions := SubtitleOptions(scan);
    if CheckAllEqual(audioOptions) == Some(true) && CheckAllEqual(subtitleOptions) == Some(true) {
      OneGroup(cfg, tools, dialogs, fs.State(), scan, parent, folder, tempDir);
      err := CondenseMulti(fs, cfg, tools, dialogs, subtitleOptions[0], scan.videoPaths, scan.videoNames,
                           scan.subtitles[0], scan.audio[0], parent, folder, tempDir);
      return;
    }
    var batches := GroupOptions(Zip(audioOptions, subtitleOptions));
    err := RunGroups(fs, cfg, tools, dialogs, scan, batches, parent, folder, tempDir);
  }

  /** The single-file branch of `main` on the file system. */
  method CondenseSingle(fs: FileSystem, cfg: Config, tools: Tools, dialogs: Dialogs, path: string, tempDir: string)
    returns (err: Option<Error>)
    modifies fs
    ensures Outcome(fs.State(), err) == SingleSpec(cfg, tools, dialogs, old(fs.State()), path, tempDir)
  {
    var probed := tools.probe(path);
    if probed.None? {
      return Some(ProbeFailed);
    }
    var (audio, subtitles) := probed.value;
    fs.temp := true;
    var srt := GetSrt(cfg, tools, dialogs, fs.files, subtitles, path, tempDir);
    if srt.Failure? {
      return Some(srt.error);
    }
    var audioIndex := ChooseAudioStream(audio, dialogs.audioChoice);
    if audioIndex.Failure? {
      return Some(audioIndex.error);
    }
    if cfg.fixedOutputDir.Some? {
      fs.dirs := fs.dirs + {cfg.fixedOutputDir.value};
    }
    err := CondenseVideo(fs, cfg, tools, srt.value.0, path, tempDir, SingleOutput(cfg, path));
  }

  /**
   * The `try` block of `main`; `named` tells whether the temporary
   * directory was given a name, which happens once the input is known to
   * exist.
   */
  method MainBody(fs: FileSystem, cfg: Config, tools: Tools, dialogs: Dialogs, filePath: Option<string>, tempDir: string)
    returns (err: Option<Error>, named: bool)
    modifies fs
    ensures Outcome(fs.State(), err) == MainSpec(cfg, tools, dialogs, old(fs.State()), filePath, tempDir)
    ensures !named ==> fs.State() == old(fs.State())
  {
    var input := Input(dialogs, filePath);
    if input.None? {
      return Some(NoInput), false;
    }
    var path := input.value;
    if path !in fs.files && path !in fs.dirs {
      return Some(NoSuchPath), false;
    }
    named := true;
    if path in fs.dirs {
      err := CondenseFolder(fs, cfg, tools, dialogs, path, tempDir);
    } else {
      err := CondenseSingle(fs, cfg, tools, dialogs, path, tempDir);
    }
  }

  /**
   * `main`: the `try` block, then the `finally` that removes the temporary
   * directory whenever it was named.  Its name is new, so it does not exist
   * beforehand; afterwards it does not exist on any path, and the files and
   * directories are those the `try` block left.
   */
  method Run(fs: FileSystem, cfg: Config, tools: Tools, dialogs: Dialogs, filePath: Option<string>, tempDir: string)
    returns (err: Option<Error>)
    requires !fs.temp
    modifies fs
    ensures !fs.temp
    ensures err == MainSpec(cfg, tools, dialogs, old(fs.State()), filePath, tempDir).error
    ensures fs.State() == MainSpec(cfg, tools, dialogs, old(fs.State()), filePath, tempDir).disk.(temp := false)
    ensures old(fs.files) <= fs.files && old(fs.dirs) <= fs.dirs
  {
    MainEffect(cfg, tools, dialogs, fs.State(), filePath, tempDir);
    var named;
    err, named := MainBody(fs, cfg, tools, dialogs, filePath, tempDir);
    if named {
      fs.temp := false;
    }
  }
}
