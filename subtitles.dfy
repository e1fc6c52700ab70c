/**
 * Finding the subtitle for a video: a file next to it with the same name
 * (`find_subtitle_with_same_name_as_file`), the batch version over many
 * videos, converting non-SRT subtitles (`convert_sub_if_needed`) and the
 * order in which `get_srt` tries the possible sources.
 */
module Subtitles {
  import opened Wrappers
  import opened Errors
  import opened Config
  import opened Paths
  import opened Streams
  import opened Media

  /** The extensions tried, in order: the subtitle patterns of the file dialog without their `*` and without the description entry. */
  const SubtitleExts: seq<string> := [".srt", ".ass", ".ssa", ".vtt"]

  /** The first of `stem + ext` for `ext` in `exts` that is an existing file. */
  function FirstExisting(files: set<string>, stem: string, exts: seq<string>): (r: Option<string>)
    ensures r.None? <==> forall k :: 0 <= k < |exts| ==> stem + exts[k] !in files
    ensures r.Some? ==> exists k :: 0 <= k < |exts| && r.value == stem + exts[k] && r.value in files &&
                                    forall j :: 0 <= j < k ==> stem + exts[j] !in files
    decreases |exts|
  {
    if exts == [] then None
    else if stem + exts[0] in files then Some(stem + exts[0])
    else
      var r := FirstExisting(files, stem, exts[1..]);
      assert forall k :: 1 <= k < |exts| ==> exts[1..][k - 1] == exts[k];
      r
  }

  /** `find_subtitle_with_same_name_as_file`: the video's root, the configured suffix, then each subtitle extension. */
  function FindSameName(cfg: Config, files: set<string>, video: string): Option<string>
  {
    FirstExisting(files, Root(video) + cfg.subSuffix, SubtitleExts)
  }

  /** A video without a same-name subtitle has none in any smaller set of files either. */
  lemma NoSameNameInFewerFiles(cfg: Config, fewer: set<string>, files: set<string>, video: string)
    requires fewer <= files && FindSameName(cfg, files, video).None?
    ensures FindSameName(cfg, fewer, video).None?
  {
  }

  /** The subtitles found (in video order) and the videos without one, for a list of videos. */
  function Matching(cfg: Config, files: set<string>, videos: seq<string>): (r: (seq<string>, seq<string>))
    ensures |r.0| + |r.1| == |videos|
    decreases |videos|
  {
    if videos == [] then ([], [])
    else
      var last := videos[|videos| - 1];
      var (found, invalid) := Matching(cfg, files, videos[..|videos| - 1]);
      match FindSameName(cfg, files, last)
      case Some(s) => (found + [s], invalid)
      case None => (found, invalid + [last])
  }

  /** `find_matching_subtitles_for_files`: one pass over the videos, appending to one list or the other. */
  method FindMatchingSubtitles(cfg: Config, files: set<string>, videos: seq<string>)
    returns (found: seq<string>, invalid: seq<string>)
    ensures (found, invalid) == Matching(cfg, files, videos)
  {
    found, invalid := [], [];
    for i := 0 to |videos|
      invariant (found, invalid) == Matching(cfg, files, videos[..i])
    {
      var subtitle := FindSameName(cfg, files, videos[i]);
      assert videos[..i + 1][..i] == videos[..i] && videos[..i + 1][i] == videos[i];
      if subtitle.Some? {
        assert Matching(cfg, files, videos[..i + 1]) == (found + [subtitle.value], invalid);
        found := found + [subtitle.value];
      } else {
        assert Matching(cfg, files, videos[..i + 1]) == (found, invalid + [videos[i]]);
        invalid := invalid + [videos[i]];
      }
    }
    assert videos[..|videos|] == videos;
  }

  /** The videos without a subtitle are exactly those for which the lookup finds nothing. */
  lemma {:induction false} MatchingInvalid(cfg: Config, files: set<string>, videos: seq<string>)
    ensures forall v :: v in Matching(cfg, files, videos).1 <==> v in videos && FindSameName(cfg, files, v).None?
    decreases |videos|
  {
    if videos != [] {
      var init := videos[..|videos| - 1];
      MatchingInvalid(cfg, files, init);
      assert videos == init + [videos[|videos| - 1]];
    }
  }

  /** Every subtitle found is an existing file. */
  lemma {:induction false} MatchingFound(cfg: Config, files: set<string>, videos: seq<string>)
    ensures forall s :: s in Matching(cfg, files, videos).0 ==> s in files
    decreases |videos|
  {
    if videos != [] {
      MatchingFound(cfg, files, videos[..|videos| - 1]);
    }
  }

  /**
   * The videos without a subtitle are exactly those for which the lookup
   * finds nothing, every found subtitle is an existing file, and the list
   * of videos without one is empty exactly when every video has one.
   */
  lemma MatchingMembers(cfg: Config, files: set<string>, videos: seq<string>)
    ensures forall v :: v in Matching(cfg, files, videos).1 <==> v in videos && FindSameName(cfg, files, v).None?
    ensures forall s :: s in Matching(cfg, files, videos).0 ==> s in files
    ensures Matching(cfg, files, videos).1 == [] <==> forall k :: 0 <= k < |videos| ==> FindSameName(cfg, files, videos[k]).Some?
  {
    MatchingInvalid(cfg, files, videos);
    MatchingFound(cfg, files, videos);
    var invalid := Matching(cfg, files, videos).1;
    if invalid != [] {
      assert invalid[0] in invalid;
    } else {
      forall k | 0 <= k < |videos| ensures FindSameName(cfg, files, videos[k]).Some? {
        assert videos[k] in videos;
      }
    }
  }

  /** A video without a subtitle among more files has none among fewer: the list of videos without one can only grow as files go. */
  lemma MatchingInvalidShrinks(cfg: Config, fewer: set<string>, files: set<string>, videos: seq<string>)
    requires fewer <= files
    ensures Matching(cfg, files, videos).1 != [] ==> Matching(cfg, fewer, videos).1 != []
  {
    var invalid := Matching(cfg, files, videos).1;
    if invalid != [] {
      MatchingInvalid(cfg, files, videos);
      MatchingInvalid(cfg, fewer, videos);
      var v := invalid[0];
      assert v in invalid;
      NoSameNameInFewerFiles(cfg, fewer, files, v);
      assert v in Matching(cfg, fewer, videos).1;
    }
  }

  /**
   * The found list skips the videos without subtitles while the batch loop
   * indexes it by video position: with only the second of two videos having
   * a subtitle, the first video is given the second one's subtitle and the
   * second video's index is past the end of the list.
   */
  lemma FoundListShifts()
    ensures var m := Matching(Defaults(), {"d/b.srt"}, ["d/a.mkv", "d/b.mkv"]);
      m.0 == ["d/b.srt"] && m.1 == ["d/a.mkv"]
  {
    var cfg := Defaults();
    var files := {"d/b.srt"};
    var videos := ["d/a.mkv", "d/b.mkv"];
    MkvRoot('a');
    MkvRoot('b');
    assert Root("d/a.mkv") == "d/a" && Root("d/b.mkv") == "d/b";
    assert "d/b" + cfg.subSuffix + SubtitleExts[0] == "d/b.srt";
    assert FindSameName(cfg, files, "d/b.mkv") == Some("d/b.srt");
    forall k | 0 <= k < |SubtitleExts| ensures "d/a" + cfg.subSuffix + SubtitleExts[k] !in files {
      assert ("d/a" + cfg.subSuffix + SubtitleExts[k])[2] == 'a';
    }
    assert FindSameName(cfg, files, "d/a.mkv") == None;
    var first := Matching(cfg, files, videos[..1]);
    assert videos[..1][..0] == [];
    assert first.0 == [] && first.1 == ["d/a.mkv"];
  }

  /** `os.path.splitext("d/x.mkv")[0] == "d/x"` */
  lemma MkvRoot(x: char)
    requires x != '.' && x != '/'
    ensures Root(['d', '/', x, '.', 'm', 'k', 'v']) == ['d', '/', x]
  {
    var p := ['d', '/', x, '.', 'm', 'k', 'v'];
    var dot, sep := LastIndex(p, '.'), LastIndex(p, '/');
    assert p[3] == '.' && p[1] == '/';
    assert dot == 3;
    assert sep == 1;
    assert HasNonDot(p, 2, 3) by {
      assert p[2] != '.';
    }
    assert p[..3] == ['d', '/', x];
  }

  /**
   * `convert_sub_if_needed`: a subtitle whose extension is not `.srt`
   * (compared in lower case) is converted to `out.srt` in the temporary
   * directory; an SRT file is used where it is.
   */
  function ConvertSubIfNeeded(subPath: string, tempDir: string, convertOk: bool): (r: Result<string, Error>)
    ensures Lower(Ext(subPath)) == ".srt" ==> r == Success(subPath)
    ensures Lower(Ext(subPath)) != ".srt" && convertOk ==> r == Success(Join(tempDir, "out.srt"))
    ensures r.Failure? <==> Lower(Ext(subPath)) != ".srt" && !convertOk
    ensures r.Failure? ==> r.error == SubtitleConversionFailed
  {
    if Lower(Ext(subPath)) != ".srt" then
      if convertOk then Success(Join(tempDir, "out.srt")) else Failure(SubtitleConversionFailed)
    else Success(subPath)
  }

  /** A path ending in `out.srt` has the extension `.srt`. */
  lemma OutSrtExt(p: string)
    requires |p| >= 7 && p[|p| - 7..] == "out.srt"
    ensures Ext(p) == ".srt"
  {
    var n := |p|;
    assert p[n - 5] == 't' && p[n - 4] == '.' && p[n - 3] == 's' && p[n - 2] == 'r' && p[n - 1] == 't' by {
      assert p[n - 7..][2] == p[n - 5];
    }
    var sep, dot := LastIndex(p, '/'), LastIndex(p, '.');
    assert dot == n - 4;
    assert sep < n - 5;
    assert HasNonDot(p, sep + 1, dot) by {
      assert p[n - 5] != '.';
    }
  }

  /** `out.srt` in the temporary directory is an SRT path. */
  lemma TempSrtIsSrt(tempDir: string)
    ensures Lower(Ext(Join(tempDir, "out.srt"))) == ".srt"
  {
    OutSrtExt(Join(tempDir, "out.srt"));
    assert Lower(".srt") == ".srt";
  }

  /** Whatever `convert_sub_if_needed` returns is an SRT path, case-insensitively. */
  lemma ConvertedIsSrt(subPath: string, tempDir: string, convertOk: bool)
    requires ConvertSubIfNeeded(subPath, tempDir, convertOk).Success?
    ensures Lower(Ext(ConvertSubIfNeeded(subPath, tempDir, convertOk).value)) == ".srt"
  {
    if Lower(Ext(subPath)) != ".srt" {
      TempSrtIsSrt(tempDir);
    }
  }

  /** The subtitle source and the SRT path made from an external subtitle file. */
  function FromFile(tools: Tools, subPath: string, tempDir: string): Result<(SubSource, string), Error>
  {
    match ConvertSubIfNeeded(subPath, tempDir, tools.convertOk(subPath))
    case Success(srt) => Success((External(subPath), srt))
    case Failure(e) => Failure(e)
  }

  /**
   * `get_srt`: a same-name subtitle file first; failing that, a subtitle
   * stream of the video (extracted to `out.srt`); failing that, a file the
   * user picks; and an error when the user picks none.
   */
  function GetSrt(cfg: Config, tools: Tools, dialogs: Dialogs, files: set<string>, subtitleStreams: seq<Stream>,
                  video: string, tempDir: string): Result<(SubSource, string), Error>
  {
    match FindSameName(cfg, files, video)
    case Some(subPath) => FromFile(tools, subPath, tempDir)
    case None =>
      if |subtitleStreams| >= 1 then
        var index := ChooseSubtitleStream(cfg, subtitleStreams, dialogs.subtitleChoice);
        if tools.extractSrtOk(video, index) then Success((Internal(video, index), Join(tempDir, "out.srt")))
        else Failure(SubtitleExtractionFailed)
      else
        match dialogs.subtitleFile
        case None => Failure(NoSubtitleSelected)
        case Some(subPath) => FromFile(tools, subPath, tempDir)
  }

  /**
   * The precedence `get_srt` follows: the same-name file whenever there is
   * one; otherwise a stream of the video whenever it has subtitle streams;
   * the picked file only when there is neither; and `NoSubtitleSelected`
   * exactly when there is none of the three.
   */
  lemma GetSrtPrecedence(cfg: Config, tools: Tools, dialogs: Dialogs, files: set<string>, subtitleStreams: seq<Stream>,
                         video: string, tempDir: string)
    ensures var r := GetSrt(cfg, tools, dialogs, files, subtitleStreams, video, tempDir);
      && (FindSameName(cfg, files, video).Some? && r.Success? ==>
            r.value.0 == External(FindSameName(cfg, files, video).value))
      && (FindSameName(cfg, files, video).None? && |subtitleStreams| >= 1 && r.Success? ==>
            r.value.0.Internal? && r.value.0.video == video && r.value.1 == Join(tempDir, "out.srt"))
      && (r.Success? && r.value.0.External? && r.value.0.path !in files ==>
            FindSameName(cfg, files, video).None? && |subtitleStreams| == 0 && dialogs.subtitleFile == Some(r.value.0.path))
      && (r == Failure(NoSubtitleSelected) <==>
            FindSameName(cfg, files, video).None? && |subtitleStreams| == 0 && dialogs.subtitleFile.None?)
  {
  }

  /** Whatever `get_srt` returns is an SRT path. */
  lemma GetSrtIsSrt(cfg: Config, tools: Tools, dialogs: Dialogs, files: set<string>, subtitleStreams: seq<Stream>,
                    video: string, tempDir: string)
    requires GetSrt(cfg, tools, dialogs, files, subtitleStreams, video, tempDir).Success?
    ensures Lower(Ext(GetSrt(cfg, tools, dialogs, files, subtitleStreams, video, tempDir).value.1)) == ".srt"
  {
    var found := FindSameName(cfg, files, video);
    if found.Some? {
      FromFileIsSrt(tools, found.value, tempDir);
    } else if |subtitleStreams| >= 1 {
      TempSrtIsSrt(tempDir);
    } else {
      FromFileIsSrt(tools, dialogs.subtitleFile.value, tempDir);
    }
  }

  lemma FromFileIsSrt(tools: Tools, subPath: string, tempDir: string)
    requires FromFile(tools, subPath, tempDir).Success?
    ensures Lower(Ext(FromFile(tools, subPath, tempDir).value.1)) == ".srt"
  {
    ConvertedIsSrt(subPath, tempDir, tools.convertOk(subPath));
  }
}
