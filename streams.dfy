/**
 * Audio and subtitle streams as ffprobe reports them, the labels the stream
 * dialogs show (`streams_to_options`), the all-equal test (`check_all_equal`)
 * and the two stream choosers, which fall back to the first stream.
 */
module Streams {
  import opened Wrappers
  import opened Errors
  import opened Config
  import opened Strings

  /** A probed stream: its `tags` object, when it has one. */
  datatype Stream = Stream(tags: Option<map<string, string>>)

  /** A tag value, or the empty string when the tag is absent. */
  function Tag(tags: map<string, string>, key: string): string
  {
    if key in tags then tags[key] else ""
  }

  /** The stream has a tags object with a non-empty language or title. */
  predicate Described(s: Stream)
  {
    s.tags.Some? && (Tag(s.tags.value, "language") != "" || Tag(s.tags.value, "title") != "")
  }

  /** The label of stream `i`: `"{i+1}: {title} ({lang})"` for a described stream, `"(No tag)"` otherwise. */
  function Label(s: Stream, i: nat): string
  {
    if Described(s) then
      var lang := Tag(s.tags.value, "language");
      var title := Tag(s.tags.value, "title");
      NatToString(i + 1) + ": " + title + " (" + lang + ")"
    else "(No tag)"
  }

  /** One label per stream, in stream order. */
  function Labels(streams: seq<Stream>): (r: seq<string>)
    ensures |r| == |streams|
    ensures forall i :: 0 <= i < |streams| ==> r[i] == Label(streams[i], i)
  {
    seq(|streams|, i requires 0 <= i < |streams| => Label(streams[i], i))
  }

  /** `streams_to_options`: every entry starts as `"(No tag)"` and described streams get their label by index. */
  method StreamsToOptions(streams: seq<Stream>) returns (options: seq<string>)
    ensures options == Labels(streams)
  {
    var a := new string[|streams|](_ => "(No tag)");
    for i := 0 to |streams|
      invariant forall k :: 0 <= k < i ==> a[k] == Label(streams[k], k)
      invariant forall k :: i <= k < |streams| ==> a[k] == "(No tag)"
    {
      var tags := streams[i].tags;
      if tags.Some? {
        var lang := "";
        var title := "";
        if "language" in tags.value {
          lang := tags.value["language"];
        }
        if "title" in tags.value {
          title := tags.value["title"];
        }
        if lang != "" || title != "" {
          a[i] := NatToString(i + 1) + ": " + title + " (" + lang + ")";
        }
      }
    }
    options := a[..];
  }

  /** A label is `"(No tag)"` exactly when the stream is not described. */
  lemma NoTagIffUndescribed(s: Stream, i: nat)
    ensures Label(s, i) == "(No tag)" <==> !Described(s)
  {
    if Described(s) {
      var l := Label(s, i);
      assert IsDigit(l[0]);
    }
  }

  /** In `d + ": " + x` with `d` made of digits, the first ':' sits right after `d`. */
  lemma {:induction false} NumberPrefix(d: string, x: string, e: string, y: string)
    requires AllDigits(d) && AllDigits(e)
    requires d + ": " + x == e + ": " + y
    ensures d == e
  {
    var l, r := d + ": " + x, e + ": " + y;
    assert |d| < |e| ==> l[|d|] == ':' && IsDigit(r[|d|]);
    assert |e| < |d| ==> r[|e|] == ':' && IsDigit(l[|e|]);
    assert d == l[..|d|] == r[..|e|] == e;
  }

  /** The label of a described stream is its number, `": "`, and then the rest. */
  lemma LabelShape(s: Stream, i: nat)
    requires Described(s)
    ensures Label(s, i) == NatToString(i + 1) + ": " +
      (Tag(s.tags.value, "title") + " (" + Tag(s.tags.value, "language") + ")")
  {
    var n, title, lang := NatToString(i + 1), Tag(s.tags.value, "title"), Tag(s.tags.value, "language");
    calc {
      Label(s, i);
      n + ": " + title + " (" + lang + ")";
      n + ": " + (title + " (" + lang + ")");
    }
  }

  /** Described streams at different positions get different labels, the position number telling them apart. */
  lemma DescribedLabelsDiffer(s: Stream, i: nat, t: Stream, j: nat)
    requires Described(s) && Described(t) && i != j
    ensures Label(s, i) != Label(t, j)
  {
    if Label(s, i) == Label(t, j) {
      LabelShape(s, i);
      LabelShape(t, j);
      NumberPrefix(NatToString(i + 1), Tag(s.tags.value, "title") + " (" + Tag(s.tags.value, "language") + ")",
        NatToString(j + 1), Tag(t.tags.value, "title") + " (" + Tag(t.tags.value, "language") + ")");
      NatToStringInjective(i + 1, j + 1);
    }
  }

  /** `check_all_equal`: the first element occurs as often as the list is long; `li[0]` fails on an empty list. */
  function CheckAllEqual<T(==)>(li: seq<T>): Option<bool>
  {
    if |li| == 0 then None else Some(multiset(li)[li[0]] == |li|)
  }

  /** `check_all_equal` holds exactly when every element equals the first. */
  lemma CheckAllEqualIff<T>(li: seq<T>)
    requires |li| > 0
    ensures CheckAllEqual(li) == Some(true) <==> forall k :: 0 <= k < |li| ==> li[k] == li[0]
  {
    CountBound(li, li[0]);
  }

  /** An element occurs at most as often as the list is long, and exactly that often when it is every element. */
  lemma {:induction false} CountBound<T>(li: seq<T>, x: T)
    ensures multiset(li)[x] <= |li|
    ensures multiset(li)[x] == |li| <==> forall k :: 0 <= k < |li| ==> li[k] == x
    decreases |li|
  {
    if li != [] {
      var init := li[..|li| - 1];
      CountBound(init, x);
      assert li == init + [li[|li| - 1]];
      assert multiset(li) == multiset(init) + multiset{li[|li| - 1]};
      if forall k :: 0 <= k < |init| ==> init[k] == x {
        if li[|li| - 1] == x {
          forall k | 0 <= k < |li| ensures li[k] == x {
            if k < |init| {
              assert li[k] == init[k];
            }
          }
        }
      } else {
        var k :| 0 <= k < |init| && init[k] != x;
        assert li[k] == init[k];
      }
    }
  }

  /**
   * `choose_audio_stream`: with more than one audio stream the dialog's
   * choice is taken and cancelling it is an error; otherwise stream 0.
   */
  function ChooseAudioStream(streams: seq<Stream>, choice: Option<nat>): (r: Result<nat, Error>)
    ensures |streams| <= 1 ==> r == Success(0)
    ensures r.Failure? <==> |streams| > 1 && choice.None?
    ensures r.Failure? ==> r.error == AudioSelectionCanceled
    ensures |streams| > 1 && choice.Some? ==> r == Success(choice.value)
  {
    if |streams| > 1 then
      match choice
      case None => Failure(AudioSelectionCanceled)
      case Some(i) => Success(i)
    else Success(0)
  }

  /**
   * `choose_subtitle_stream`: the dialog is shown only for more than one
   * subtitle stream with `ask_when_multiple_srt` set; cancelling it picks the
   * first stream, so there is no error.
   */
  function ChooseSubtitleStream(cfg: Config, streams: seq<Stream>, choice: Option<nat>): (r: nat)
    ensures !(|streams| > 1 && cfg.askWhenMultipleSrt) ==> r == 0
    ensures choice.None? ==> r == 0
    ensures |streams| > 1 && cfg.askWhenMultipleSrt && choice.Some? ==> r == choice.value
  {
    if |streams| > 1 && cfg.askWhenMultipleSrt then
      match choice
      case None => 0
      case Some(i) => i
    else 0
  }
}
