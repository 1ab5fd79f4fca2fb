/**
 * `mockVideoGeneration` of src/utils/mockResponses.ts: it walks the four
 * stages in a fixed order, reporting each stage at 0% and then at 100% to an
 * optional callback, and returns a storage URL named after the current time.
 * The delay between the two reports is a timer and is not modelled; the
 * callback's invocations are the returned event log.
 */
module MockResponses {
  import opened JsCommon
  import LocalStorage

  datatype Stage = PreparingPhotos | GeneratingVideo | AddingText | Completed

  /** The stage names as the progress records carry them. */
  function Label(s: Stage): string
  {
    match s
    case PreparingPhotos => "準備照片"
    case GeneratingVideo => "生成影片"
    case AddingText => "添加文字"
    case Completed => "完成"
  }

  const Stages: seq<Stage> := [PreparingPhotos, GeneratingVideo, AddingText, Completed]

  /** The source's `stages` array. */
  const StageNames: seq<string> := ["準備照片", "生成影片", "添加文字", "完成"]

  datatype GenerationProgress = GenerationProgress(stage: Stage, progress: nat)

  /** The reports for a list of stages: each stage at 0 then at 100, stage after stage. */
  function StageEvents(stages: seq<Stage>): (events: seq<GenerationProgress>)
    ensures |events| == 2 * |stages|
    ensures stages != [] ==> events[|events| - 1] == GenerationProgress(stages[|stages| - 1], 100)
  {
    if stages == [] then []
    else
      var s := stages[|stages| - 1];
      StageEvents(stages[..|stages| - 1]) + [GenerationProgress(s, 0), GenerationProgress(s, 100)]
  }

  predicate Distinct(stages: seq<Stage>)
  {
    forall i, j :: 0 <= i < j < |stages| ==> stages[i] != stages[j]
  }

  /** Two reports per stage: the stage at 0 at position 2k, at 100 at position 2k + 1. */
  lemma {:induction false} StageEventsShape(stages: seq<Stage>)
    ensures |StageEvents(stages)| == 2 * |stages|
    ensures forall k :: 0 <= k < |stages| ==>
      && StageEvents(stages)[2 * k] == GenerationProgress(stages[k], 0)
      && StageEvents(stages)[2 * k + 1] == GenerationProgress(stages[k], 100)
    decreases |stages|
  {
    if stages != [] {
      var n := |stages| - 1;
      StageEventsShape(stages[..n]);
      forall k | 0 <= k < n
        ensures StageEvents(stages)[2 * k] == GenerationProgress(stages[k], 0)
        ensures StageEvents(stages)[2 * k + 1] == GenerationProgress(stages[k], 100)
      {
        assert stages[..n][k] == stages[k];
      }
    }
  }

  /** Report k is stage k / 2, at 0 when k is even and at 100 when k is odd. */
  lemma EventAt(stages: seq<Stage>, k: nat)
    requires k < 2 * |stages|
    ensures |StageEvents(stages)| == 2 * |stages|
    ensures StageEvents(stages)[k] == GenerationProgress(stages[k / 2], if k % 2 == 0 then 0 else 100)
  {
    StageEventsShape(stages);
    var m := k / 2;
    if k % 2 == 0 {
      assert k == 2 * m;
    } else {
      assert k == 2 * m + 1;
    }
  }

  /** Within a stage the progress never goes down. */
  lemma ProgressWithinStages(stages: seq<Stage>)
    requires Distinct(stages)
    ensures forall i, j :: 0 <= i < j < |StageEvents(stages)| && StageEvents(stages)[i].stage == StageEvents(stages)[j].stage ==>
      StageEvents(stages)[i].progress <= StageEvents(stages)[j].progress
  {
    StageEventsShape(stages);
    var ev := StageEvents(stages);
    forall i, j | 0 <= i < j < |ev| && ev[i].stage == ev[j].stage
      ensures ev[i].progress <= ev[j].progress
    {
      EventAt(stages, i);
      EventAt(stages, j);
    }
  }

  /** Entering a new stage starts again at 0. */
  lemma NewStageStartsAtZero(stages: seq<Stage>)
    ensures forall k :: 0 < k < |StageEvents(stages)| && StageEvents(stages)[k].stage != StageEvents(stages)[k - 1].stage ==>
      StageEvents(stages)[k].progress == 0
  {
    StageEventsShape(stages);
    var ev := StageEvents(stages);
    forall k | 0 < k < |ev| && ev[k].stage != ev[k - 1].stage
      ensures ev[k].progress == 0
    {
      EventAt(stages, k);
      EventAt(stages, k - 1);
    }
  }

  /** Different stages carry different names. */
  lemma LabelInjective(a: Stage, b: Stage)
    requires Label(a) == Label(b)
    ensures a == b
  {
    assert Label(a)[0] == Label(b)[0];
  }

  /** The four stages give eight reports, visiting 準備照片, 生成影片, 添加文字, 完成 in that order. */
  lemma MockEventsVisitStagesInOrder()
    ensures |StageEvents(Stages)| == 8
    ensures forall k :: 0 <= k < 8 ==> StageEvents(Stages)[k].stage == Stages[k / 2]
  {
    var ev := StageEvents(Stages);
    StageEventsShape(Stages);
    forall k | 0 <= k < 8 ensures ev[k].stage == Stages[k / 2] {
      var m := k / 2;
      if k % 2 == 0 {
        assert k == 2 * m;
        assert ev[2 * m] == GenerationProgress(Stages[m], 0);
      } else {
        assert k == 2 * m + 1;
        assert ev[2 * m + 1] == GenerationProgress(Stages[m], 100);
      }
    }
  }

  /** The reports carry the stage names 準備照片, 生成影片, 添加文字, 完成, two reports each, in that order. */
  lemma MockEventLabels()
    ensures forall k :: 0 <= k < 8 ==> Label(StageEvents(Stages)[k].stage) == StageNames[k / 2]
  {
    MockEventsVisitStagesInOrder();
    forall m | 0 <= m < 4 ensures Label(Stages[m]) == StageNames[m] {
    }
  }

  lemma StagesDistinct()
    ensures Distinct(Stages)
  {
  }

  /** `/storage/videos/video-${timestamp}.mp4` */
  function MockVideoUrl(ts: nat): (url: string)
    ensures StartsWith(url, "/storage/videos/") && url[|"/storage/videos/"|..] == LocalStorage.VideoFileName(ts)
  {
    assert "/storage/videos/video-" + Decimal(ts) + ".mp4" == "/storage/videos/" + LocalStorage.VideoFileName(ts);
    StartsWithConcat("/storage/videos/", LocalStorage.VideoFileName(ts));
    "/storage/videos/video-" + Decimal(ts) + ".mp4"
  }

  /** The mock's URL has the same shape as the one the storage handler returns for a saved video. */
  lemma MockUrlMatchesStorage(ts: nat)
    ensures MockVideoUrl(ts) == LocalStorage.VideoUrl(ts)
  {
  }

  /**
   * `mockVideoGeneration`: the callback, when there is one, receives exactly the
   * stage reports in order; without one nothing is reported. The URL depends
   * only on the time, not on the photos or the text.
   */
  method MockVideoGeneration(photos: seq<string>, text: string, hasCallback: bool, now: nat)
    returns (events: seq<GenerationProgress>, url: string)
    ensures events == if hasCallback then StageEvents(Stages) else []
    ensures url == LocalStorage.VideoUrl(now)
  {
    events := [];
    var i := 0;
    while i < |Stages|
      invariant 0 <= i <= |Stages|
      invariant events == if hasCallback then StageEvents(Stages[..i]) else []
    {
      var stage := Stages[i];
      assert Stages[..i + 1][..i] == Stages[..i];
      if hasCallback {
        events := events + [GenerationProgress(stage, 0)];
      }
      if hasCallback {
        events := events + [GenerationProgress(stage, 100)];
      }
      i := i + 1;
    }
    assert Stages[..|Stages|] == Stages;
    url := MockVideoUrl(now);
  }
}
