/**
 * The orchestrator: download, then load, then transform, stopping at the first failing
 * stage before the transform.  The stages themselves are the ones modelled in the
 * `Download`, `Load` and `Transform` modules; here each is a function from the hints it
 * receives to what it returns (`Raised` when it raises).
 */
module Orchestrator {
  import opened Common
  import opened Transform

  /** A stage invocation and the hints passed to it. */
  datatype StageCall =
    | Downloaded(sourceName: Option<string>)
    | Loaded(timestamp: Option<string>, date: Option<string>)
    | Transformed(timestamp: Option<string>)

  /** `all(resultats.values()) if resultats else False`, with an exception counting as failure. */
  predicate StageSucceeded(o: Outcome<map<string, bool>>)
  {
    o.Returned? && NonEmptyAllTrue(o.value)
  }

  /** The load stage's boolean, with an exception counting as failure. */
  predicate LoadSucceeded(o: Outcome<bool>)
  {
    o == Returned(true)
  }

  /** The stages `run_pipeline` invokes, in order, with the hints each receives. */
  function PipelineCalls(sourceName: Option<string>, timestampFilter: Option<string>, skipDownload: bool,
                         skipLoad: bool, download: Option<string> -> Outcome<map<string, bool>>,
                         load: (Option<string>, Option<string>) -> Outcome<bool>): seq<StageCall>
  {
    var first := if skipDownload then [] else [Downloaded(sourceName)];
    if !skipDownload && !StageSucceeded(download(sourceName)) then first
    else
      var second := if skipLoad then [] else [Loaded(None, None)];
      if !skipLoad && !LoadSucceeded(load(None, None)) then first + second
      else first + second + [Transformed(timestampFilter)]
  }

  /**
   * `run_pipeline`.  `calls` records the stage invocations.  The load stage always gets
   * no hints (the most recent batch); the source name reaches only the download and the
   * timestamp only the transform.
   */
  method RunPipeline(sourceName: Option<string>, timestampFilter: Option<string>, skipDownload: bool, skipLoad: bool,
                     download: Option<string> -> Outcome<map<string, bool>>,
                     load: (Option<string>, Option<string>) -> Outcome<bool>,
                     transform: Option<string> -> Outcome<map<string, bool>>)
    returns (success: bool, calls: seq<StageCall>)
    ensures success <==> && (skipDownload || StageSucceeded(download(sourceName)))
                         && (skipLoad || LoadSucceeded(load(None, None)))
                         && StageSucceeded(transform(timestampFilter))
    ensures calls == PipelineCalls(sourceName, timestampFilter, skipDownload, skipLoad, download, load)
  {
    success := true;
    calls := [];
    if !skipDownload {
      calls := calls + [Downloaded(sourceName)];
      var results := download(sourceName);
      if !StageSucceeded(results) {
        return false, calls;
      }
    }
    if !skipLoad {
      calls := calls + [Loaded(None, None)];
      var loaded := load(None, None);
      if !LoadSucceeded(loaded) {
        return false, calls;
      }
    }
    calls := calls + [Transformed(timestampFilter)];
    var results := transform(timestampFilter);
    if !StageSucceeded(results) {
      success := false;
    }
  }

  /** A failing download stops the run: neither the load nor the transform is invoked. */
  lemma DownloadFailureStopsTheRun(sourceName: Option<string>, timestampFilter: Option<string>, skipDownload: bool,
                                   skipLoad: bool, download: Option<string> -> Outcome<map<string, bool>>,
                                   load: (Option<string>, Option<string>) -> Outcome<bool>)
    requires !skipDownload && !StageSucceeded(download(sourceName))
    ensures PipelineCalls(sourceName, timestampFilter, skipDownload, skipLoad, download, load) == [Downloaded(sourceName)]
  {
  }

  /** A failing load stops the run before the transform. */
  lemma LoadFailureStopsTheRun(sourceName: Option<string>, timestampFilter: Option<string>, skipDownload: bool,
                               skipLoad: bool, download: Option<string> -> Outcome<map<string, bool>>,
                               load: (Option<string>, Option<string>) -> Outcome<bool>)
    requires skipDownload || StageSucceeded(download(sourceName))
    requires !skipLoad && !LoadSucceeded(load(None, None))
    ensures var calls := PipelineCalls(sourceName, timestampFilter, skipDownload, skipLoad, download, load);
            && calls[|calls| - 1] == Loaded(None, None)
            && forall c :: c in calls ==> !c.Transformed?
  {
  }

  /** The transform is invoked exactly when no earlier stage failed; skipped stages never fail. */
  lemma TransformReachedIff(sourceName: Option<string>, timestampFilter: Option<string>, skipDownload: bool,
                            skipLoad: bool, download: Option<string> -> Outcome<map<string, bool>>,
                            load: (Option<string>, Option<string>) -> Outcome<bool>)
    ensures Transformed(timestampFilter) in PipelineCalls(sourceName, timestampFilter, skipDownload, skipLoad,
                                                          download, load)
            <==> (skipDownload || StageSucceeded(download(sourceName))) && (skipLoad || LoadSucceeded(load(None, None)))
  {
    var calls := PipelineCalls(sourceName, timestampFilter, skipDownload, skipLoad, download, load);
    if !(skipDownload || StageSucceeded(download(sourceName))) || !(skipLoad || LoadSucceeded(load(None, None))) {
      assert forall c :: c in calls ==> !c.Transformed?;
    }
  }

  /** Each hint reaches its own stage only; the load stage always selects the most recent batch. */
  lemma HintRouting(sourceName: Option<string>, timestampFilter: Option<string>, skipDownload: bool, skipLoad: bool,
                    download: Option<string> -> Outcome<map<string, bool>>,
                    load: (Option<string>, Option<string>) -> Outcome<bool>)
    ensures forall c :: c in PipelineCalls(sourceName, timestampFilter, skipDownload, skipLoad, download, load) ==>
              match c
              case Downloaded(s) => s == sourceName
              case Loaded(t, d) => t.None? && d.None?
              case Transformed(t) => t == timestampFilter
  {
  }

  /** `run_step1_only`: the download's results are non-empty and all true. */
  method RunStep1Only(sourceName: Option<string>, download: Option<string> -> Outcome<map<string, bool>>)
    returns (success: bool)
    ensures success <==> StageSucceeded(download(sourceName))
  {
    var results := download(sourceName);
    if results.Raised? {
      return false;
    }
    success := |results.value| > 0 && AllTrue(results.value);
  }

  /** `run_step2_only`: the load's own boolean; the hints are passed through unchanged. */
  method RunStep2Only(timestamp: Option<string>, date: Option<string>,
                      load: (Option<string>, Option<string>) -> Outcome<bool>)
    returns (success: bool)
    ensures success <==> LoadSucceeded(load(timestamp, date))
  {
    var loaded := load(timestamp, date);
    success := loaded.Returned? && loaded.value;
  }

  /**
   * `run_step3_only`: in list mode, success means the warehouse holds a timestamp (the
   * listing query falls back to `[]` when it raises); otherwise the transform's results
   * are non-empty and all true.
   */
  method RunStep3Only(timestampFilter: Option<string>, listOnly: bool, query: Outcome<seq<Stamp>>,
                      transform: Option<string> -> Outcome<map<string, bool>>)
    returns (success: bool)
    ensures listOnly ==> (success <==> AvailableTimestamps(query) != [])
    ensures !listOnly ==> (success <==> StageSucceeded(transform(timestampFilter)))
  {
    if listOnly {
      var timestamps := AvailableTimestamps(query);
      return timestamps != [];
    }
    var results := transform(timestampFilter);
    success := results.Returned? && |results.value| > 0 && AllTrue(results.value);
  }

  /** List mode succeeds exactly when a transform run would find a timestamp to filter on. */
  lemma ListModeMatchesSelection(query: Outcome<seq<Stamp>>, requested: Option<string>,
                                 parse: string -> Option<Stamp>)
    ensures AvailableTimestamps(query) != [] <==> SelectTimestamp(requested, AvailableTimestamps(query), parse).Some?
  {
  }
}
