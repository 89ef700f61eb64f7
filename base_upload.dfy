/** BaseUpload: the region failover table every upload runs on. It keeps the
    ordered list of valid upload regions and a cursor on the region in use
    that only moves forward, decides when an error moves the upload to the
    next region, and collects the request metrics of the region in use until
    they are folded into the task metrics. */
module Regions {
  import opened Common

  /** An upload region (IUploadRegion) as the failover table sees it: an
      identity and whether UploadDomainRegion.isValid() accepted it. */
  datatype Region = Region(id: string, isValid: bool)

  /** UploadRegionRequestMetrics: the requests made in one region. Merging
      two of them (addMetrics) puts their requests together. */
  datatype RegionMetrics = RegionMetrics(requests: seq<int>)

  /** UploadTaskMetrics: the regions of the task and the region metrics
      folded into it, in the order they were added. */
  datatype TaskMetrics = TaskMetrics(regions: Option<seq<Region>>, folded: seq<RegionMetrics>)

  /** What the completion handler receives: the response, the key and the
      task metrics. */
  datatype Completion = Completion(info: ResponseInfo, key: Option<string>, metrics: Option<TaskMetrics>)

  /** UploadTaskMetrics.addMetrics: a missing region metrics is ignored. */
  function AddToTask(task: TaskMetrics, m: Option<RegionMetrics>): TaskMetrics
  {
    if m.None? then task else task.(folded := task.folded + [m.value])
  }

  /** The regions setupRegions keeps: the valid ones, in their order. */
  function ValidRegions(zones: seq<Region>): seq<Region>
  {
    if zones == [] then [] else (if zones[0].isValid then [zones[0]] else []) + ValidRegions(zones[1..])
  }

  /** Filtering one list after another is filtering each and putting the
      results one after the other: the kept regions keep their order. */
  lemma {:induction false} ValidRegionsAppend(a: seq<Region>, b: seq<Region>)
    ensures ValidRegions(a + b) == ValidRegions(a) + ValidRegions(b)
  {
    if a != [] {
      assert (a + b)[1..] == a[1..] + b;
      ValidRegionsAppend(a[1..], b);
    } else {
      assert a + b == b;
    }
  }

  /** A region is kept exactly when it is in the list and valid; nothing is
      added, so the kept list is never longer than the list. */
  lemma {:induction false} ValidRegionsMembers(zones: seq<Region>)
    ensures forall r :: r in ValidRegions(zones) <==> r in zones && r.isValid
    ensures |ValidRegions(zones)| <= |zones|
  {
    if zones != [] {
      ValidRegionsMembers(zones[1..]);
      assert zones == [zones[0]] + zones[1..];
    }
  }

  /** The cursor after switchRegion: one further when a region remains after
      the current one, unchanged (None) otherwise. */
  function SwitchedIndex(regions: Option<seq<Region>>, index: nat): Option<nat>
  {
    if regions.Some? && index + 1 < |regions.value| then Some(index + 1) else None
  }

  /** `n` switches in a row. */
  function SwitchTimes(regions: Option<seq<Region>>, index: nat, n: nat): nat
    decreases n
  {
    if n == 0 then index
    else match SwitchedIndex(regions, index)
      case None => index
      case Some(next) => SwitchTimes(regions, next, n - 1)
  }

  /** Starting from a region in the list, any number of switches walks the
      list forward one region at a time and stops at the last one: the
      cursor never decreases and never leaves the list. */
  lemma {:induction false} SwitchTimesStopsAtLast(regions: seq<Region>, index: nat, n: nat)
    requires index < |regions|
    ensures SwitchTimes(Some(regions), index, n) == Min(index + n, |regions| - 1)
    decreases n
  {
    if n > 0 && index + 1 < |regions| {
      SwitchTimesStopsAtLast(regions, index + 1, n - 1);
    }
  }

  /** getCurrentRegion: the region under the cursor, if the cursor is inside
      the list. */
  function CurrentRegion(regions: Option<seq<Region>>, index: nat): (r: Option<Region>)
    ensures r.Some? <==> regions.Some? && index < |regions.value|
    ensures r.Some? ==> r.value == regions.value[index]
  {
    if regions.Some? && index < |regions.value| then Some(regions.value[index]) else None
  }

  /** getTargetRegion: the first region, if there is one. */
  function TargetRegion(regions: Option<seq<Region>>): (r: Option<Region>)
    ensures r.Some? <==> regions.Some? && |regions.value| > 0
    ensures r.Some? ==> r.value == regions.value[0]
  {
    if regions.Some? && |regions.value| > 0 then Some(regions.value[0]) else None
  }

  /** Whether some region of the list isEqual to `region`. */
  predicate HasEqual(region: Region, regions: seq<Region>, isEqual: (Region, Region) -> bool)
  {
    exists i :: 0 <= i < |regions| && isEqual(region, regions[i])
  }

  /** insertRegionAtFirst: a new region goes in front of the others; a
      missing region or one equal to a region already listed changes
      nothing. */
  function InsertAtFirst(regions: seq<Region>, region: Option<Region>, isEqual: (Region, Region) -> bool): seq<Region>
  {
    if region.None? || HasEqual(region.value, regions, isEqual) then regions else [region.value] + regions
  }

  /** Inserting the same region twice is inserting it once, as long as a
      region is equal to itself. */
  lemma InsertAtFirstIdempotent(regions: seq<Region>, region: Option<Region>, isEqual: (Region, Region) -> bool)
    requires region.Some? ==> isEqual(region.value, region.value)
    ensures InsertAtFirst(InsertAtFirst(regions, region, isEqual), region, isEqual) == InsertAtFirst(regions, region, isEqual)
  {
    if region.Some? && !HasEqual(region.value, regions, isEqual) {
      assert isEqual(region.value, ([region.value] + regions)[0]);
    }
  }

  /** The cursor is not moved by an insertion, so when a region is inserted
      the cursor then points at the region before the one it pointed at, and
      the old current region sits one place further on. */
  lemma InsertKeepsCursor(regions: seq<Region>, region: Region, isEqual: (Region, Region) -> bool, index: nat)
    requires !HasEqual(region, regions, isEqual)
    ensures CurrentRegion(Some(InsertAtFirst(regions, Some(region), isEqual)), index + 1) == CurrentRegion(Some(regions), index)
    ensures TargetRegion(Some(InsertAtFirst(regions, Some(region), isEqual))) == Some(region)
  {
  }

  /** The guard of switchRegionAndUploadIfNeededWithErrorResponse: a
      switch is tried only for a failed response that may be retried, when
      backup hosts are allowed. */
  predicate SwitchWanted(errorInfo: Option<ResponseInfo>, allowBackupHost: bool)
  {
    errorInfo.Some? && !errorInfo.value.isOK && errorInfo.value.couldRetry && allowBackupHost
  }

  /** addRegionRequestMetricsOfOneFlow: the first metrics are stored, later
      ones merged in; a missing one is ignored. */
  function AddFlow(current: Option<RegionMetrics>, m: Option<RegionMetrics>): Option<RegionMetrics>
  {
    if m.None? then current
    else if current.None? then m
    else Some(RegionMetrics(current.value.requests + m.value.requests))
  }

  /** The requests of a list of flows, missing ones skipped. */
  function AllRequests(flows: seq<Option<RegionMetrics>>): seq<int>
  {
    if flows == [] then []
    else (if flows[0].Some? then flows[0].value.requests else []) + AllRequests(flows[1..])
  }

  /** Whether some flow of the list is present. */
  predicate AnyPresent(flows: seq<Option<RegionMetrics>>)
  {
    exists i :: 0 <= i < |flows| && flows[i].Some?
  }

  /** Adding flows one after another, from `current`, keeps every request of
      every present flow, in order; the metrics stay missing only when they
      were missing and every flow was. */
  lemma {:induction false} AddFlowsCollectsAll(current: Option<RegionMetrics>, flows: seq<Option<RegionMetrics>>)
    ensures var r := AddFlows(current, flows);
      (r.None? <==> current.None? && !AnyPresent(flows)) &&
      (r.Some? ==> r.value.requests == (if current.Some? then current.value.requests else []) + AllRequests(flows))
    decreases |flows|
  {
    if flows != [] {
      AddFlowsCollectsAll(AddFlow(current, flows[0]), flows[1..]);
      if flows[0].None? {
        if AnyPresent(flows) {
          var i :| 0 <= i < |flows| && flows[i].Some?;
          assert flows[1..][i - 1].Some?;
        }
      } else {
        assert AnyPresent(flows) by { assert flows[0].Some?; }
      }
      if current.None? && AnyPresent(flows[1..]) {
        var i :| 0 <= i < |flows[1..]| && flows[1..][i].Some?;
        assert flows[i + 1].Some?;
      }
    }
  }

  function AddFlows(current: Option<RegionMetrics>, flows: seq<Option<RegionMetrics>>): Option<RegionMetrics>
    decreases |flows|
  {
    if flows == [] then current else AddFlows(AddFlow(current, flows[0]), flows[1..])
  }

  class BaseUpload {
    const key: Option<string>
    const config: Configuration
    /** Whether a completion handler was given. */
    const hasCompletionHandler: bool
    var currentRegionRequestMetrics: Option<RegionMetrics>
    var metrics: Option<TaskMetrics>
    var currentRegionIndex: nat
    var regions: Option<seq<Region>>
    /** How many times startToUpload was called (it is left to subclasses). */
    var starts: nat
    /** What the completion handler received, in order. */
    var completions: seq<Completion>

    /** The constructor and initData: no regions yet, the cursor at 0, empty
        task metrics. */
    constructor (key: Option<string>, config: Configuration, hasCompletionHandler: bool)
      ensures this.key == key && this.config == config && this.hasCompletionHandler == hasCompletionHandler
      ensures currentRegionIndex == 0 && regions.None?
      ensures metrics == Some(TaskMetrics(None, [])) && currentRegionRequestMetrics.None?
      ensures starts == 0 && completions == []
    {
      this.key := key;
      this.config := config;
      this.hasCompletionHandler := hasCompletionHandler;
      currentRegionRequestMetrics := None;
      metrics := Some(TaskMetrics(None, []));
      regions := None;
      starts := 0;
      completions := [];
      currentRegionIndex := 0;
    }

    /** setupRegions over the regions built from the zone infos (None when
        the zone has no zone infos or an empty list): without a zone or zone
        infos it fails and changes nothing; otherwise the regions become the
        valid ones in order, the task metrics record them, and it succeeds
        exactly when one is valid. */
    method SetupRegions(zones: Option<seq<Region>>) returns (ok: bool)
      requires metrics.Some?
      modifies this`regions, this`metrics
      ensures !config.hasZone || zones.None? || zones.value == [] ==>
        !ok && regions == old(regions) && metrics == old(metrics)
      ensures config.hasZone && zones.Some? && zones.value != [] ==>
        regions == Some(ValidRegions(zones.value)) &&
        metrics == Some(old(metrics).value.(regions := regions)) &&
        (ok <==> |ValidRegions(zones.value)| > 0)
    {
      if !config.hasZone {
        return false;
      }
      if zones.None? || |zones.value| == 0 {
        return false;
      }
      var zoneInfos := zones.value;
      var defaultRegions: seq<Region> := [];
      for i := 0 to |zoneInfos|
        invariant defaultRegions == ValidRegions(zoneInfos[..i])
        invariant metrics == old(metrics) && regions == old(regions)
      {
        ValidRegionsAppend(zoneInfos[..i], [zoneInfos[i]]);
        assert zoneInfos[..i + 1] == zoneInfos[..i] + [zoneInfos[i]];
        if zoneInfos[i].isValid {
          defaultRegions := defaultRegions + [zoneInfos[i]];
        }
      }
      assert zoneInfos[..|zoneInfos|] == zoneInfos;
      regions := Some(defaultRegions);
      metrics := Some(metrics.value.(regions := Some(defaultRegions)));
      ok := |defaultRegions| > 0;
    }

    /** prepareToUpload: 0 when setupRegions succeeds, -1 otherwise. It does
        not touch the cursor: on success the target is the first valid zone
        region, and the current region is that one while the cursor is at 0. */
    method PrepareToUpload(zones: Option<seq<Region>>) returns (code: int)
      requires metrics.Some?
      modifies this`regions, this`metrics
      ensures code == 0 || code == -1
      ensures code == 0 <==> config.hasZone && zones.Some? && |ValidRegions(zones.value)| > 0
      ensures code == 0 ==> regions == Some(ValidRegions(zones.value)) && TargetRegion(regions) == Some(ValidRegions(zones.value)[0])
      ensures code == 0 ==> metrics == Some(old(metrics).value.(regions := regions))
      ensures code == 0 && currentRegionIndex == 0 ==> CurrentRegion(regions, currentRegionIndex) == TargetRegion(regions)
    {
      var ok := SetupRegions(zones);
      code := if ok then 0 else -1;
    }

    /** switchRegion: moves the cursor one region on when one remains. */
    method SwitchRegion() returns (switched: bool)
      modifies this`currentRegionIndex
      ensures switched <==> SwitchedIndex(regions, old(currentRegionIndex)).Some?
      ensures currentRegionIndex == if switched then old(currentRegionIndex) + 1 else old(currentRegionIndex)
      ensures switched ==> currentRegionIndex < |regions.value|
    {
      if regions.None? {
        return false;
      }
      switched := false;
      var regionIndex := currentRegionIndex + 1;
      if regionIndex < |regions.value| {
        currentRegionIndex := regionIndex;
        switched := true;
      }
    }

    /** getCurrentRegion. */
    method GetCurrentRegion() returns (r: Option<Region>)
      ensures r == CurrentRegion(regions, currentRegionIndex)
    {
      if regions.None? {
        return None;
      }
      r := None;
      if currentRegionIndex < |regions.value| {
        r := Some(regions.value[currentRegionIndex]);
      }
    }

    /** getTargetRegion. */
    method GetTargetRegion() returns (r: Option<Region>)
      ensures r == TargetRegion(regions)
    {
      if regions.None? || |regions.value| == 0 {
        return None;
      }
      return Some(regions.value[0]);
    }

    /** insertRegionAtFirst: looks for a region equal to the new one and puts
        the new one in front only when there is none; the cursor stays.
        setupRegions gives the task metrics the very list it installs, so an
        insert shows in the task metrics' regions too while they exist. */
    method InsertRegionAtFirst(region: Option<Region>, isEqual: (Region, Region) -> bool)
      requires region.Some? ==> regions.Some?
      modifies this`regions, this`metrics
      ensures region.None? ==> regions == old(regions)
      ensures region.Some? ==> regions == Some(InsertAtFirst(old(regions).value, region, isEqual))
      ensures metrics ==
        if region.Some? && !HasEqual(region.value, old(regions).value, isEqual) && old(metrics).Some?
        then Some(old(metrics).value.(regions := regions))
        else old(metrics)
    {
      if region.None? {
        return;
      }
      var list := regions.value;
      var hasRegion := false;
      for i := 0 to |list|
        invariant !hasRegion ==> forall k :: 0 <= k < i ==> !isEqual(region.value, list[k])
        invariant hasRegion ==> HasEqual(region.value, list, isEqual)
      {
        if isEqual(region.value, list[i]) {
          hasRegion := true;
          break;
        }
      }
      if !hasRegion {
        regions := Some([region.value] + list);
        if metrics.Some? {
          metrics := Some(metrics.value.(regions := regions));
        }
      }
    }

    /** addRegionRequestMetricsOfOneFlow. */
    method AddRegionRequestMetricsOfOneFlow(m: Option<RegionMetrics>)
      modifies this`currentRegionRequestMetrics
      ensures currentRegionRequestMetrics == AddFlow(old(currentRegionRequestMetrics), m)
    {
      if m.None? {
        return;
      }
      if currentRegionRequestMetrics.None? {
        currentRegionRequestMetrics := m;
      } else {
        currentRegionRequestMetrics := Some(RegionMetrics(currentRegionRequestMetrics.value.requests + m.value.requests));
      }
    }

    /** switchRegionAndUpload: folds the metrics of the region left behind
        into the task metrics, clears them, switches, and starts the upload
        again only when the switch happened. */
    method SwitchRegionAndUpload() returns (switched: bool)
      requires currentRegionRequestMetrics.Some? ==> metrics.Some?
      modifies this`currentRegionRequestMetrics, this`metrics, this`currentRegionIndex, this`starts
      ensures currentRegionRequestMetrics.None?
      ensures metrics == if old(currentRegionRequestMetrics).Some? then Some(AddToTask(old(metrics).value, old(currentRegionRequestMetrics))) else old(metrics)
      ensures switched <==> SwitchedIndex(regions, old(currentRegionIndex)).Some?
      ensures currentRegionIndex == if switched then old(currentRegionIndex) + 1 else old(currentRegionIndex)
      ensures starts == if switched then old(starts) + 1 else old(starts)
    {
      if currentRegionRequestMetrics.Some? {
        metrics := Some(AddToTask(metrics.value, currentRegionRequestMetrics));
        currentRegionRequestMetrics := None;
      }
      switched := SwitchRegion();
      if switched {
        starts := starts + 1;
      }
    }

    /** switchRegionAndUploadIfNeededWithErrorResponse: nothing happens
        unless the response failed, may be retried and backup hosts are
        allowed; then it is the outcome of switchRegionAndUpload. */
    method SwitchRegionAndUploadIfNeededWithErrorResponse(errorInfo: Option<ResponseInfo>) returns (switched: bool)
      requires currentRegionRequestMetrics.Some? ==> metrics.Some?
      modifies this`currentRegionRequestMetrics, this`metrics, this`currentRegionIndex, this`starts
      ensures !SwitchWanted(errorInfo, config.allowBackupHost) ==>
        !switched && unchanged(this`currentRegionRequestMetrics, this`metrics, this`currentRegionIndex, this`starts)
      ensures switched <==> SwitchWanted(errorInfo, config.allowBackupHost) && SwitchedIndex(regions, old(currentRegionIndex)).Some?
      ensures currentRegionIndex == if switched then old(currentRegionIndex) + 1 else old(currentRegionIndex)
      ensures switched ==> currentRegionIndex < |regions.value|
      ensures SwitchWanted(errorInfo, config.allowBackupHost) ==>
        currentRegionRequestMetrics.None? &&
        metrics == (if old(currentRegionRequestMetrics).Some? then Some(AddToTask(old(metrics).value, old(currentRegionRequestMetrics))) else old(metrics))
      ensures starts == if switched then old(starts) + 1 else old(starts)
    {
      if errorInfo.None? || errorInfo.value.isOK || !errorInfo.value.couldRetry || !config.allowBackupHost {
        return false;
      }
      switched := SwitchRegionAndUpload();
    }

    /** completeAction: folds the pending region metrics into the task
        metrics (when both exist), hands the response and the task metrics to
        the completion handler if there is one, then drops both metrics. */
    method CompleteAction(info: ResponseInfo)
      modifies this`currentRegionRequestMetrics, this`metrics, this`completions
      ensures metrics.None? && currentRegionRequestMetrics.None?
      ensures var folded := if old(currentRegionRequestMetrics).Some? && old(metrics).Some?
                            then Some(AddToTask(old(metrics).value, old(currentRegionRequestMetrics)))
                            else old(metrics);
        completions == old(completions) + (if hasCompletionHandler then [Completion(info, key, folded)] else [])
    {
      if currentRegionRequestMetrics.Some? && metrics.Some? {
        metrics := Some(AddToTask(metrics.value, currentRegionRequestMetrics));
      }
      if hasCompletionHandler {
        completions := completions + [Completion(info, key, metrics)];
      }
      metrics := None;
      currentRegionRequestMetrics := None;
    }

    /** run, from the answer of the zone pre-query on: the query's metrics go
        into the task metrics; on success the regions are set up and the
        upload starts, or the upload completes with the prepare error; a
        failed query completes the upload with its own response. The query
        itself goes through the configured zone, so there must be one. */
    method Run(code: int, info: ResponseInfo, requestMetrics: Option<RegionMetrics>, zones: Option<seq<Region>>)
      requires config.hasZone && metrics.Some?
      modifies this`regions, this`metrics, this`currentRegionRequestMetrics, this`completions, this`starts
      ensures code == 0 && zones.Some? && |ValidRegions(zones.value)| > 0 ==>
        starts == old(starts) + 1 && completions == old(completions) && regions == Some(ValidRegions(zones.value)) &&
        metrics == Some(AddToTask(old(metrics).value, requestMetrics).(regions := regions)) &&
        currentRegionRequestMetrics == old(currentRegionRequestMetrics)
      ensures !(code == 0 && zones.Some? && |ValidRegions(zones.value)| > 0) ==>
        starts == old(starts) && metrics.None? && currentRegionRequestMetrics.None? &&
        |completions| == |old(completions)| + (if hasCompletionHandler then 1 else 0)
      ensures hasCompletionHandler && code != 0 ==> completions[|completions| - 1].info == info
      ensures hasCompletionHandler && code == 0 && !(zones.Some? && |ValidRegions(zones.value)| > 0) ==>
        completions[|completions| - 1].info == LocalError(PrepareFailed(-1))
    {
      metrics := Some(AddToTask(metrics.value, requestMetrics));
      if code == 0 {
        var prepareCode := PrepareToUpload(zones);
        if prepareCode == 0 {
          starts := starts + 1;
        } else {
          CompleteAction(LocalError(PrepareFailed(prepareCode)));
        }
      } else {
        CompleteAction(info);
      }
    }
  }
}
