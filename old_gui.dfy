/**
  The earlier list widget of birbwatch/gui.py. Its items track a two-valued health and the
  resolved `'worst'` variant; each probe runs on the item's own worker, whose `finished` signal
  reaches the item first and the list's counter second. A probe that raises delivers nothing:
  `forward_result` re-raises from `future.result()` before it can emit.
 */
module OldGui {

  import opened Wrappers
  import opened AppState
  import ValidationCycle
  import Probe
  import Gui

  /** The `Stream` dataclass of birbwatch/stream.py. */
  datatype Stream = Stream(
    name: string,
    description: string,
    url: string,
    playing: Option<bool>,
    healthy: Option<bool>)

  /** The `data` of the `TaskResult` that `StreamItem.validate` returns (its status is 0). */
  datatype ProbeData = ProbeData(slStream: Probe.Handle, healthy: bool)

  /** `StreamItem.validate`: the `'worst'` variant and `is_healthy`'s answer about it, or
      `None` when the resolver raised or offered no `'worst'` (the lookup raises `KeyError`). */
  function ValidateJob(resolved: Probe.Resolved, isHealthy: Probe.Handle -> bool): (r: Option<ProbeData>)
    ensures r.Some? <==> resolved.Some? && "worst" in resolved.value
    ensures r.Some? ==>
      && r.value.slStream == resolved.value["worst"]
      && r.value.healthy == isHealthy(resolved.value["worst"])
  {
    match resolved
    case None => None
    case Some(streams) =>
      if "worst" in streams then Some(ProbeData(streams["worst"], isHealthy(streams["worst"]))) else None
  }

  /** The old probe is the later probe with the single preference `'worst'`, except that where
      the later one reports `healthy=False` the old one delivers no result at all. */
  lemma ValidateJobIsWorstPreference(resolved: Probe.Resolved, isHealthy: Probe.Handle -> bool)
    ensures var v := Probe.ProbeVerdict(resolved, ["worst"], isHealthy);
      match ValidateJob(resolved, isHealthy)
      case None => v == Probe.Verdict(false, None) && (resolved.None? || "worst" !in resolved.value)
      case Some(d) =>
        && v == Probe.Verdict(d.healthy, Some("worst"))
        && d.slStream == resolved.value["worst"]
  {
    if resolved.Some? {
      assert ["worst"][1..] == [];
    }
  }

  /** The texts of `update`: the name, `OK` or `ERR`, and an empty third column. */
  function UpdatedColumns(name: string, healthy: bool): seq<string> {
    [name, if healthy then "OK" else "ERR", ""]
  }

  /** The texts an item is created with. */
  function InitialColumns(name: string): seq<string> {
    [name, "?", ""]
  }

  /** The old status column agrees with the later one: `?` while unknown, then the same text
      for the same verdict. */
  lemma StatusAgreesWithLaterVersion(name: string, healthy: bool)
    ensures InitialColumns(name)[1] == Gui.StatusText(None)
    ensures UpdatedColumns(name, healthy)[1] == Gui.StatusText(Some(healthy))
    ensures Gui.ReadStatus(UpdatedColumns(name, healthy)[1]) == Some(Some(healthy))
  {
  }

  class StreamItem {
    var stream: Stream
    var slStream: Option<Probe.Handle>
    var healthy: bool
    var columns: seq<string>

    /** A new item shows its name and `?`, and counts as unhealthy. */
    constructor (stream: Stream)
      ensures this.stream == stream && slStream.None? && !healthy
      ensures columns == InitialColumns(stream.name)
    {
      this.stream := stream;
      slStream := None;
      healthy := false;
      columns := [stream.name, "?", ""];
    }

    method Update()
      modifies this`columns
      ensures columns == UpdatedColumns(stream.name, healthy)
    {
      columns := [stream.name, if healthy then "OK" else "ERR", ""];
    }

    method ValidateCallback(data: ProbeData)
      modifies this`slStream, this`healthy, this`columns
      ensures slStream == Some(data.slStream) && healthy == data.healthy
      ensures columns == UpdatedColumns(stream.name, data.healthy)
    {
      slStream := Some(data.slStream);
      healthy := data.healthy;
      Update();
    }
  }

  class StreamListWidget {
    var items: seq<StreamItem>
    var numValidated: int
    /** Whether `refresh_callback` has run: before it, `num_validated` does not exist. */
    ghost var validated: bool
    /** The signals emitted by the list since the last `refresh_callback`. */
    ghost var cycle: seq<Event>

    ghost predicate Valid()
      reads this
    {
      validated ==> numValidated >= 0 && cycle == ValidationCycle.CycleSignals(|items|, numValidated)
    }

    constructor ()
      ensures Valid() && items == [] && !validated
    {
      items := [];
      numValidated := 0;
      validated := false;
      cycle := [];
    }

    /** Discards the old items and inserts one new item per fetched stream at the top, so the
        list is the reverse of the fetch order; then submits every probe and reports 0 of n. */
    method RefreshCallback(streams: seq<Stream>)
      modifies this
      ensures Valid() && validated
      ensures |items| == |streams|
      ensures forall i :: 0 <= i < |items| ==>
        && fresh(items[i]) && items[i].stream == streams[|streams| - 1 - i]
        && !items[i].healthy && items[i].slStream.None?
        && items[i].columns == InitialColumns(streams[|streams| - 1 - i].name)
      ensures forall i, j :: 0 <= i < j < |items| ==> items[i] != items[j]
      ensures numValidated == 0
      ensures cycle == [Validating, Progress(0, |streams|)]
    {
      items := [];
      var i := 0;
      while i < |streams|
        invariant 0 <= i <= |streams| && |items| == i
        invariant forall k :: 0 <= k < i ==>
          && fresh(items[k]) && items[k].stream == streams[i - 1 - k]
          && !items[k].healthy && items[k].slStream.None?
          && items[k].columns == InitialColumns(streams[i - 1 - k].name)
        invariant forall j, k :: 0 <= j < k < i ==> items[j] != items[k]
      {
        var item := new StreamItem(streams[i]);
        items := [item] + items;
        i := i + 1;
      }
      cycle := [Validating];
      numValidated := 0;
      cycle := cycle + [Progress(numValidated, |items|)];
      validated := true;
    }

    method ValidatePartialCallback()
      requires Valid() && validated
      modifies this`numValidated, this`cycle
      ensures Valid()
      ensures numValidated == old(numValidated) + 1
      ensures cycle == old(cycle) + ValidationCycle.CompletionSignals(numValidated, |items|)
    {
      numValidated := numValidated + 1;
      cycle := cycle + ValidationCycle.CompletionSignals(numValidated, |items|);
    }
  }

  /** The probe of `item` finished, with `resolved` the resolver's answer for its url. A result
      is delivered to the item and then to the list's counter; a probe that raised changes
      nothing. */
  method ProbeFinished(list: StreamListWidget, item: StreamItem, resolved: Probe.Resolved,
                       isHealthy: Probe.Handle -> bool)
    returns (delivered: bool)
    requires list.Valid() && list.validated
    modifies list`numValidated, list`cycle, item`slStream, item`healthy, item`columns
    ensures list.Valid()
    ensures delivered <==> ValidateJob(resolved, isHealthy).Some?
    ensures !delivered ==> unchanged(list) && unchanged(item)
    ensures delivered ==>
      && list.numValidated == old(list.numValidated) + 1
      && list.cycle == old(list.cycle) + ValidationCycle.CompletionSignals(list.numValidated, |list.items|)
      && item.healthy == ValidateJob(resolved, isHealthy).value.healthy
      && item.slStream == Some(ValidateJob(resolved, isHealthy).value.slStream)
      && item.columns == UpdatedColumns(item.stream.name, item.healthy)
  {
    var result := ValidateJob(resolved, isHealthy);
    delivered := result.Some?;
    if delivered {
      item.ValidateCallback(result.value);
      list.ValidatePartialCallback();
    }
  }
}
