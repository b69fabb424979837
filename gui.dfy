/**
  The widgets of src/birbwatch/gui.py that hold state, and the signal hub `C` that connects
  them. Each Qt signal delivery is a sequential method call; the handlers connected to a
  signal run in their connection order. Threads, layouts, the status bar texts and the media
  player are not modelled: a completed background job is a call made by the environment.
 */
module Gui {

  import opened Wrappers
  import opened AppState
  import ValidationCycle
  import StreamDb
  import Probe
  import Server

  type Stream = StreamDb.Stream

  /** The status column: unknown, healthy or unhealthy. */
  function StatusText(healthy: Option<bool>): string {
    match healthy
    case None => "?"
    case Some(h) => if h then "OK" else "ERR"
  }

  /** The quality column: unknown, or the selected label. */
  function QualityText(quality: Option<string>): string {
    match quality
    case None => "?"
    case Some(q) => q
  }

  /** The stream column: the name, with the description in italics on a second line. */
  function NameText(s: Stream): string {
    s.name + "<br><i>" + s.description + "</i>"
  }

  /** The three label texts `StreamItem.update` sets. */
  function Columns(s: Stream): seq<string> {
    [NameText(s), StatusText(s.healthy), QualityText(s.quality)]
  }

  /** Reads the health back from a status text. */
  function ReadStatus(text: string): Option<Option<bool>> {
    if text == "?" then Some(None)
    else if text == "OK" then Some(Some(true))
    else if text == "ERR" then Some(Some(false))
    else None
  }

  /** The status column shows one of three texts, and which one tells the health exactly. */
  lemma StatusColumnShowsHealth(s: Stream)
    ensures Columns(s)[1] in {"?", "OK", "ERR"}
    ensures ReadStatus(Columns(s)[1]) == Some(s.healthy)
    ensures Columns(s)[2] == "?" <==> s.quality.None? || s.quality == Some("?")
    ensures s.quality.Some? ==> Columns(s)[2] == s.quality.value
  {
  }

  /** `bool(False if stream is None else stream.healthy)`: `None` health is falsy. */
  function PlayEnabled(stream: Option<Stream>): bool {
    match stream
    case None => false
    case Some(s) => s.healthy == Some(true)
  }

  /** The play button is enabled exactly when a stream is selected and its status column shows
      `OK`. */
  lemma PlayEnabledWhenShownOK(stream: Option<Stream>)
    ensures PlayEnabled(stream) <==> stream.Some? && Columns(stream.value)[1] == "OK"
  {
  }

  /** A `StreamItem` of the list: the `Stream` object it shares with the selection, and its
      column texts. */
  class StreamItem {
    var stream: Stream
    var columns: seq<string>

    ghost predicate Shown()
      reads this
    {
      columns == Columns(stream)
    }

    constructor (stream: Stream)
      ensures this.stream == stream && Shown()
    {
      this.stream := stream;
      columns := Columns(stream);
    }

    method Update()
      modifies this`columns
      ensures Shown()
    {
      columns := Columns(stream);
    }

    /** Stores a probe verdict in the shared stream and redraws. */
    method ValidateCallback(healthy: bool, quality: Option<string>)
      modifies this
      ensures stream == old(stream).(healthy := Some(healthy), quality := quality)
      ensures Shown()
    {
      stream := stream.(healthy := Some(healthy), quality := quality);
      Update();
    }
  }

  /** The stream of an optional item, as the selection signal carries it. */
  function StreamOf(item: Option<StreamItem>): Option<Stream>
    reads if item.Some? then {item.value} else {}
  {
    match item
    case None => None
    case Some(i) => Some(i.stream)
  }

  /** The list of streams, its current item and the validation counter `num_validated`. */
  class StreamListWidget {
    var items: seq<StreamItem>
    var current: Option<StreamItem>
    var numValidated: int
    /** Whether `validate` has run: before it, `num_validated` does not exist. */
    ghost var validated: bool
    /** The signals emitted by the list since the last `validate`. */
    ghost var cycle: seq<Event>

    /** The signals of the current cycle are those that `n` items and `num_validated`
        completions produce. */
    ghost predicate Valid()
      reads this
    {
      validated ==> numValidated >= 0 && cycle == ValidationCycle.CycleSignals(|items|, numValidated)
    }

    constructor ()
      ensures Valid() && items == [] && current.None? && !validated
    {
      items := [];
      current := None;
      numValidated := 0;
      validated := false;
      cycle := [];
    }

    /** Discards the old items and the current item, then adds one new item per stream. Each
        item is created with the tree as its parent, which appends it; the later
        `insertTopLevelItem(0, ...)` finds it already inserted and does nothing, so the list
        keeps the fetch order. The count starts at 0 of n. */
    method Validate(streams: seq<Stream>)
      modifies this
      ensures Valid() && validated && current.None?
      ensures |items| == |streams|
      ensures forall i :: 0 <= i < |items| ==>
        fresh(items[i]) && items[i].stream == streams[i] && items[i].Shown()
      ensures forall i, j :: 0 <= i < j < |items| ==> items[i] != items[j]
      ensures numValidated == 0
      ensures cycle == [Validating, Progress(0, |streams|)]
    {
      items := [];
      current := None;
      var i := 0;
      while i < |streams|
        invariant 0 <= i <= |streams| && |items| == i && current.None?
        invariant forall k :: 0 <= k < i ==>
          fresh(items[k]) && items[k].stream == streams[k] && items[k].Shown()
        invariant forall j, k :: 0 <= j < k < i ==> items[j] != items[k]
      {
        var item := new StreamItem(streams[i]);
        items := items + [item];
        i := i + 1;
      }
      cycle := [Validating];
      numValidated := 0;
      cycle := cycle + [Progress(numValidated, |items|)];
      validated := true;
    }

    /** One probe completion, whichever item it is for: count it and report the progress, and
        `done` when the count reaches the number of items. */
    method ValidatePartialCallback()
      requires Valid() && validated
      modifies this`numValidated, this`cycle
      ensures Valid()
      ensures numValidated == old(numValidated) + 1
      ensures cycle == old(cycle) + ValidationCycle.CompletionSignals(numValidated, |items|)
    {
      numValidated := numValidated + 1;
      cycle := cycle + ValidationCycle.CompletionSignals(numValidated, |items|);
    }
  }

  /** The refresh and play buttons and the stream the play button was last updated for. */
  class StreamActionWidget {
    var current: Option<StreamItem>
    var playEnabled: bool
    var refreshEnabled: bool

    constructor ()
      ensures current.None? && !playEnabled && refreshEnabled
    {
      current := None;
      playEnabled := false;
      refreshEnabled := true;
    }

    method UpdatePlayBtn(item: Option<StreamItem>)
      modifies this`current, this`playEnabled
      ensures current == item
      ensures playEnabled == PlayEnabled(StreamOf(item))
    {
      current := item;
      playEnabled := match item case None => false case Some(i) => i.stream.healthy == Some(true);
    }
  }

  /** What `start_stream` and `stop_stream` do, in order. */
  datatype Action = StopPlayer | StopServer | StartServer(url: string)

  /** The main window: the selected stream and the proxy server it drives. */
  class BirbwatchMain {
    var selected: Option<StreamItem>
    const server: Server.StreamServer
    /** The player and server calls made so far. */
    ghost var actions: seq<Action>

    /** The window starts on the settings view, which stops the player and the stream. */
    constructor (server: Server.StreamServer)
      requires server.Valid()
      modifies server
      ensures this.server == server && selected.None?
      ensures actions == [StopPlayer, StopPlayer, StopServer]
      ensures server.Valid() && !server.Running()
      ensures server.log == old(server.log) + Server.StopEvents(old(server.proc))
      ensures server.port == old(server.port) && server.quality == old(server.quality)
    {
      selected := None;
      this.server := server;
      actions := [StopPlayer];
      new;
      StopStream();
    }

    method StopStream()
      requires server.Valid()
      modifies this`actions, server
      ensures server.Valid() && !server.Running()
      ensures server.log == old(server.log) + Server.StopEvents(old(server.proc))
      ensures server.port == old(server.port) && server.quality == old(server.quality)
      ensures actions == old(actions) + [StopPlayer, StopServer]
    {
      actions := actions + [StopPlayer];
      server.Stop();
      actions := actions + [StopServer];
    }

    /** What `start_stream` leaves behind, given the calls made, the process log and the held
        handle before it: the player and the proxy were stopped, and a proxy for the selected
        url was spawned only when the selection is healthy. */
    ghost predicate StartedFrom(actions0: seq<Action>, log0: seq<Server.ProcEvent>, proc0: Option<Server.Process>)
      reads this, server, if selected.Some? then {selected.value} else {}
    {
      && server.Valid()
      && (server.Running() <==> PlayEnabled(StreamOf(selected)))
      && (PlayEnabled(StreamOf(selected)) ==>
        && actions == actions0 + [StopPlayer, StopServer, StartServer(selected.value.stream.url)]
        && server.proc.value.argv == Server.Command(server.port, server.quality, selected.value.stream.url)
        && server.log == log0 + Server.StopEvents(proc0) + [Server.Spawn(server.proc.value)]
        && Server.Live(server.log) == {server.proc.value})
      && (!PlayEnabled(StreamOf(selected)) ==>
        && actions == actions0 + [StopPlayer, StopServer]
        && server.log == log0 + Server.StopEvents(proc0))
    }

    /** What `show_settings` leaves behind: the player was stopped twice (directly and by
        `stop_stream`), then the proxy, and every process has been sent `terminate`. */
    ghost predicate SettingsShownFrom(actions0: seq<Action>, log0: seq<Server.ProcEvent>, proc0: Option<Server.Process>)
      reads this, server
    {
      && server.Valid() && !server.Running() && Server.Live(server.log) == {}
      && actions == actions0 + [StopPlayer, StopPlayer, StopServer]
      && server.log == log0 + Server.StopEvents(proc0)
    }

    /** Always stops first; starts the proxy for the selected stream only when one is selected
        and it is healthy. */
    method StartStream()
      requires server.Valid()
      modifies this`actions, server
      ensures StartedFrom(old(actions), old(server.log), old(server.proc))
      ensures server.port == old(server.port) && server.quality == old(server.quality)
    {
      StopStream();
      if selected.Some? && selected.value.stream.healthy == Some(true) {
        var url := selected.value.stream.url;
        server.Start(url);
        actions := actions + [StartServer(url)];
      }
    }

    method SetSelectedStream(item: Option<StreamItem>)
      modifies this`selected
      ensures selected == item
    {
      selected := item;
    }

    method ShowPlayer()
      requires server.Valid()
      modifies this`actions, server
      ensures StartedFrom(old(actions), old(server.log), old(server.proc))
      ensures server.port == old(server.port) && server.quality == old(server.quality)
    {
      StartStream();
    }

    method ShowSettings()
      requires server.Valid()
      modifies this`actions, server
      ensures SettingsShownFrom(old(actions), old(server.log), old(server.proc))
      ensures server.port == old(server.port) && server.quality == old(server.quality)
    {
      actions := actions + [StopPlayer];
      StopStream();
    }
  }

  /** The application: the `STATE` object, the widgets and the hub `C` that connects them. */
  class App {
    const state: State
    const list: StreamListWidget
    const action: StreamActionWidget
    const main: BirbwatchMain
    /** Every signal emitted on the hub, in order. */
    ghost var signals: seq<Event>

    /** The flags are the reducer applied to every signal so far, and the action widget and the
        window both hold the list's current item, which `selected_stream_update` reported. */
    ghost predicate Valid()
      reads this, state, list, action, main, main.server
    {
      && state.Snapshot() == Run(Initial, signals) && list.Valid() && main.server.Valid()
      && action.current == list.current && main.selected == list.current
    }

    /** The hub, `STATE`, the window and its widgets, as the program builds them; the window
        starts on the settings view, and `refresh_on_start` emits `refresh_streams` at once. */
    constructor (port: int, quality: string, refreshOnStart: bool)
      ensures Valid() && fresh(state) && fresh(list) && fresh(action) && fresh(main) && fresh(main.server)
      ensures signals == (if refreshOnStart then [Refresh, Getting] else [])
      ensures state.Snapshot() == (if refreshOnStart then Initial.(getting := true) else Initial)
      ensures list.items == [] && list.current.None? && !list.validated
      ensures action.current.None? && !action.playEnabled && action.refreshEnabled == !refreshOnStart
      ensures main.selected.None? && main.actions == [StopPlayer, StopPlayer, StopServer]
      ensures main.server.port == port && main.server.quality == quality
      ensures !main.server.Running() && main.server.log == []
    {
      state := new State();
      list := new StreamListWidget();
      action := new StreamActionWidget();
      var server := new Server.StreamServer(port, quality);
      main := new BirbwatchMain(server);
      signals := [];
      new;
      if refreshOnStart {
        Emit(Refresh);
      }
    }

    /** Records `e` on the hub and runs the `STATE` lambdas connected to it. */
    method Record(e: Event)
      requires Valid()
      modifies this`signals, state
      ensures Valid()
      ensures signals == old(signals) + [e]
      ensures state.Snapshot() == Apply(old(state.Snapshot()), e)
    {
      signals := signals + [e];
      RunAppend(Initial, old(signals), [e]);
      assert Run(Initial, signals) == Apply(Run(Initial, old(signals)), e) by {
        assert [e][..0] == [];
      }
      state.Handle(e);
    }

    /** Emits `e` on the hub: the `STATE` lambdas run first, then the widget slots in the order
        the widgets connected them. `refresh_streams` reaches the list's `refresh` first, which
        emits `refresh_streams_getting` before the refresh button is disabled. */
    method Emit(e: Event)
      requires Valid()
      modifies this`signals, state, action, main, main.server
      ensures Valid()
      ensures signals == old(signals) + [e] + (if e.Refresh? then [Getting] else [])
      ensures state.Snapshot() == Apply(old(state.Snapshot()), e)
      ensures main.selected == old(main.selected) && action.current == old(action.current)
      ensures main.server.port == old(main.server.port) && main.server.quality == old(main.server.quality)
      ensures action.refreshEnabled ==
        if e.Refresh? then false else if e.Done? then true else old(action.refreshEnabled)
      ensures action.playEnabled ==
        if e.Progress? then PlayEnabled(StreamOf(action.current))
        else if e.ShowPlayer? then false
        else old(action.playEnabled)
      ensures (e.Getting? || e.Validating? || e.ShowSettings?) ==> unchanged(action)
      ensures !e.ShowPlayer? && !e.ShowSettings? ==> unchanged(main) && unchanged(main.server)
      ensures e.ShowPlayer? ==> main.StartedFrom(old(main.actions), old(main.server.log), old(main.server.proc))
      ensures e.ShowSettings? ==>
        main.SettingsShownFrom(old(main.actions), old(main.server.log), old(main.server.proc))
    {
      Record(e);
      match e {
        case Refresh =>
          Record(Getting);
          action.refreshEnabled := false;
        case Done =>
          action.refreshEnabled := true;
        case Progress(_, _) =>
          action.UpdatePlayBtn(action.current);
        case ShowPlayer =>
          action.playEnabled := false;
          main.ShowPlayer();
        case ShowSettings =>
          main.ShowSettings();
        case Getting =>
        case Validating =>
      }
    }

    /** The refresh button emits `refresh_streams`; the list's slot emits
        `refresh_streams_getting` and starts the fetch in the background. */
    method RefreshClicked()
      requires Valid()
      modifies this`signals, state, action, main, main.server
      ensures Valid()
      ensures signals == old(signals) + [Refresh, Getting]
      ensures state.Snapshot() == old(state.Snapshot()).(getting := true)
      ensures !action.refreshEnabled
      ensures action.playEnabled == old(action.playEnabled) && action.current == old(action.current)
      ensures unchanged(main) && unchanged(main.server)
    {
      Emit(Refresh);
    }

    /** The background fetch: it emits `refresh_streams_getting`, loads the stream list, and its
        result repopulates the list; when loading raises, no result is delivered. */
    method FetchCompleted(sources: seq<string>, http: StreamDb.Loader, file: StreamDb.Loader)
      requires Valid()
      modifies this`signals, state, list, action, main, main.server
      ensures Valid()
      ensures unchanged(main.server) && main.actions == old(main.actions)
      ensures action.refreshEnabled == old(action.refreshEnabled)
      ensures var outcome := StreamDb.FromDocument(StreamDb.Selected(sources, http, file));
        match outcome
        case Raised =>
          && signals == old(signals) + [Getting]
          && state.Snapshot() == old(state.Snapshot())
          && unchanged(list) && unchanged(action) && unchanged(main)
        case Returned(streams) =>
          && signals == old(signals) + [Getting, Validating, Progress(0, |streams|)]
          && state.Snapshot() == old(state.Snapshot()).(getting := false).(validating := true)
          && |list.items| == |streams| && list.numValidated == 0 && list.validated
          && (forall i :: 0 <= i < |streams| ==> list.items[i].stream == streams[i])
          && list.current.None? && action.current.None? && main.selected.None?
          && !action.playEnabled
    {
      Emit(Getting);
      var outcome, _ := StreamDb.GetStreamsDb(sources, http, file);
      if outcome.Returned? {
        Repopulate(outcome.streams);
      }
    }

    /** The list's `validate` slot receives the fetched streams: the list is cleared, which drops
        the current item, and refilled, and the cycle starts with `validating` and `(0, n)`. */
    method Repopulate(streams: seq<Stream>)
      requires Valid()
      modifies this`signals, state, list, action, main, main.server
      ensures Valid()
      ensures unchanged(main.server) && main.actions == old(main.actions)
      ensures action.refreshEnabled == old(action.refreshEnabled)
      ensures signals == old(signals) + [Validating, Progress(0, |streams|)]
      ensures state.Snapshot() == old(state.Snapshot()).(getting := false).(validating := true)
      ensures |list.items| == |streams| && list.numValidated == 0 && list.validated
      ensures forall i :: 0 <= i < |streams| ==> list.items[i].stream == streams[i]
      ensures list.current.None? && action.current.None? && main.selected.None?
      ensures !action.playEnabled
    {
      if list.current.Some? {
        // `clear()` first drops the current item, and the change reaches the action widget
        // and the window as `selected_stream_update(None)`.
        Select(None);
      }
      list.Validate(streams);
      Emit(Validating);
      Emit(Progress(0, |streams|));
    }

    /** A probe for `item` finished; `resolved` is the resolver's answer for its url. The
        result reaches the list's counter first and the item second, so the play button,
        updated on the progress signal, still sees the item's previous health. */
    method ProbeCompleted(item: StreamItem, resolved: Probe.Resolved, prefs: seq<string>,
                          isHealthy: Probe.Handle -> bool)
      requires Valid() && list.validated
      modifies this`signals, state, list`numValidated, list`cycle, action, main, main.server, item
      ensures Valid()
      ensures unchanged(main) && unchanged(main.server)
      ensures list.numValidated == old(list.numValidated) + 1 && list.items == old(list.items)
      ensures signals == old(signals) + ValidationCycle.CompletionSignals(list.numValidated, |list.items|)
      ensures list.cycle == old(list.cycle) + ValidationCycle.CompletionSignals(list.numValidated, |list.items|)
      ensures var v := Probe.ProbeVerdict(resolved, prefs, isHealthy);
        item.stream == old(item.stream).(healthy := Some(v.healthy), quality := v.quality)
      ensures item.Shown()
      ensures action.current == old(action.current)
      ensures action.playEnabled == PlayEnabled(old(StreamOf(action.current)))
      ensures list.numValidated == |list.items| ==>
        && action.refreshEnabled
        && state.Snapshot() == old(state.Snapshot()).(getting := false).(validating := false)
        && !state.Snapshot().Refreshing()
      ensures list.numValidated != |list.items| ==>
        action.refreshEnabled == old(action.refreshEnabled) && state.Snapshot() == old(state.Snapshot())
    {
      var healthy, quality := Probe.Run(resolved, prefs, isHealthy);
      list.ValidatePartialCallback();
      var k, n := list.numValidated, |list.items|;
      Emit(Progress(k, n));
      if k == n {
        Emit(Done);
      }
      assert signals == old(signals) + ValidationCycle.CompletionSignals(k, n);
      item.ValidateCallback(healthy, quality);
    }

    /** The current tree item changed to one of the list's items, or to none: the action widget
        and then the main window learn it. */
    method Select(item: Option<StreamItem>)
      requires Valid()
      requires item.None? || item.value in list.items
      modifies list`current, action`current, action`playEnabled, main`selected
      ensures Valid()
      ensures list.current == item && action.current == item && main.selected == item
      ensures action.playEnabled == PlayEnabled(StreamOf(item))
    {
      list.current := item;
      action.UpdatePlayBtn(item);
      main.SetSelectedStream(item);
    }

    /** The play button shows the player, which starts the proxy for the selection. */
    method PlayClicked()
      requires Valid()
      modifies this`signals, state, action, main, main.server
      ensures Valid()
      ensures signals == old(signals) + [ShowPlayer]
      ensures state.Snapshot() == old(state.Snapshot()).(streaming := true)
      ensures !action.playEnabled && action.current == old(action.current)
      ensures action.refreshEnabled == old(action.refreshEnabled)
      ensures main.StartedFrom(old(main.actions), old(main.server.log), old(main.server.proc))
    {
      Emit(ShowPlayer);
    }

    /** The proxy reported it is serving: the play button is enabled again. */
    method ServerStarted()
      modifies action`playEnabled
      ensures action.playEnabled
    {
      action.playEnabled := true;
    }

    /** A click on the player returns to the settings view, which stops the stream. */
    method PlayerClicked()
      requires Valid()
      modifies this`signals, state, action, main, main.server
      ensures Valid()
      ensures signals == old(signals) + [ShowSettings]
      ensures state.Snapshot() == old(state.Snapshot()).(streaming := false)
      ensures unchanged(action)
      ensures main.SettingsShownFrom(old(main.actions), old(main.server.log), old(main.server.proc))
    {
      Emit(ShowSettings);
    }
  }
}
