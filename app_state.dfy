/**
  The application's state flags (the `State` dataclass of src/birbwatch/gui.py) and the fixed
  signal handlers that flip them. The signals of the `Communicate` hub are the events; the
  handlers are a reducer over them, and the class `State` applies them in place.
 */
module AppState {

  import opened Wrappers

  /** The signals of the `Communicate` hub that concern the refresh cycle and the views. */
  datatype Event =
    | Refresh                          // refresh_streams
    | Getting                          // refresh_streams_getting
    | Validating                       // refresh_streams_validating
    | Progress(current: int, total: int) // refresh_streams_validating_partial
    | Done                             // refresh_streams_done
    | ShowPlayer                       // show_player
    | ShowSettings                     // show_settings

  datatype Flags = Flags(streaming: bool, getting: bool, validating: bool) {

    predicate Refreshing() {
      getting || validating
    }

    predicate Idle() {
      !streaming && !Refreshing()
    }
  }

  /** The dataclass defaults. */
  const Initial := Flags(false, false, false)

  /** The lambdas connected to the hub, applied in their connection order. */
  function Apply(f: Flags, e: Event): Flags {
    match e
    case Refresh => f.(getting := true)
    case Validating => f.(getting := false).(validating := true)
    case Done => f.(getting := false).(validating := false)
    case ShowPlayer => f.(streaming := true)
    case ShowSettings => f.(streaming := false)
    case Getting => f
    case Progress(_, _) => f
  }

  /** The flags after the events `es`, delivered in order, starting from `f`. */
  function Run(f: Flags, es: seq<Event>): Flags
    decreases |es|
  {
    if es == [] then f else Apply(Run(f, es[..|es| - 1]), es[|es| - 1])
  }

  /** The events that set or clear a flag: which flag is given by `touches`. */
  predicate TouchesStreaming(e: Event) {
    e.ShowPlayer? || e.ShowSettings?
  }

  predicate TouchesGetting(e: Event) {
    e.Refresh? || e.Validating? || e.Done?
  }

  predicate TouchesValidating(e: Event) {
    e.Validating? || e.Done?
  }

  /** The last event of `es` that `touches` selects, if there is one. */
  function LastTouching(es: seq<Event>, touches: Event -> bool): (r: Option<Event>)
    ensures r.Some? ==> r.value in es && touches(r.value)
    ensures r.None? ==> forall i :: 0 <= i < |es| ==> !touches(es[i])
    decreases |es|
  {
    if es == [] then None
    else if touches(es[|es| - 1]) then Some(es[|es| - 1])
    else LastTouching(es[..|es| - 1], touches)
  }

  /** A flag's value after the events: set by its last touching event when that event is one
      that `sets` it, cleared by any other touching event, and `start` when nothing touched it. */
  function Decided(start: bool, last: Option<Event>, sets: Event -> bool): bool {
    match last
    case None => start
    case Some(e) => sets(e)
  }

  predicate SetsStreaming(e: Event) {
    e.ShowPlayer?
  }

  predicate SetsGetting(e: Event) {
    e.Refresh?
  }

  predicate SetsValidating(e: Event) {
    e.Validating?
  }

  /** Each flag is decided by the last event that touches it alone: `streaming` by the last
      show_player/show_settings, `getting` by the last refresh/validating/done, `validating`
      by the last validating/done; it keeps its old value when no such event occurred. */
  lemma {:induction false} RunByLastEvent(f: Flags, es: seq<Event>)
    ensures Run(f, es).streaming == Decided(f.streaming, LastTouching(es, TouchesStreaming), SetsStreaming)
    ensures Run(f, es).getting == Decided(f.getting, LastTouching(es, TouchesGetting), SetsGetting)
    ensures Run(f, es).validating == Decided(f.validating, LastTouching(es, TouchesValidating), SetsValidating)
    decreases |es|
  {
    if es != [] {
      RunByLastEvent(f, es[..|es| - 1]);
    }
  }

  /** The derived predicates after any events: `refreshing` holds exactly when the last
      refresh/validating/done was a refresh or the last validating/done was a validating (or, for
      a flag no such event touched, when it started set); `idle` holds exactly when moreover the
      last show_player/show_settings was not a show_player. */
  lemma IdleByLastEvent(f: Flags, es: seq<Event>)
    ensures var refreshing :=
        || Decided(f.getting, LastTouching(es, TouchesGetting), SetsGetting)
        || Decided(f.validating, LastTouching(es, TouchesValidating), SetsValidating);
      && (Run(f, es).Refreshing() <==> refreshing)
      && (Run(f, es).Idle() <==>
            !Decided(f.streaming, LastTouching(es, TouchesStreaming), SetsStreaming) && !refreshing)
  {
    RunByLastEvent(f, es);
  }

  lemma {:induction false} RunAppend(f: Flags, a: seq<Event>, b: seq<Event>)
    ensures Run(f, a + b) == Run(Run(f, a), b)
    decreases |b|
  {
    if b == [] {
      assert a + b == a;
    } else {
      assert (a + b)[..|a + b| - 1] == a + b[..|b| - 1];
      RunAppend(f, a, b[..|b| - 1]);
    }
  }

  /** After refresh, validating, done (from any flags) both refresh flags are false and
      `streaming` is untouched. */
  lemma RefreshValidateDone(f: Flags)
    ensures Run(f, [Refresh, Validating, Done]) == f.(getting := false).(validating := false)
    ensures !Run(f, [Refresh, Validating, Done]).Refreshing()
  {
    assert [Refresh, Validating, Done][..2] == [Refresh, Validating];
    assert [Refresh, Validating][..1] == [Refresh];
    assert [Refresh][..0] == [];
  }

  /** The `STATE` object, whose attributes the connected lambdas assign. */
  class State {
    var streaming: bool
    var getting: bool
    var validating: bool

    constructor ()
      ensures Snapshot() == Initial
    {
      streaming, getting, validating := false, false, false;
    }

    function Snapshot(): Flags
      reads this
    {
      Flags(streaming, getting, validating)
    }

    /** Runs the handlers connected to the signal `e`, in their connection order. */
    method Handle(e: Event)
      modifies this
      ensures Snapshot() == Apply(old(Snapshot()), e)
    {
      match e {
        case Refresh =>
          getting := true;
        case Validating =>
          getting := false;
          validating := true;
        case Done =>
          getting := false;
          validating := false;
        case ShowPlayer =>
          streaming := true;
        case ShowSettings =>
          streaming := false;
        case Getting =>
        case Progress(_, _) =>
      }
    }
  }
}
