/**
  `StreamServer` of birbwatch/server.py: the handle of the external `streamlink` proxy process.
  Spawning and terminating the process are recorded in a ghost log; the process object that
  `subprocess.Popen` returns is a freshly allocated `Process` holding its command line.
 */
module Server {

  import opened Wrappers
  import Decimal

  /** A `subprocess.Popen` object: one spawned process and the command line it was given. */
  class Process {
    const argv: seq<string>

    constructor (argv: seq<string>)
      ensures this.argv == argv
    {
      this.argv := argv;
    }
  }

  /** What this server did to external processes: `Popen` spawned one, or `terminate` was sent
      to one. `terminate` sends SIGTERM and returns without waiting (an `OSError` for a process
      that already exited is swallowed by `stop`), so a terminated process may still be
      running for a while. */
  datatype ProcEvent = Spawn(p: Process) | Terminate(p: Process)

  /** The live processes after the events `log`: those spawned and not yet sent `terminate`. */
  ghost function Live(log: seq<ProcEvent>): set<Process>
    decreases |log|
  {
    if log == [] then {}
    else match log[|log| - 1]
      case Spawn(p) => Live(log[..|log| - 1]) + {p}
      case Terminate(p) => Live(log[..|log| - 1]) - {p}
  }

  /** Every spawn happened when every earlier process had been sent `terminate`: never two
      live children. */
  ghost predicate SpawnsOnlyWhenIdle(log: seq<ProcEvent>) {
    forall i :: 0 <= i < |log| && log[i].Spawn? ==> Live(log[..i]) == {}
  }

  ghost function HeldSet(proc: Option<Process>): set<Process> {
    if proc.Some? then {proc.value} else {}
  }

  /** The events `stop` adds: a termination of the held process, if one is held. */
  function StopEvents(proc: Option<Process>): seq<ProcEvent> {
    if proc.Some? then [Terminate(proc.value)] else []
  }

  const PortOption := "--player-external-http-port="
  const LocPrefix := "http://127.0.0.1:"

  /** The arguments handed to `Popen` by `start`. */
  function Command(port: int, quality: string, url: string): seq<string> {
    ["python", "-m", "streamlink", "--loglevel", "debug", "--player-external-http",
     PortOption + Decimal.IntToDecimal(port), url, quality]
  }

  /** The `loc` property: the loopback address the proxy serves on. */
  function Loc(port: int): string {
    LocPrefix + Decimal.IntToDecimal(port)
  }

  /** The command runs `python -m streamlink` with debug logging and the external HTTP player,
      the port option carries exactly `port`, and the stream url and quality string are passed
      unchanged as the last two arguments. */
  lemma CommandLayout(port: int, quality: string, url: string)
    ensures var argv := Command(port, quality, url);
      && |argv| == 9
      && argv[..6] == ["python", "-m", "streamlink", "--loglevel", "debug", "--player-external-http"]
      && argv[6][..|PortOption|] == PortOption
      && Decimal.ParseInt(argv[6][|PortOption|..]) == port
      && argv[7] == url && argv[8] == quality
  {
    var argv := Command(port, quality, url);
    assert argv[6][|PortOption|..] == Decimal.IntToDecimal(port);
    Decimal.ParseIntRoundTrip(port);
  }

  /** `loc` is `http://127.0.0.1:` followed by the port, which can be read back from it, and it
      names the port the proxy process is told to listen on. */
  lemma LocNamesPort(port: int, quality: string, url: string)
    ensures Loc(port)[..|LocPrefix|] == LocPrefix
    ensures Decimal.ParseInt(Loc(port)[|LocPrefix|..]) == port
    ensures Loc(port)[|LocPrefix|..] == Command(port, quality, url)[6][|PortOption|..]
  {
    assert Loc(port)[|LocPrefix|..] == Decimal.IntToDecimal(port);
    Decimal.ParseIntRoundTrip(port);
  }

  lemma LiveAppendOne(log: seq<ProcEvent>, e: ProcEvent)
    ensures Live(log + [e]) == if e.Spawn? then Live(log) + {e.p} else Live(log) - {e.p}
  {
    assert (log + [e])[..|log|] == log;
  }

  /** Stopping leaves live exactly the processes that were live apart from the held one. */
  lemma LiveAfterStop(log: seq<ProcEvent>, proc: Option<Process>)
    ensures Live(log + StopEvents(proc)) == Live(log) - HeldSet(proc)
  {
    if proc.Some? {
      LiveAppendOne(log, Terminate(proc.value));
    } else {
      assert log + [] == log;
    }
  }

  /** Appending a termination keeps every spawn of the log made while nothing was live. */
  lemma {:induction false} TerminateKeepsSpawnsIdle(log: seq<ProcEvent>, p: Process)
    requires SpawnsOnlyWhenIdle(log)
    ensures SpawnsOnlyWhenIdle(log + [Terminate(p)])
  {
    var log' := log + [Terminate(p)];
    forall i | 0 <= i < |log'| && log'[i].Spawn? ensures Live(log'[..i]) == {} {
      assert log'[..i] == log[..i];
    }
  }

  /** A spawn made while nothing is live keeps the property. */
  lemma {:induction false} SpawnKeepsSpawnsIdle(log: seq<ProcEvent>, p: Process)
    requires SpawnsOnlyWhenIdle(log)
    requires Live(log) == {}
    ensures SpawnsOnlyWhenIdle(log + [Spawn(p)])
  {
    var log' := log + [Spawn(p)];
    forall i | 0 <= i < |log'| && log'[i].Spawn? ensures Live(log'[..i]) == {} {
      assert log'[..i] == log[..i];
    }
  }

  /** Stop then spawn, as `start` does: whatever was held is terminated first, the new process
      is the only live one, and it was spawned while nothing else was live. */
  lemma StartLeavesOneLive(log: seq<ProcEvent>, held: Option<Process>, p: Process)
    requires Live(log) == HeldSet(held)
    requires SpawnsOnlyWhenIdle(log)
    ensures Live(log + StopEvents(held) + [Spawn(p)]) == {p}
    ensures SpawnsOnlyWhenIdle(log + StopEvents(held) + [Spawn(p)])
  {
    var stopped := log + StopEvents(held);
    LiveAfterStop(log, held);
    LiveAppendOne(stopped, Spawn(p));
    if held.Some? {
      TerminateKeepsSpawnsIdle(log, held.value);
    } else {
      assert stopped == log;
    }
    SpawnKeepsSpawnsIdle(stopped, p);
  }

  class StreamServer {
    var port: int
    var quality: string
    var proc: Option<Process>
    /** Every process this server spawned or terminated, in order. */
    ghost var log: seq<ProcEvent>

    /** The held handle is the one live process, if any, and no process was ever spawned while
        another was live. */
    ghost predicate Valid()
      reads this
    {
      Live(log) == HeldSet(proc) && SpawnsOnlyWhenIdle(log)
    }

    constructor (port: int, quality: string)
      ensures Valid()
      ensures this.port == port && this.quality == quality
      ensures proc.None? && log == []
    {
      this.port := port;
      this.quality := quality;
      proc := None;
      log := [];
    }

    /** Whether a process handle is held; in a valid state, exactly when a spawned process has
        not yet been sent `terminate`. */
    function Running(): (r: bool)
      reads this
      ensures Valid() ==> (r <==> Live(log) != {})
    {
      proc.Some?
    }

    /** The `loc` property: the address names the configured port, which reads back from it. */
    function Location(): (r: string)
      reads this
      ensures |r| > |LocPrefix| && r[..|LocPrefix|] == LocPrefix
      ensures Decimal.ParseInt(r[|LocPrefix|..]) == port
    {
      LocNamesPort(port, quality, "");
      Loc(port)
    }

    /** Terminates the held process, if any; an `OSError` from `terminate` (the process has
        already exited) is swallowed, so the handle is always cleared. */
    method Stop()
      requires Valid()
      modifies this
      ensures Valid() && !Running()
      ensures port == old(port) && quality == old(quality)
      ensures log == old(log) + StopEvents(old(proc))
    {
      if Running() {
        log := log + [Terminate(proc.value)];
        TerminateKeepsSpawnsIdle(old(log), old(proc).value);
      }
      LiveAfterStop(old(log), old(proc));
      proc := None;
    }

    /** Stops a running proxy first, then spawns a new one for `url`. */
    method Start(url: string)
      requires Valid()
      modifies this
      ensures Valid() && Running()
      ensures port == old(port) && quality == old(quality)
      ensures fresh(proc.value) && proc.value.argv == Command(port, quality, url)
      ensures log == old(log) + StopEvents(old(proc)) + [Spawn(proc.value)]
      ensures Live(log) == {proc.value}
    {
      if Running() {
        Stop();
      }
      assert log == old(log) + StopEvents(old(proc));
      var p := new Process(Command(port, quality, url));
      StartLeavesOneLive(old(log), old(proc), p);
      proc := Some(p);
      log := log + [Spawn(p)];
    }
  }

  /** Two starts in a row leave exactly one live process: whatever was held is terminated, the
      first new process is terminated before the second is spawned. */
  method StartTwice(server: StreamServer, first: string, second: string)
    requires server.Valid()
    modifies server
    ensures server.Valid() && server.Running()
    ensures exists p: Process ::
      (server.log == old(server.log) + StopEvents(old(server.proc)) + [Spawn(p), Terminate(p), Spawn(server.proc.value)]
       && p.argv == Command(server.port, server.quality, first))
    ensures server.proc.value.argv == Command(server.port, server.quality, second)
    ensures Live(server.log) == {server.proc.value}
  {
    server.Start(first);
    var p := server.proc.value;
    server.Start(second);
  }
}
