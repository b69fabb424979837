/**
  The signals one validation cycle emits, as a function of the number of items `n` fixed at
  repopulation and the number of probe completions `m` delivered since. Both versions of the
  list widget (src/birbwatch/gui.py and birbwatch/gui.py) keep the counter `num_validated`
  this way, so the specification is shared.
 */
module ValidationCycle {

  import opened AppState

  /** What `validate_partial_callback` emits once the counter has become `k` out of `n`. */
  function CompletionSignals(k: int, n: int): seq<Event> {
    if k == n then [Progress(k, n), Done] else [Progress(k, n)]
  }

  /** Repopulation emits `validating` and then `(0, n)`; each completion adds its signals. */
  function CycleSignals(n: nat, m: nat): seq<Event>
    decreases m
  {
    if m == 0 then [Validating, Progress(0, n)] else CycleSignals(n, m - 1) + CompletionSignals(m, n)
  }

  /** The number of `done` signals in `s`. */
  function DoneCount(s: seq<Event>): nat
    decreases |s|
  {
    if s == [] then 0 else DoneCount(s[..|s| - 1]) + (if s[|s| - 1].Done? then 1 else 0)
  }

  /** The counter values carried by the progress signals of `s`, in order. */
  function ProgressValues(s: seq<Event>): seq<int>
    decreases |s|
  {
    if s == [] then []
    else ProgressValues(s[..|s| - 1]) + (if s[|s| - 1].Progress? then [s[|s| - 1].current] else [])
  }

  /** 0, 1, ..., m. */
  function UpTo(m: nat): (r: seq<int>)
    ensures |r| == m + 1 && forall i :: 0 <= i <= m ==> r[i] == i
  {
    seq(m + 1, i => i)
  }

  lemma {:induction false} DoneCountAppend(a: seq<Event>, b: seq<Event>)
    ensures DoneCount(a + b) == DoneCount(a) + DoneCount(b)
    decreases |b|
  {
    if b == [] {
      assert a + b == a;
    } else {
      assert (a + b)[..|a + b| - 1] == a + b[..|b| - 1];
      DoneCountAppend(a, b[..|b| - 1]);
    }
  }

  lemma {:induction false} ProgressValuesAppend(a: seq<Event>, b: seq<Event>)
    ensures ProgressValues(a + b) == ProgressValues(a) + ProgressValues(b)
    decreases |b|
  {
    if b == [] {
      assert a + b == a;
    } else {
      assert (a + b)[..|a + b| - 1] == a + b[..|b| - 1];
      ProgressValuesAppend(a, b[..|b| - 1]);
    }
  }

  /** Exactly one progress signal for every k in 0..m, in increasing order, each with total n. */
  lemma {:induction false} ProgressSequence(n: nat, m: nat)
    ensures ProgressValues(CycleSignals(n, m)) == UpTo(m)
    ensures forall i :: 0 <= i < |CycleSignals(n, m)| && CycleSignals(n, m)[i].Progress? ==>
      CycleSignals(n, m)[i].total == n
    decreases m
  {
    if m == 0 {
      var s := CycleSignals(n, 0);
      assert s[..1] == [Validating] && [Validating][..0] == [];
    } else {
      var c := CompletionSignals(m, n);
      ProgressSequence(n, m - 1);
      ProgressValuesAppend(CycleSignals(n, m - 1), c);
      if m == n {
        assert c[..1] == [Progress(m, n)] && [Progress(m, n)][..0] == [];
        assert ProgressValues(c) == ProgressValues([Progress(m, n)]) == [m];
      } else {
        assert c[..0] == [];
      }
    }
  }

  /** `done` is emitted once when some completion brings the counter to n, and never otherwise;
      in particular never when n is 0. */
  lemma {:induction false} DoneExactlyAtN(n: nat, m: nat)
    ensures DoneCount(CycleSignals(n, m)) == if 1 <= n <= m then 1 else 0
    decreases m
  {
    if m == 0 {
      var s := CycleSignals(n, 0);
      assert s[..1] == [Validating] && [Validating][..0] == [];
    } else {
      var c := CompletionSignals(m, n);
      DoneExactlyAtN(n, m - 1);
      DoneCountAppend(CycleSignals(n, m - 1), c);
      if m == n {
        assert c[..1] == [Progress(m, n)] && [Progress(m, n)][..0] == [];
        assert DoneCount(c) == DoneCount([Progress(m, n)]) + 1 == 1;
      } else {
        assert c[..0] == [];
      }
    }
  }

  lemma {:induction false} CycleSignalsLength(n: nat, m: nat)
    ensures |CycleSignals(n, m)| == m + 2 + (if 1 <= n <= m then 1 else 0)
    decreases m
  {
    if m > 0 {
      CycleSignalsLength(n, m - 1);
    }
  }

  /** Earlier signals are never rewritten: the signals after m completions extend those after k. */
  lemma {:induction false} CycleSignalsPrefix(n: nat, k: nat, m: nat)
    requires k <= m
    ensures CycleSignals(n, k) <= CycleSignals(n, m)
    decreases m
  {
    if k < m {
      CycleSignalsPrefix(n, k, m - 1);
    }
  }

  /** When `done` fires it comes right after `(n, n)`, which comes right after the n completions. */
  lemma DoneFollowsFinalProgress(n: nat, m: nat)
    requires 1 <= n <= m
    ensures |CycleSignals(n, m)| >= n + 3
    ensures CycleSignals(n, m)[n + 1] == Progress(n, n)
    ensures CycleSignals(n, m)[n + 2] == Done
  {
    CycleSignalsPrefix(n, n, m);
    CycleSignalsLength(n, n - 1);
    CycleSignalsLength(n, m);
  }

  /** One completion changes the flags only when it is the n-th: `done` clears both refresh flags. */
  lemma CompletionFlags(g: Flags, k: int, n: int)
    ensures Run(g, CompletionSignals(k, n)) == if k == n then g.(getting := false).(validating := false) else g
  {
    var c := CompletionSignals(k, n);
    if k == n {
      assert c[..1] == [Progress(k, n)] && [Progress(k, n)][..0] == [];
      assert Run(g, [Progress(k, n)]) == Apply(Run(g, []), Progress(k, n)) == g;
      assert Run(g, c) == Apply(Run(g, [Progress(k, n)]), Done);
    } else {
      assert c[..0] == [];
    }
  }

  /** The application flags after a cycle: `getting` is cleared by `validating`, `validating` is
      cleared only by `done`, so it stays set while fewer than n completions arrived and forever
      when there are no streams; `streaming` is untouched. */
  lemma {:induction false} FlagsAfterCycle(f: Flags, n: nat, m: nat)
    ensures !Run(f, CycleSignals(n, m)).getting
    ensures Run(f, CycleSignals(n, m)).validating <==> !(1 <= n <= m)
    ensures Run(f, CycleSignals(n, m)).streaming == f.streaming
    decreases m
  {
    if m == 0 {
      var s := CycleSignals(n, 0);
      assert s[..1] == [Validating] && [Validating][..0] == [];
    } else {
      FlagsAfterCycle(f, n, m - 1);
      RunAppend(f, CycleSignals(n, m - 1), CompletionSignals(m, n));
      CompletionFlags(Run(f, CycleSignals(n, m - 1)), m, n);
    }
  }

  /** With the player closed, the application is idle after a cycle exactly when some completion
      brought the counter to n; a cycle over no streams leaves it refreshing for good. */
  lemma IdleAfterCycle(f: Flags, n: nat, m: nat)
    ensures Run(f, [ShowSettings] + CycleSignals(n, m)).Idle() <==> 1 <= n <= m
    ensures Run(f, [ShowSettings] + CycleSignals(n, m)).Refreshing() <==> !(1 <= n <= m)
  {
    RunAppend(f, [ShowSettings], CycleSignals(n, m));
    assert [ShowSettings][..0] == [];
    FlagsAfterCycle(Run(f, [ShowSettings]), n, m);
  }
}
