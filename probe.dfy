/**
  The health probe of src/birbwatch/gui.py (`ValidatorRunnable.run`): ask the resolver for the
  stream's variants, take the first label of the preference list that the resolver offers, and
  ask `is_healthy` about that variant. The resolver and `is_healthy` are external oracles.
 */
module Probe {

  import opened Wrappers

  /** An opaque handle to one resolved stream variant. */
  datatype Handle = Handle(id: nat)

  /** The result of `get_streamlink_streams(url)`: `None` when the resolver raised. */
  type Resolved = Option<map<string, Handle>>

  /** What the probe emits through its `result` signal. */
  datatype Verdict = Verdict(healthy: bool, quality: Option<string>)

  /** The first label of `prefs` that is in `available`. */
  function FirstPreferred(prefs: seq<string>, available: set<string>): (r: Option<string>)
    ensures r.Some? ==> r.value in prefs && r.value in available
    decreases |prefs|
  {
    if prefs == [] then None
    else if prefs[0] in available then Some(prefs[0])
    else FirstPreferred(prefs[1..], available)
  }

  /** The selection is the first offered label in preference order, and there is none exactly
      when no preferred label is offered. */
  lemma {:induction false} FirstPreferredIsFirst(prefs: seq<string>, available: set<string>)
    ensures FirstPreferred(prefs, available).None? <==>
      forall i :: 0 <= i < |prefs| ==> prefs[i] !in available
    ensures FirstPreferred(prefs, available).Some? ==>
      exists i :: 0 <= i < |prefs| && prefs[i] == FirstPreferred(prefs, available).value
        && prefs[i] in available && forall j :: 0 <= j < i ==> prefs[j] !in available
    decreases |prefs|
  {
    if prefs != [] && prefs[0] !in available {
      FirstPreferredIsFirst(prefs[1..], available);
      var r := FirstPreferred(prefs, available);
      if r.Some? {
        var i :| 0 <= i < |prefs[1..]| && prefs[1..][i] == r.value && prefs[1..][i] in available
          && forall j :: 0 <= j < i ==> prefs[1..][j] !in available;
        assert prefs[i + 1] == r.value;
        assert forall j :: 0 <= j < i + 1 ==> prefs[j] !in available by {
          forall j | 0 <= j < i + 1 ensures prefs[j] !in available {
            if j > 0 { assert prefs[j] == prefs[1..][j - 1]; }
          }
        }
      } else {
        forall i | 0 <= i < |prefs| ensures prefs[i] !in available {
          if i > 0 { assert prefs[i] == prefs[1..][i - 1]; }
        }
      }
    }
  }

  /** The preference loop with its `break`: returns the selected label and its variant. */
  method SelectQuality(prefs: seq<string>, streams: map<string, Handle>)
    returns (quality: Option<string>, stream: Option<Handle>)
    ensures quality == FirstPreferred(prefs, streams.Keys)
    ensures quality.Some? ==> quality.value in streams && stream == Some(streams[quality.value])
    ensures quality.None? ==> stream.None?
  {
    quality, stream := None, None;
    var i := 0;
    while i < |prefs|
      invariant 0 <= i <= |prefs|
      invariant FirstPreferred(prefs[i..], streams.Keys) == FirstPreferred(prefs, streams.Keys)
      invariant quality.None? && stream.None?
    {
      assert prefs[i..][1..] == prefs[i + 1..];
      if prefs[i] in streams {
        quality, stream := Some(prefs[i]), Some(streams[prefs[i]]);
        break;
      }
      i := i + 1;
    }
  }

  /** The verdict the probe reports: a resolver failure, or no preferred label offered, is
      `healthy=False, quality=None`; otherwise the selected label with `is_healthy`'s answer. */
  function ProbeVerdict(resolved: Resolved, prefs: seq<string>, isHealthy: Handle -> bool): Verdict {
    match resolved
    case None => Verdict(false, None)
    case Some(streams) =>
      match FirstPreferred(prefs, streams.Keys)
      case None => Verdict(false, None)
      case Some(q) => Verdict(isHealthy(streams[q]), Some(q))
  }

  /** `ValidatorRunnable.run`: every failure is caught and reported, never raised. */
  method Run(resolved: Resolved, prefs: seq<string>, isHealthy: Handle -> bool)
    returns (healthy: bool, quality: Option<string>)
    ensures Verdict(healthy, quality) == ProbeVerdict(resolved, prefs, isHealthy)
  {
    if resolved.None? {
      return false, None;
    }
    var streams := resolved.value;
    var selected;
    quality, selected := SelectQuality(prefs, streams);
    if selected.None? {
      return false, None;
    }
    healthy := isHealthy(selected.value);
  }

  /** The verdict is healthy exactly when the resolver answered, some preferred label is
      offered, and `is_healthy` accepts the first such label's variant; a rejected variant is
      still reported with its label. */
  lemma VerdictCases(resolved: Resolved, prefs: seq<string>, isHealthy: Handle -> bool)
    ensures var v := ProbeVerdict(resolved, prefs, isHealthy);
      && (v.quality.None? ==> !v.healthy)
      && (v.quality.None? <==>
            resolved.None? || forall i :: 0 <= i < |prefs| ==> prefs[i] !in resolved.value)
      && (v.quality.Some? ==>
            && resolved.Some?
            && v.quality.value in resolved.value
            && v.quality.value in prefs
            && v.healthy == isHealthy(resolved.value[v.quality.value]))
  {
    if resolved.Some? {
      FirstPreferredIsFirst(prefs, resolved.value.Keys);
    }
  }

  /** A resolver offering 240p and 480p, with preferences 360p, 480p, worst, selects 480p. */
  lemma SelectsFirstOffered(h240: Handle, h480: Handle, isHealthy: Handle -> bool)
    ensures ProbeVerdict(Some(map["240p" := h240, "480p" := h480]), ["360p", "480p", "worst"], isHealthy)
      == Verdict(isHealthy(h480), Some("480p"))
  {
    var m := map["240p" := h240, "480p" := h480];
    assert "360p" !in m && "480p" in m;
  }
}
