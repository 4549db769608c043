/**
 * Backward date scans over storage: day 0 is today, day d is d days back.
 * A probe of one day finds the object, misses it, or raises.
 */
module DateScan {
  import opened Wrappers

  datatype Probe = Found | Missing | Failed

  /** The first day below `days` whose probe finds the object, when a
      failed probe only skips its own day (the `try` sits inside the loop). */
  function FirstFound(probe: nat -> Probe, days: nat): (r: Option<nat>)
    ensures r.Some? ==> r.value < days && probe(r.value) == Found
    ensures r.Some? ==> forall e :: 0 <= e < r.value ==> probe(e) != Found
    ensures r.None? ==> forall e :: 0 <= e < days ==> probe(e) != Found
  {
    if days == 0 then None
    else
      var earlier := FirstFound(probe, days - 1);
      if earlier.Some? then earlier
      else if probe(days - 1) == Found then Some(days - 1)
      else None
  }

  /** The scan when one `try` wraps the whole loop, from day `from` on:
      the first day whose probe does not miss ends the scan, with that day
      when the object was found and with nothing when the probe raised. */
  function ScanOrAbort(probe: nat -> Probe, from: nat, days: nat): (r: Option<nat>)
    ensures r.Some? ==> from <= r.value < days && probe(r.value) == Found
    ensures r.Some? ==> forall e :: from <= e < r.value ==> probe(e) == Missing
    ensures r.None? ==>
      || (forall e :: from <= e < days ==> probe(e) == Missing)
      || (exists f :: from <= f < days && probe(f) == Failed && forall e :: from <= e < f ==> probe(e) == Missing)
    decreases days - from
  {
    if from >= days then None
    else
      match probe(from)
      case Found => Some(from)
      case Failed => None
      case Missing => ScanOrAbort(probe, from + 1, days)
  }

  /** Without failures the two scans agree. */
  lemma {:induction false} ScansAgreeWithoutFailures(probe: nat -> Probe, from: nat, days: nat)
    requires forall e :: 0 <= e < days ==> probe(e) != Failed
    requires forall e :: 0 <= e < from ==> probe(e) == Missing
    ensures FirstFound(probe, days) == ScanOrAbort(probe, from, days)
    decreases days - from
  {
    if from < days && probe(from) == Missing {
      ScansAgreeWithoutFailures(probe, from + 1, days);
    }
  }

  /** A failure before the first find hides the find from the aborting scan,
      while the skipping scan still reports it. */
  lemma FailureHidesLaterFind(probe: nat -> Probe, days: nat, f: nat, d: nat)
    requires f < d < days && probe(f) == Failed && probe(d) == Found
    requires forall e :: 0 <= e < d ==> probe(e) != Found
    ensures ScanOrAbort(probe, 0, days) == None
    ensures FirstFound(probe, days) == Some(d)
  {
  }

  /** NewsAgentData/NewsDataProcessor/main.py `get_latest_news_data`: today,
      then one and two days back; a probe that raises moves on to the next day. */
  method LatestNewsData(probe: nat -> Probe) returns (day: Option<nat>)
    ensures day == FirstFound(probe, 3)
  {
    var daysBack := 0;
    while daysBack < 3
      invariant 0 <= daysBack <= 3
      invariant FirstFound(probe, daysBack) == None
    {
      if probe(daysBack) == Found {
        return Some(daysBack);
      }
      daysBack := daysBack + 1;
    }
    return None;
  }
}
