/** The end of one replication: the counters of all stations are summed
    and the system-wide means are derived from the totals. */
module Replication {
  import opened Stats
  import opened Stations

  const TERMINATE_TIME: int := 10000
  /** The part of the run whose counters are kept. */
  const STEADY_STATE_TIME: int := TERMINATE_TIME - TRANSIENT_TIME

  /** The counters of each station, in order. */
  function Snapshots(stations: seq<Station>): (cs: seq<Counters>)
    reads stations
    ensures |cs| == |stations|
    ensures forall i :: 0 <= i < |stations| ==> cs[i] == stations[i].Snapshot()
    decreases |stations|
  {
    if stations == [] then []
    else Snapshots(stations[..|stations| - 1]) + [stations[|stations| - 1].Snapshot()]
  }

  /** The per-metric totals over all stations, accumulated station by station. */
  method Totals(stations: seq<Station>) returns (total: Counters)
    ensures total == Sum(Snapshots(stations))
  {
    total := Zero;
    var i := 0;
    while i < |stations|
      invariant 0 <= i <= |stations|
      invariant total == Sum(Snapshots(stations)[..i])
    {
      var station := stations[i];
      total := Counters(total.nt + station.nt, total.st + station.st,
                        total.retries + station.numRetries,
                        total.initialTransmits + station.numInitialTransmits,
                        total.busyTime + station.busyTime);
      assert Snapshots(stations)[..i + 1][..i] == Snapshots(stations)[..i];
      i := i + 1;
    }
    assert Snapshots(stations)[..i] == Snapshots(stations);
  }

  /** The metric lists of all replications so far, one entry per replication. */
  class Results {
    var meanTransmitTimes: seq<real>
    var meanNumRetries: seq<real>
    var channelUtilizations: seq<real>

    constructor ()
      ensures meanTransmitTimes == [] && meanNumRetries == [] && channelUtilizations == []
    {
      meanTransmitTimes, meanNumRetries, channelUtilizations := [], [], [];
    }
  }

  /** The system-wide report of one replication: the mean transmit time is
      zero when no message succeeded; the mean retries are divided without a
      guard; the utilization is the successful busy time over the steady-state
      time. Each metric is appended to its list. */
  method ReportSingleReplication(results: Results, stations: seq<Station>)
    returns (meanT: real, meanR: real, meanU: real)
    requires Sum(Snapshots(stations)).initialTransmits > 0
    modifies results
    ensures var total := Sum(Snapshots(stations));
      && meanT == RatioOr(0.0, total.st, total.nt)
      && meanR == Quotient(total.retries, total.initialTransmits)
      && meanU == Quotient(total.busyTime, STEADY_STATE_TIME)
    ensures results.meanTransmitTimes == old(results.meanTransmitTimes) + [meanT]
    ensures results.meanNumRetries == old(results.meanNumRetries) + [meanR]
    ensures results.channelUtilizations == old(results.channelUtilizations) + [meanU]
  {
    var total := Totals(stations);
    if total.nt > 0 {
      meanT := Quotient(total.st, total.nt);
    } else {
      meanT := 0.0;
    }
    results.meanTransmitTimes := results.meanTransmitTimes + [meanT];
    meanR := Quotient(total.retries, total.initialTransmits);
    results.meanNumRetries := results.meanNumRetries + [meanR];
    meanU := Quotient(total.busyTime, STEADY_STATE_TIME);
    results.channelUtilizations := results.channelUtilizations + [meanU];
  }

  /** When every station's counters are consistent, so are the totals: the
      system never counts more successes than initial transmissions, its
      mean transmit time is zero or at least one time unit, and its mean
      retries, where defined, are non-negative. */
  lemma ReplicationMeans(stations: seq<Station>)
    requires forall i :: 0 <= i < |stations| ==> stations[i].Valid()
    ensures var total := Sum(Snapshots(stations));
      && total.nt <= total.initialTransmits
      && (total.nt > 0 ==> RatioOr(0.0, total.st, total.nt) >= 1.0)
      && (total.initialTransmits > 0 ==> Quotient(total.retries, total.initialTransmits) >= 0.0)
  {
    var cs := Snapshots(stations);
    SumConsistent(cs);
    MeansOfConsistent(Sum(cs));
  }
}
