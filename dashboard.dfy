/**
 * The live dashboard's data side: the per-zone counts of the current tick, a
 * bounded history of per-tick records, the displayed total and the per-zone
 * alerts.  The random draw of each zone's count is an input here.
 */
module Dashboard {

  const Zones: seq<string> := ["Entrance Gate", "Corridor 1", "Lobby Area", "Exit Gate"]
  const ZoneLimit: int := 3
  /** The history keeps at most this many records. */
  const HistoryLength: nat := 15
  /** `random.randint(0, 4)` draws a count in [0, MaxDraw]. */
  const MaxDraw: int := 4

  /** One history entry: `{"Time": ..., "Total": ..., <zone>: <count>, ...}`. */
  datatype Record = Record(time: nat, total: int, zoneCounts: map<string, int>)

  /** One entry of the zone status list. */
  datatype Alert = Alert(zone: string, count: int, exceeded: bool)

  /** The sum of the counts; with no negative part, the total is at least each part. */
  function Sum(s: seq<int>): (total: int)
    ensures (forall i :: 0 <= i < |s| ==> 0 <= s[i]) ==>
              0 <= total && forall i :: 0 <= i < |s| ==> s[i] <= total
    decreases |s|
  {
    if s == [] then 0 else Sum(s[..|s| - 1]) + s[|s| - 1]
  }

  /** A sum of draws in [0, MaxDraw] lies in [0, MaxDraw * |s|]. */
  lemma {:induction false} SumBounds(s: seq<int>)
    requires forall i :: 0 <= i < |s| ==> 0 <= s[i] <= MaxDraw
    ensures 0 <= Sum(s) <= MaxDraw * |s|
    decreases |s|
  {
    if s != [] {
      SumBounds(s[..|s| - 1]);
    }
  }

  lemma ZonesDistinct()
    ensures forall i, j :: 0 <= i < j < |Zones| ==> Zones[i] != Zones[j]
  {
  }

  /** The keys of `{zone: 0 for zone in ZONES}`. */
  function ZoneKeys(): set<string> {
    set i | 0 <= i < |Zones| :: Zones[i]
  }

  predicate HasAllZones(m: map<string, int>) {
    forall i :: 0 <= i < |Zones| ==> Zones[i] in m
  }

  /** `[zone_counts[z] for z in ZONES]`: the counts in ZONES order. */
  function CountsInOrder(m: map<string, int>): (counts: seq<int>)
    requires HasAllZones(m)
    ensures |counts| == |Zones|
    ensures forall i :: 0 <= i < |Zones| ==> counts[i] == m[Zones[i]]
  {
    seq(|Zones|, i requires 0 <= i < |Zones| => m[Zones[i]])
  }

  /** Every zone holds a count that a draw could have produced. */
  predicate InDrawRange(m: map<string, int>)
    requires HasAllZones(m)
  {
    forall i :: 0 <= i < |Zones| ==> 0 <= m[Zones[i]] <= MaxDraw
  }

  /** The total of a map of zone counts, summed in ZONES order. */
  function ZoneTotal(m: map<string, int>): (total: int)
    requires HasAllZones(m)
    ensures InDrawRange(m) ==> 0 <= total <= MaxDraw * |Zones|
  {
    ZoneTotalBounds(m);
    Sum(CountsInOrder(m))
  }

  lemma ZoneTotalBounds(m: map<string, int>)
    requires HasAllZones(m)
    ensures InDrawRange(m) ==> 0 <= Sum(CountsInOrder(m)) <= MaxDraw * |Zones|
  {
    if InDrawRange(m) {
      SumBounds(CountsInOrder(m));
    }
  }

  predicate WellFormed(r: Record) {
    HasAllZones(r.zoneCounts) && InDrawRange(r.zoneCounts) &&
    r.total == ZoneTotal(r.zoneCounts) && r.time <= HistoryLength
  }

  /**
   * `history.append(record)` followed by `history.pop(0)` when the list has
   * grown past HistoryLength.
   */
  function BoundedAppend(history: seq<Record>, r: Record): (h: seq<Record>)
    ensures |h| > 0 && h[|h| - 1] == r
    ensures |h| == if |history| < HistoryLength then |history| + 1 else |history|
    ensures h == (history + [r])[|history| + 1 - |h|..]
  {
    var appended := history + [r];
    if |appended| > HistoryLength then appended[1..] else appended
  }

  /** While the history is not full nothing is dropped; once full, exactly the oldest record is. */
  lemma BoundedAppendKeeps(history: seq<Record>, r: Record)
    ensures |history| < HistoryLength ==> BoundedAppend(history, r) == history + [r]
    ensures |history| >= HistoryLength ==> BoundedAppend(history, r) == history[1..] + [r]
  {
  }

  /** A bounded history of well-formed records stays one after a well-formed append. */
  lemma BoundedAppendWellFormed(history: seq<Record>, r: Record)
    requires |history| <= HistoryLength
    requires forall i :: 0 <= i < |history| ==> WellFormed(history[i])
    requires WellFormed(r)
    ensures |BoundedAppend(history, r)| <= HistoryLength
    ensures forall i :: 0 <= i < |BoundedAppend(history, r)| ==> WellFormed(BoundedAppend(history, r)[i])
  {
    var h := BoundedAppend(history, r);
    forall i | 0 <= i < |h|
      ensures WellFormed(h[i])
    {
      if i < |h| - 1 {
        assert h[i] == history[|history| + 1 - |h| + i];
      }
    }
  }

  /** The zone status list: one alert per zone, in ZONES order. */
  method EvaluateAlerts(m: map<string, int>) returns (alerts: seq<Alert>)
    requires HasAllZones(m)
    ensures |alerts| == |Zones|
    ensures forall i :: 0 <= i < |Zones| ==>
              alerts[i].zone == Zones[i] && alerts[i].count == m[Zones[i]] &&
              (alerts[i].exceeded <==> m[Zones[i]] >= ZoneLimit)
  {
    alerts := [];
    for k := 0 to |Zones|
      invariant |alerts| == k
      invariant forall i :: 0 <= i < k ==>
                  alerts[i].zone == Zones[i] && alerts[i].count == m[Zones[i]] &&
                  (alerts[i].exceeded <==> m[Zones[i]] >= ZoneLimit)
    {
      var zone := Zones[k];
      var count := m[zone];
      if count >= ZoneLimit {
        alerts := alerts + [Alert(zone, count, true)];
      } else {
        alerts := alerts + [Alert(zone, count, false)];
      }
    }
  }

  /** The mock data source and its history, as the dashboard's globals. */
  class LiveData {
    var zoneCounts: map<string, int>
    var history: seq<Record>

    ghost predicate Valid()
      reads this
    {
      zoneCounts.Keys == ZoneKeys() &&
      HasAllZones(zoneCounts) && InDrawRange(zoneCounts) &&
      |history| <= HistoryLength &&
      forall i :: 0 <= i < |history| ==> WellFormed(history[i])
    }

    /** `zone_counts = {zone: 0 for zone in ZONES}` and `history = []`. */
    constructor ()
      ensures Valid()
      ensures zoneCounts.Keys == ZoneKeys()
      ensures forall i :: 0 <= i < |Zones| ==> zoneCounts[Zones[i]] == 0
      ensures history == []
    {
      zoneCounts := map i | 0 <= i < |Zones| :: Zones[i] := 0;
      history := [];
    }

    /**
     * `generate_live_counts`: store one draw per zone, then append a record of
     * the new counts and their total, timestamped with the history's length.
     */
    method GenerateLiveCounts(draws: seq<int>)
      requires Valid()
      requires |draws| == |Zones| && forall i :: 0 <= i < |draws| ==> 0 <= draws[i] <= MaxDraw
      modifies this
      ensures Valid()
      ensures zoneCounts.Keys == old(zoneCounts.Keys)
      ensures CountsInOrder(zoneCounts) == draws
      ensures history == BoundedAppend(old(history), Record(|old(history)|, ZoneTotal(zoneCounts), zoneCounts))
      ensures |old(history)| == HistoryLength ==> history[|history| - 1].time == HistoryLength
    {
      ZonesDistinct();
      ghost var keys := zoneCounts.Keys;
      for k := 0 to |Zones|
        invariant history == old(history)
        invariant zoneCounts.Keys == keys
        invariant HasAllZones(zoneCounts)
        invariant forall i :: 0 <= i < k ==> zoneCounts[Zones[i]] == draws[i]
      {
        zoneCounts := zoneCounts[Zones[k] := draws[k]];
      }
      assert CountsInOrder(zoneCounts) == draws;
      assert InDrawRange(zoneCounts);
      var total := Sum(CountsInOrder(zoneCounts));
      var record := Record(|history|, total, zoneCounts);
      assert WellFormed(record);
      BoundedAppendWellFormed(history, record);
      history := BoundedAppend(history, record);
    }

    /**
     * `update_dashboard`: one timer tick.  Returns the bar-chart counts, the
     * displayed total and the zone status list.
     */
    method UpdateDashboard(draws: seq<int>) returns (counts: seq<int>, total: int, alerts: seq<Alert>)
      requires Valid()
      requires |draws| == |Zones| && forall i :: 0 <= i < |draws| ==> 0 <= draws[i] <= MaxDraw
      modifies this
      ensures Valid()
      ensures zoneCounts.Keys == old(zoneCounts.Keys)
      ensures counts == draws && CountsInOrder(zoneCounts) == draws
      ensures total == Sum(counts)
      ensures history == BoundedAppend(old(history), Record(|old(history)|, total, zoneCounts))
      ensures total == history[|history| - 1].total && 0 <= total <= MaxDraw * |Zones|
      ensures |alerts| == |Zones|
      ensures forall i :: 0 <= i < |Zones| ==>
                alerts[i] == Alert(Zones[i], draws[i], draws[i] >= ZoneLimit)
    {
      GenerateLiveCounts(draws);
      counts := CountsInOrder(zoneCounts);
      total := Sum(counts);
      alerts := EvaluateAlerts(zoneCounts);
    }
  }
}
