/**
 * The per-frame counting pipeline of the webcam people counter: the four
 * quadrant zones built from the frame size, the conversion of YOLO boxes to
 * the (x, y, w, h) form the tracker takes, and the tally of confirmed tracks
 * per zone and in total.
 */
module PeopleCounter {

  import opened Seqs

  import opened Wrappers
  import opened Tracking

  datatype ZoneName = A | B | C | D

  /** A named zone: the rectangle (zx1, zy1, zx2, zy2), closed on every side. */
  datatype Zone = Zone(name: ZoneName, x1: int, y1: int, x2: int, y2: int)

  /** A detection in the tracker's input form (x, y, w, h). */
  datatype Xywh = Xywh(x: int, y: int, w: int, h: int)

  /** The counts written for one frame (timestamp left to the store). */
  datatype Snapshot = Snapshot(total: nat, zoneCounts: map<ZoneName, nat>, source: string)

  /** Every zone name is a key of the map (the dict always holds A to D). */
  predicate HasAllZones(m: map<ZoneName, nat>) {
    forall n: ZoneName :: n in m
  }

  /** Python's `n // 2`; for a positive divisor Dafny's `/` rounds the same way. */
  function Half(n: int): (q: int)
    ensures 2 * q <= n < 2 * q + 2
  {
    n / 2
  }

  /** The quadrants A (top left), B (top right), C (bottom left), D (bottom right), in dict order. */
  function MakeZones(width: int, height: int): (zs: seq<Zone>)
    ensures |zs| == 4 && zs[0].name == A && zs[1].name == B && zs[2].name == C && zs[3].name == D
    ensures width >= 0 && height >= 0 ==>
              forall i :: 0 <= i < |zs| ==>
                0 <= zs[i].x1 <= zs[i].x2 <= width && 0 <= zs[i].y1 <= zs[i].y2 <= height
  {
    [ Zone(A, 0, 0, Half(width), Half(height)),
      Zone(B, Half(width), 0, width, Half(height)),
      Zone(C, 0, Half(height), Half(width), height),
      Zone(D, Half(width), Half(height), width, height) ]
  }

  predicate Contains(z: Zone, cx: int, cy: int) {
    z.x1 <= cx <= z.x2 && z.y1 <= cy <= z.y2
  }

  /** The integer centroid of a box; it lies inside any box that is not inverted. */
  function Centroid(b: Box): (c: (int, int))
    ensures b.x1 <= b.x2 ==> b.x1 <= c.0 <= b.x2
    ensures b.y1 <= b.y2 ==> b.y1 <= c.1 <= b.y2
  {
    (Half(b.x1 + b.x2), Half(b.y1 + b.y2))
  }

  // ---------------------------------------------------------------------
  // Zone resolution: the first zone, in list order, that contains the point.

  function FirstZone(zones: seq<Zone>, cx: int, cy: int): (r: Option<ZoneName>)
    ensures r.None? <==> forall i :: 0 <= i < |zones| ==> !Contains(zones[i], cx, cy)
    decreases |zones|
  {
    if zones == [] then None
    else if Contains(zones[0], cx, cy) then Some(zones[0].name)
    else FirstZone(zones[1..], cx, cy)
  }

  /** Zone i contains the point and no earlier zone does. */
  predicate IsFirstMatch(zones: seq<Zone>, cx: int, cy: int, i: int) {
    0 <= i < |zones| && Contains(zones[i], cx, cy) &&
    forall j :: 0 <= j < i ==> !Contains(zones[j], cx, cy)
  }

  /** FirstZone finds nothing exactly when no zone contains the point, and otherwise names the first match. */
  lemma {:induction false} FirstZoneSpec(zones: seq<Zone>, cx: int, cy: int)
    ensures FirstZone(zones, cx, cy).None? <==>
            forall i :: 0 <= i < |zones| ==> !Contains(zones[i], cx, cy)
    ensures FirstZone(zones, cx, cy).Some? ==>
            exists i :: IsFirstMatch(zones, cx, cy, i) && zones[i].name == FirstZone(zones, cx, cy).value
    decreases |zones|
  {
    if zones != [] && !Contains(zones[0], cx, cy) {
      FirstZoneSpec(zones[1..], cx, cy);
      if FirstZone(zones[1..], cx, cy).Some? {
        var i :| IsFirstMatch(zones[1..], cx, cy, i) && zones[1..][i].name == FirstZone(zones, cx, cy).value;
        assert IsFirstMatch(zones, cx, cy, i + 1);
      }
    } else if zones != [] {
      assert IsFirstMatch(zones, cx, cy, 0);
    }
  }

  /** The inner `for ... break` search of the counting loop. */
  method FindZone(zones: seq<Zone>, cx: int, cy: int) returns (found: Option<ZoneName>)
    ensures found == FirstZone(zones, cx, cy)
  {
    found := None;
    var i := 0;
    while i < |zones|
      invariant 0 <= i <= |zones|
      invariant FirstZone(zones, cx, cy) == FirstZone(zones[i..], cx, cy)
    {
      if Contains(zones[i], cx, cy) {
        found := Some(zones[i].name);
        break;
      }
      assert zones[i..][1..] == zones[i + 1..];
      i := i + 1;
    }
  }

  /**
   * With a frame of non-negative size, a point resolves to a quadrant exactly
   * when it lies in [0, width] x [0, height]; the shared edges go to the
   * earlier zone, so the middle column goes left (A or C) and the middle row
   * goes up (A or B).
   */
  lemma ZoneOfPoint(width: int, height: int, cx: int, cy: int)
    requires width >= 0 && height >= 0
    ensures FirstZone(MakeZones(width, height), cx, cy).Some? <==>
            0 <= cx <= width && 0 <= cy <= height
    ensures 0 <= cx <= width && 0 <= cy <= height ==>
            FirstZone(MakeZones(width, height), cx, cy) ==
              Some(if cx <= Half(width) then (if cy <= Half(height) then A else C)
                   else (if cy <= Half(height) then B else D))
  {
    var zs := MakeZones(width, height);
    var hw, hh := Half(width), Half(height);
    assert FirstZone(zs[3..], cx, cy) == if Contains(zs[3], cx, cy) then Some(D) else None by {
      assert zs[3..][1..] == [];
    }
    assert zs[2..][1..] == zs[3..];
    assert zs[1..][1..] == zs[2..];
    assert FirstZone(zs[2..], cx, cy) == if Contains(zs[2], cx, cy) then Some(C) else FirstZone(zs[3..], cx, cy);
    assert FirstZone(zs[1..], cx, cy) == if Contains(zs[1], cx, cy) then Some(B) else FirstZone(zs[2..], cx, cy);
  }

  // ---------------------------------------------------------------------
  // Box conversion: xyxy lists to [x, y, w, h], skipping malformed entries.

  function ToXywh(box: seq<int>): (d: Xywh)
    requires |box| == 4
    ensures d.x == box[0] && d.y == box[1]
    ensures d.x + d.w == box[2] && d.y + d.h == box[3]
  {
    Xywh(box[0], box[1], box[2] - box[0], box[3] - box[1])
  }

  /** The detections built from a list of boxes: the 4-element ones, converted, in order. */
  function Converted(boxes: seq<seq<int>>): (r: seq<Xywh>)
    ensures |r| <= |boxes|
    ensures forall d :: d in r ==> exists box :: box in boxes && |box| == 4 && d == ToXywh(box)
    ensures forall box :: box in boxes && |box| == 4 ==> ToXywh(box) in r
    decreases |boxes|
  {
    if boxes == [] then []
    else
      var last := boxes[|boxes| - 1];
      Converted(boxes[..|boxes| - 1]) + (if |last| == 4 then [ToXywh(last)] else [])
  }

  /** The conversion keeps the input order: it commutes with concatenation. */
  lemma {:induction false} ConvertedAppend(a: seq<seq<int>>, b: seq<seq<int>>)
    ensures Converted(a + b) == Converted(a) + Converted(b)
    decreases |b|
  {
    if b == [] {
      assert a + b == a;
    } else {
      var b', x := b[..|b| - 1], b[|b| - 1];
      ConvertedAppend(a, b');
      SplitLast(a, b);
      ConvertedSnoc(a + b', x);
      ConvertedSnoc(b', x);
      RegroupTail(Converted(a + b), Converted(a + b'), Converted(a), Converted(b'), Converted(b), (if |x| == 4 then [ToXywh(x)] else []));
    }
  }

  lemma ConvertedSnoc(boxes: seq<seq<int>>, box: seq<int>)
    ensures Converted(boxes + [box]) == Converted(boxes) + (if |box| == 4 then [ToXywh(box)] else [])
  {
    assert (boxes + [box])[..|boxes|] == boxes;
  }

  method ConvertBoxes(boxes: seq<seq<int>>) returns (detections: seq<Xywh>)
    ensures detections == Converted(boxes)
  {
    detections := [];
    var i := 0;
    while i < |boxes|
      invariant 0 <= i <= |boxes|
      invariant detections == Converted(boxes[..i])
    {
      var box := boxes[i];
      assert boxes[..i + 1][..i] == boxes[..i];
      if |box| != 4 {
        i := i + 1;
        continue;
      }
      detections := detections + [ToXywh(box)];
      i := i + 1;
    }
    assert boxes[..|boxes|] == boxes;
  }

  // ---------------------------------------------------------------------
  // Per-tick counting.

  lemma ZoneNameCases(n: ZoneName)
    ensures n == A || n == B || n == C || n == D
  {
  }

  function EmptyCounts(): (m: map<ZoneName, nat>)
    ensures HasAllZones(m)
    ensures forall n: ZoneName :: m[n] == 0
  {
    var m := map[A := 0, B := 0, C := 0, D := 0];
    assert HasAllZones(m) by {
      forall n: ZoneName ensures n in m {
        ZoneNameCases(n);
      }
    }
    m
  }

  function ZoneSum(m: map<ZoneName, nat>): nat
    requires HasAllZones(m)
  {
    m[A] + m[B] + m[C] + m[D]
  }

  /** Where a track is counted: nowhere if unconfirmed, else its centroid's first zone. */
  function ZoneOfTrack(t: Track, zones: seq<Zone>): (r: Option<ZoneName>)
    ensures !t.confirmed ==> r.None?
    ensures t.confirmed && r.None? ==>
              forall i :: 0 <= i < |zones| ==> !Contains(zones[i], Centroid(t.box).0, Centroid(t.box).1)
    ensures r.Some? ==>
              exists i :: IsFirstMatch(zones, Centroid(t.box).0, Centroid(t.box).1, i) && zones[i].name == r.value
  {
    if !t.confirmed then None
    else
      var c := Centroid(t.box);
      FirstZoneSpec(zones, c.0, c.1);
      FirstZone(zones, c.0, c.1)
  }

  /** The zone counts after processing the tracks in order, starting from all zeros. */
  function ZoneCounts(tracks: seq<Track>, zones: seq<Zone>): (counts: map<ZoneName, nat>)
    ensures HasAllZones(counts)
    decreases |tracks|
  {
    if tracks == [] then EmptyCounts()
    else
      Bump(ZoneCounts(tracks[..|tracks| - 1], zones), ZoneOfTrack(tracks[|tracks| - 1], zones))
  }

  /** `zone_counts[zone] += 1` for the matched zone, if any. */
  function Bump(counts: map<ZoneName, nat>, zone: Option<ZoneName>): (r: map<ZoneName, nat>)
    requires HasAllZones(counts)
    ensures HasAllZones(r)
  {
    match zone
    case None => counts
    case Some(n) => counts[n := counts[n] + 1]
  }

  lemma ZoneCountsSnoc(tracks: seq<Track>, t: Track, zones: seq<Zone>)
    ensures ZoneCounts(tracks + [t], zones) == Bump(ZoneCounts(tracks, zones), ZoneOfTrack(t, zones))
  {
  }

  /** The confirmed tracks whose centroid falls in no zone. */
  function Unzoned(tracks: seq<Track>, zones: seq<Zone>): (n: nat)
    decreases |tracks|
  {
    if tracks == [] then 0
    else
      var last := tracks[|tracks| - 1];
      Unzoned(tracks[..|tracks| - 1], zones) +
        (if last.confirmed && ZoneOfTrack(last, zones).None? then 1 else 0)
  }

  /** Each track moves at most one zone counter, by one; an out-of-zone or unconfirmed track moves none. */
  lemma CountStep(tracks: seq<Track>, t: Track, zones: seq<Zone>)
    ensures var before := ZoneCounts(tracks, zones);
            var after := ZoneCounts(tracks + [t], zones);
            (forall n :: Some(n) != ZoneOfTrack(t, zones) ==> after[n] == before[n]) &&
            (forall n :: Some(n) == ZoneOfTrack(t, zones) ==> after[n] == before[n] + 1) &&
            ZoneSum(after) == ZoneSum(before) + (if ZoneOfTrack(t, zones).Some? then 1 else 0)
  {
    assert (tracks + [t])[..|tracks|] == tracks;
    var before := ZoneCounts(tracks, zones);
    match ZoneOfTrack(t, zones)
    case None =>
    case Some(z) =>
      ZoneNameCases(z);
  }

  /** Every confirmed track is counted in exactly one zone or among the unzoned ones. */
  lemma {:induction false} ZoneSumPlusUnzoned(tracks: seq<Track>, zones: seq<Zone>)
    ensures ZoneSum(ZoneCounts(tracks, zones)) + Unzoned(tracks, zones) == |Confirmed(tracks)|
    decreases |tracks|
  {
    if tracks != [] {
      var init := tracks[..|tracks| - 1];
      var t := tracks[|tracks| - 1];
      ZoneSumPlusUnzoned(init, zones);
      assert init + [t] == tracks;
      CountStep(init, t, zones);
    }
  }

  /** The zone counts never add up to more than the total. */
  lemma ZoneSumAtMostTotal(tracks: seq<Track>, zones: seq<Zone>)
    ensures ZoneSum(ZoneCounts(tracks, zones)) <= |Confirmed(tracks)|
  {
    ZoneSumPlusUnzoned(tracks, zones);
  }

  predicate CentroidInFrame(t: Track, width: int, height: int) {
    var c := Centroid(t.box);
    0 <= c.0 <= width && 0 <= c.1 <= height
  }

  /** With the quadrant zones, tracks whose centroids lie in the frame are all counted in some zone. */
  lemma {:induction false} InFrameAllZoned(tracks: seq<Track>, width: int, height: int)
    requires width >= 0 && height >= 0
    requires forall i :: 0 <= i < |tracks| && tracks[i].confirmed ==> CentroidInFrame(tracks[i], width, height)
    ensures ZoneSum(ZoneCounts(tracks, MakeZones(width, height))) == |Confirmed(tracks)|
    ensures Unzoned(tracks, MakeZones(width, height)) == 0
    decreases |tracks|
  {
    if tracks != [] {
      var last := tracks[|tracks| - 1];
      InFrameAllZoned(tracks[..|tracks| - 1], width, height);
      ZoneOfPoint(width, height, Centroid(last.box).0, Centroid(last.box).1);
    }
    ZoneSumPlusUnzoned(tracks, MakeZones(width, height));
  }

  /** Unconfirmed tracks change no counter: counting all tracks equals counting the confirmed ones. */
  lemma {:induction false} UnconfirmedIgnored(tracks: seq<Track>, zones: seq<Zone>)
    ensures ZoneCounts(tracks, zones) == ZoneCounts(Confirmed(tracks), zones)
    decreases |tracks|
  {
    if tracks != [] {
      var init := tracks[..|tracks| - 1];
      var t := tracks[|tracks| - 1];
      UnconfirmedIgnored(init, zones);
      assert init + [t] == tracks;
      var ci := Confirmed(init);
      assert Confirmed(tracks) == ci + (if t.confirmed then [t] else []) by {
        ConfirmedSnoc(init, t);
      }
      assert ZoneCounts(tracks, zones) == Bump(ZoneCounts(init, zones), ZoneOfTrack(t, zones)) by {
        ZoneCountsSnoc(init, t, zones);
      }
      if t.confirmed {
        assert ZoneCounts(ci + [t], zones) == Bump(ZoneCounts(ci, zones), ZoneOfTrack(t, zones)) by {
          ZoneCountsSnoc(ci, t, zones);
        }
      } else {
        assert ZoneOfTrack(t, zones) == None;
        assert Confirmed(tracks) == ci;
      }
    }
  }

  /** The track loop of one tick: counters start at zero, `total` counts every confirmed track. */
  method CountTick(tracks: seq<Track>, zones: seq<Zone>) returns (counts: map<ZoneName, nat>, total: nat)
    ensures counts == ZoneCounts(tracks, zones)
    ensures total == |Confirmed(tracks)|
  {
    counts := EmptyCounts();
    total := 0;
    var i := 0;
    while i < |tracks|
      invariant 0 <= i <= |tracks|
      invariant counts == ZoneCounts(tracks[..i], zones)
      invariant total == |Confirmed(tracks[..i])|
    {
      var t := tracks[i];
      assert tracks[..i + 1] == tracks[..i] + [t];
      ghost var next := Bump(counts, ZoneOfTrack(t, zones));
      assert next == ZoneCounts(tracks[..i + 1], zones) by {
        ZoneCountsSnoc(tracks[..i], t, zones);
      }
      assert |Confirmed(tracks[..i + 1])| == total + (if t.confirmed then 1 else 0) by {
        ConfirmedSnoc(tracks[..i], t);
      }
      if !t.confirmed {
        i := i + 1;
        continue;
      }
      var c := Centroid(t.box);
      var zone := FindZone(zones, c.0, c.1);
      if zone.Some? {
        counts := counts[zone.value := counts[zone.value] + 1];
      }
      total := total + 1;
      i := i + 1;
    }
    assert tracks[..|tracks|] == tracks;
  }

  /**
   * One frame: convert the detector's boxes, then count the tracks the tracker
   * returned for them against the quadrants of a width x height frame.
   */
  method ProcessFrame(width: nat, height: nat, boxes: seq<seq<int>>, tracks: seq<Track>)
    returns (detections: seq<Xywh>, snapshot: Snapshot)
    ensures detections == Converted(boxes)
    ensures snapshot.total == |Confirmed(tracks)|
    ensures snapshot.zoneCounts == ZoneCounts(tracks, MakeZones(width, height))
    ensures snapshot.source == "Webcam"
  {
    detections := ConvertBoxes(boxes);
    var zones := MakeZones(width, height);
    var counts, total := CountTick(tracks, zones);
    snapshot := Snapshot(total, counts, "Webcam");
  }
}
