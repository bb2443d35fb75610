/**
 * The tracking demo's per-frame detection filter: keep the person rows of
 * the detector output, reshape them for the tracker, and collect their
 * scores.  Coordinates and scores are the detector's floating-point values.
 */
module Deep {

  import opened Seqs

  import opened YoloClasses
  import opened Tracking
  import opened Wrappers

  /** One row of `results.boxes.data`: x1, y1, x2, y2, score, class id. */
  datatype Row = Row(x1: real, y1: real, x2: real, y2: real, score: real, classId: real)

  /** `[[left, top, width, height], score, class_id]`, the tracker's input form. */
  datatype Detection = Detection(left: real, top: real, width: real, height: real, score: real, classId: real)

  function ToDetection(r: Row): (d: Detection)
    ensures d.left == r.x1 && d.top == r.y1
    ensures d.left + d.width == r.x2 && d.top + d.height == r.y2
    ensures d.score == r.score && d.classId == r.classId
  {
    Detection(r.x1, r.y1, r.x2 - r.x1, r.y2 - r.y1, r.score, r.classId)
  }

  function ClassIds(rows: seq<Row>): (ids: seq<real>)
    ensures |ids| == |rows| && forall i :: 0 <= i < |rows| ==> ids[i] == rows[i].classId
    decreases |rows|
  {
    if rows == [] then [] else ClassIds(rows[..|rows| - 1]) + [rows[|rows| - 1].classId]
  }

  /** The detections the filter keeps: person rows, converted, in input order. */
  function Kept(rows: seq<Row>): (ds: seq<Detection>)
    ensures |ds| <= |rows|
    decreases |rows|
  {
    if rows == [] then []
    else
      Kept(rows[..|rows| - 1]) + KeepRow(rows[|rows| - 1])
  }

  /** Every kept detection comes from a person row, and every person row is kept. */
  lemma {:induction false} KeptMembers(rows: seq<Row>)
    ensures forall d :: d in Kept(rows) ==> exists r :: r in rows && IsPerson(r.classId) && d == ToDetection(r)
    ensures forall r :: r in rows && IsPerson(r.classId) ==> ToDetection(r) in Kept(rows)
    decreases |rows|
  {
    if rows != [] {
      var init, last := rows[..|rows| - 1], rows[|rows| - 1];
      KeptMembers(init);
      assert rows == init + [last];
      forall d | d in Kept(rows)
        ensures exists r :: r in rows && IsPerson(r.classId) && d == ToDetection(r)
      {
        if d in Kept(init) {
          var r :| r in init && IsPerson(r.classId) && d == ToDetection(r);
          assert r in rows;
        } else {
          assert d in KeepRow(last);
          assert last in rows;
        }
      }
      forall r | r in rows && IsPerson(r.classId)
        ensures ToDetection(r) in Kept(rows)
      {
        if r !in init {
          assert r == last;
        }
      }
    }
  }

  /** What one row contributes: its detection if it is a person row, else nothing. */
  function KeepRow(r: Row): (ds: seq<Detection>)
    ensures ds == [] || ds == [ToDetection(r)]
    ensures ds != [] <==> IsPerson(r.classId)
  {
    if IsPerson(r.classId) then [ToDetection(r)] else []
  }

  /** One detection per person row. */
  lemma {:induction false} KeptLength(rows: seq<Row>)
    ensures |Kept(rows)| == PersonCount(ClassIds(rows))
    decreases |rows|
  {
    if rows != [] {
      var init, last := rows[..|rows| - 1], rows[|rows| - 1];
      KeptLength(init);
      var ids := ClassIds(init);
      assert (ids + [last.classId])[..|ids|] == ids;
      assert PersonCount(ClassIds(rows)) == PersonCount(ids) + |KeepRow(last)|;
    }
  }

  /** The filter keeps the input order: it commutes with concatenation. */
  lemma {:induction false} KeptAppend(a: seq<Row>, b: seq<Row>)
    ensures Kept(a + b) == Kept(a) + Kept(b)
    decreases |b|
  {
    if b == [] {
      assert a + b == a;
    } else {
      var b', x := b[..|b| - 1], b[|b| - 1];
      KeptAppend(a, b');
      SplitLast(a, b);
      KeptSnoc(a + b', x);
      KeptSnoc(b', x);
      RegroupTail(Kept(a + b), Kept(a + b'), Kept(a), Kept(b'), Kept(b), KeepRow(x));
    }
  }

  lemma KeptSnoc(rows: seq<Row>, r: Row)
    ensures Kept(rows + [r]) == Kept(rows) + KeepRow(r)
  {
    assert (rows + [r])[..|rows|] == rows;
  }

  /** The scores of a list of detections, position by position. */
  function Scores(ds: seq<Detection>): (s: seq<real>)
    ensures |s| == |ds| && forall i :: 0 <= i < |ds| ==> s[i] == ds[i].score
  {
    seq(|ds|, i requires 0 <= i < |ds| => ds[i].score)
  }

  /** The loop that fills `detections` and `confidences` side by side. */
  method FilterDetections(rows: seq<Row>) returns (detections: seq<Detection>, confidences: seq<real>)
    ensures detections == Kept(rows)
    ensures |confidences| == |detections|
    ensures forall i :: 0 <= i < |detections| ==> confidences[i] == detections[i].score
  {
    detections, confidences := [], [];
    var i := 0;
    while i < |rows|
      invariant 0 <= i <= |rows|
      invariant detections == Kept(rows[..i])
      invariant |confidences| == |detections|
      invariant forall k :: 0 <= k < |detections| ==> confidences[k] == detections[k].score
    {
      var r := rows[i];
      if IsPerson(r.classId) {
        detections := detections + [ToDetection(r)];
        confidences := confidences + [r.score];
      }
      assert detections == Kept(rows[..i + 1]) by {
        assert rows[..i + 1] == rows[..i] + [r];
        KeptSnoc(rows[..i], r);
      }
      i := i + 1;
    }
    assert rows[..|rows|] == rows;
  }

  /** `len([t for t in tracks if t.is_confirmed()])`. */
  function ActiveTracks(tracks: seq<Track>): (n: nat)
    ensures n <= |tracks|
    ensures n == |tracks| <==> forall i :: 0 <= i < |tracks| ==> tracks[i].confirmed
  {
    NoneUnconfirmedIff(tracks);
    |Confirmed(tracks)|
  }

  lemma {:induction false} NoneUnconfirmedIff(tracks: seq<Track>)
    ensures |Confirmed(tracks)| == |tracks| <==> forall i :: 0 <= i < |tracks| ==> tracks[i].confirmed
    decreases |tracks|
  {
    if tracks != [] {
      var init := tracks[..|tracks| - 1];
      NoneUnconfirmedIff(init);
      assert forall i :: 0 <= i < |init| ==> init[i] == tracks[i];
    }
  }

  /**
   * What one frame shows: the on-screen "Total Count", and the number of
   * confirmed tracks, which the script computes only when some score was
   * collected (`if confidences:`) and otherwise leaves unset.
   */
  method ProcessFrame(rows: seq<Row>, tracks: seq<Track>)
    returns (detections: seq<Detection>, confidences: seq<real>, totalCount: nat, activeTracks: Option<nat>)
    ensures detections == Kept(rows) && confidences == Scores(detections)
    ensures totalCount == |detections| == PersonCount(ClassIds(rows))
    ensures totalCount <= |rows|
    ensures activeTracks.Some? <==> confidences != []
    ensures activeTracks.Some? ==> activeTracks.value == |Confirmed(tracks)|
  {
    detections, confidences := FilterDetections(rows);
    totalCount := |detections|;
    KeptLength(rows);
    if confidences != [] {
      activeTracks := Some(ActiveTracks(tracks));
    } else {
      activeTracks := None;
    }
  }
}
