/**
 * The crowd analytics loop: count the person boxes of a frame and split the
 * count into three placeholder zone values.
 */
module Detect {

  import opened YoloClasses

  /** The class ids of all boxes of all results, in the order the loops visit them. */
  function Flatten(results: seq<seq<real>>): (ids: seq<real>)
    decreases |results|
  {
    if results == [] then [] else Flatten(results[..|results| - 1]) + results[|results| - 1]
  }

  lemma FlattenSnoc(results: seq<seq<real>>, boxes: seq<real>)
    ensures Flatten(results + [boxes]) == Flatten(results) + boxes
  {
    assert (results + [boxes])[..|results|] == results;
  }

  /** Taking one more result into the prefix adds that result's persons. */
  lemma PersonCountPrefix(results: seq<seq<real>>, i: nat)
    requires i < |results|
    ensures PersonCount(Flatten(results[..i + 1])) == PersonCount(Flatten(results[..i])) + PersonCount(results[i])
  {
    assert results[..i + 1] == results[..i] + [results[i]];
    FlattenSnoc(results[..i], results[i]);
    PersonCountAppend(Flatten(results[..i]), results[i]);
  }

  /** Total number of boxes over all results. */
  function BoxCount(results: seq<seq<real>>): nat
    decreases |results|
  {
    if results == [] then 0 else BoxCount(results[..|results| - 1]) + |results[|results| - 1]|
  }

  lemma {:induction false} FlattenLength(results: seq<seq<real>>)
    ensures |Flatten(results)| == BoxCount(results)
    decreases |results|
  {
    if results != [] {
      FlattenLength(results[..|results| - 1]);
    }
  }

  /**
   * The nested loop over `results` and `r.boxes`: one per box whose class
   * truncates to 0.  Each result is given as the class ids `box.cls[0]` of
   * its boxes.
   */
  method CountPeople(results: seq<seq<real>>) returns (peopleCount: nat)
    ensures peopleCount == PersonCount(Flatten(results))
    ensures peopleCount <= BoxCount(results)
  {
    peopleCount := 0;
    var i := 0;
    while i < |results|
      invariant 0 <= i <= |results|
      invariant peopleCount == PersonCount(Flatten(results[..i]))
    {
      var boxes := results[i];
      ghost var done := Flatten(results[..i]);
      var j := 0;
      while j < |boxes|
        invariant 0 <= j <= |boxes|
        invariant peopleCount == PersonCount(done) + PersonCount(boxes[..j])
      {
        if IsPerson(boxes[j]) {
          peopleCount := peopleCount + 1;
        }
        assert peopleCount == PersonCount(done) + PersonCount(boxes[..j + 1]) by {
          assert boxes[..j + 1] == boxes[..j] + [boxes[j]];
          PersonCountSnoc(boxes[..j], boxes[j]);
        }
        j := j + 1;
      }
      assert boxes[..j] == boxes;
      PersonCountPrefix(results, i);
      i := i + 1;
    }
    assert results[..|results|] == results;
    FlattenLength(results);
  }

  /** The three dummy zone values of one frame. */
  datatype ZoneSplit = ZoneSplit(zoneA: nat, zoneB: nat, zoneC: nat)

  /**
   * `zone_a = zone_b = n // 3` and `zone_c` takes the rest, so the split is
   * as even as possible and never loses a person.
   */
  function Split(peopleCount: nat): (z: ZoneSplit)
    ensures z.zoneA == z.zoneB
    ensures 3 * z.zoneA <= peopleCount < 3 * z.zoneA + 3
    ensures z.zoneA + z.zoneB + z.zoneC == peopleCount
    ensures z.zoneA <= z.zoneC <= z.zoneA + 2
  {
    var a := peopleCount / 3;
    ZoneSplit(a, a, peopleCount - a - a)
  }

  /** The row inserted for one frame, without its timestamp. */
  datatype FrameRow = FrameRow(source: string, peopleCount: nat, zones: ZoneSplit)

  method AnalyzeFrame(results: seq<seq<real>>) returns (row: FrameRow)
    ensures row.source == "Webcam"
    ensures row.peopleCount == PersonCount(Flatten(results))
    ensures row.zones == Split(row.peopleCount)
  {
    var n := CountPeople(results);
    row := FrameRow("Webcam", n, Split(n));
  }
}
