/**
 * YOLO reports class ids as floating-point numbers; both detection scripts
 * test them with Python's `int(...) == 0`, that is, after truncation toward
 * zero.  Class 0 is "person".
 */
module YoloClasses {

  import opened Seqs

  const PersonClass: int := 0

  /** Python's int() on a float: truncation toward zero. */
  function Truncate(r: real): (n: int)
    ensures r >= 0.0 ==> n as real <= r < n as real + 1.0
    ensures r < 0.0 ==> n as real - 1.0 < r <= n as real
  {
    if r >= 0.0 then r.Floor else -((-r).Floor)
  }

  /** The person test `int(class_id) == 0`: it accepts exactly the open interval (-1, 1). */
  predicate IsPerson(classId: real): (b: bool)
    ensures b <==> -1.0 < classId < 1.0
  {
    var n := Truncate(classId);
    assert classId >= 0.0 ==> n as real <= classId < n as real + 1.0;
    n == PersonClass
  }

  /** How many of the class ids denote a person. */
  function PersonCount(classIds: seq<real>): (n: nat)
    ensures n <= |classIds|
    ensures n == |classIds| <==> forall i :: 0 <= i < |classIds| ==> IsPerson(classIds[i])
    ensures n == 0 <==> forall i :: 0 <= i < |classIds| ==> !IsPerson(classIds[i])
    decreases |classIds|
  {
    if classIds == [] then 0
    else
      PersonCount(classIds[..|classIds| - 1]) + (if IsPerson(classIds[|classIds| - 1]) then 1 else 0)
  }

  lemma PersonCountSnoc(classIds: seq<real>, c: real)
    ensures PersonCount(classIds + [c]) == PersonCount(classIds) + (if IsPerson(c) then 1 else 0)
  {
    assert (classIds + [c])[..|classIds|] == classIds;
  }

  lemma {:induction false} PersonCountAppend(a: seq<real>, b: seq<real>)
    ensures PersonCount(a + b) == PersonCount(a) + PersonCount(b)
    decreases |b|
  {
    if b == [] {
      assert a + b == a;
    } else {
      var b', x := b[..|b| - 1], b[|b| - 1];
      PersonCountAppend(a, b');
      SplitLast(a, b);
      PersonCountSnoc(a + b', x);
      PersonCountSnoc(b', x);
    }
  }
}
