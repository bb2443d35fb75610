/**
 * What the tracker hands back each frame.  Track association and the track
 * lifecycle live inside the DeepSORT library; the model only sees, for each
 * track, whether it is confirmed and its box in (left, top, right, bottom)
 * form, the result of `to_ltrb()`.
 */
module Tracking {

  import opened Seqs

  /** A box as (x1, y1, x2, y2): left, top, right, bottom. */
  datatype Box = Box(x1: int, y1: int, x2: int, y2: int)

  datatype Track = Track(confirmed: bool, box: Box)

  /** The confirmed tracks, in the order the tracker returned them. */
  function Confirmed(tracks: seq<Track>): (r: seq<Track>)
    ensures |r| <= |tracks|
    ensures forall t :: t in r <==> t in tracks && t.confirmed
    decreases |tracks|
  {
    if tracks == [] then []
    else
      var last := tracks[|tracks| - 1];
      Confirmed(tracks[..|tracks| - 1]) + (if last.confirmed then [last] else [])
  }

  /** Filtering commutes with concatenation: confirmed tracks keep their order. */
  lemma {:induction false} ConfirmedAppend(a: seq<Track>, b: seq<Track>)
    ensures Confirmed(a + b) == Confirmed(a) + Confirmed(b)
    decreases |b|
  {
    if b == [] {
      assert a + b == a;
    } else {
      var b', x := b[..|b| - 1], b[|b| - 1];
      ConfirmedAppend(a, b');
      SplitLast(a, b);
      ConfirmedSnoc(a + b', x);
      ConfirmedSnoc(b', x);
      RegroupTail(Confirmed(a + b), Confirmed(a + b'), Confirmed(a), Confirmed(b'), Confirmed(b), (if x.confirmed then [x] else []));
    }
  }

  lemma ConfirmedSnoc(tracks: seq<Track>, t: Track)
    ensures Confirmed(tracks + [t]) == Confirmed(tracks) + (if t.confirmed then [t] else [])
  {
    assert (tracks + [t])[..|tracks|] == tracks;
  }
}
