# People counting by zone: a verified model of the counting core

The repository is a set of scripts around a person detector (YOLO) and a
multi-object tracker (DeepSORT). This project models the arithmetic and
bookkeeping those scripts do around the two libraries, and proves its
properties in Dafny:

- **people_counter.py** (module `PeopleCounter`, file `people_counter.dfy`).
  For one webcam frame, the script builds four quadrant zones A–D from the
  frame size. It turns the detector's `xyxy` boxes into `[x, y, w, h]` and
  skips entries that do not have four numbers. It then counts the confirmed
  tracks. Each confirmed track's integer centroid goes to the first zone, in
  order A, B, C, D, whose closed rectangle contains it. `total_count` counts
  every confirmed track, whether or not a zone matched.
- **dashboard.py** (module `Dashboard`, file `dashboard.dfy`). The mock live
  dashboard draws a count per zone. It appends a record
  `{Time, Total, <zone counts>}` to a history that keeps at most 15 entries,
  shows the total, and gives each zone an OK or LIMIT EXCEEDED status against
  `ZONE_LIMIT = 3`. The global `zone_counts` and `history` are the fields of
  class `LiveData`.
- **detect.py** (module `Detect`, file `detect.dfy`). It
  counts the person boxes of a frame and splits the count into the three
  placeholder zone values `n // 3`, `n // 3` and the rest.
- **deep.py** (module `Deep`, file `deep.dfy`). It keeps the person rows of
  the detector output, reshapes each to `[[x1, y1, x2 - x1, y2 - y1], score,
  class_id]`, collects the scores in a parallel list, and counts the
  confirmed tracks.

Shared pieces:
- `Tracking` (`tracking.dfy`) is what the tracker returns: a confirmed flag
  and a `to_ltrb()` box per track.
- `YoloClasses` (`yolo_classes.dfy`) models Python's `int()` on the
  detector's float class ids. That is truncation toward zero, so the person
  test `int(c) == 0` accepts exactly `-1 < c < 1`.
- `Wrappers` (`wrappers.dfy`) holds `Option`.
- `Seqs` (`seqs.dfy`) holds two regrouping steps for concatenations, used by
  the order-preservation proofs of the list filters.

Conventions:
- Python's `//` by 2 or 3 is Dafny's `/`. The two agree whenever the divisor
  is positive.
- In people_counter.py the coordinates are modelled as `int`.
- In deep.py and detect.py, coordinates, scores and class ids are `real`.

Two points of the code shape the model:
- **Zone edges.** The rectangles are closed on all four sides and the first
  match in A, B, C, D order wins. So a centroid on the middle column goes to
  the left zone (A or C), and one on the middle row goes to the upper zone
  (A or B). This is proved in `PeopleCounter.ZoneOfPoint`.
- **Loop indentation.** In people_counter.py the `for r in results:` loop at
  line 46 starts at column 0, outside the `while True:` loop. As written, the
  frame loop would never reach the counting code. The model follows the
  evident intent: lines 44–88 form one tick per frame (`PeopleCounter.ProcessFrame`).
  It takes one detector result per frame, which is what `model.predict`
  returns for a single frame.

## Model

| member | source | states |
|---|---|---|
| `PeopleCounter.Half` | people_counter.py:35-38 | `width // 2` and `height // 2` are floor division: `2q <= n < 2q + 2` |
| `PeopleCounter.Centroid` | people_counter.py:68-70 | the centroid `((x1+x2)//2, (y1+y2)//2)` satisfies `x1 <= cx <= x2` and `y1 <= cy <= y2` whenever the box is not inverted |
| `PeopleCounter.MakeZones` | people_counter.py:34-39 | there are four zones named A, B, C, D in that order, and for a frame of non-negative size each zone's rectangle is well ordered and lies inside `[0, width] x [0, height]` |
| `PeopleCounter.FirstZone` | people_counter.py:73-76 | the zone search yields no zone exactly when no zone contains the centroid |
| `PeopleCounter.FirstZoneSpec` | people_counter.py:73-76 | the zone search finds nothing iff no zone contains the point; otherwise it names the zone that contains the point when no earlier zone does |
| `PeopleCounter.FindZone` | people_counter.py:73-76 | the `for ... break` loop returns the first containing zone in dict order, or none |
| `PeopleCounter.ZoneOfPoint` | people_counter.py:34-39 | for a frame of non-negative size, a point resolves to a quadrant iff it lies in `[0,w] x [0,h]`, and then to A, B, C or D by `cx <= w//2` and `cy <= h//2`, so the middle column goes left and the middle row goes up |
| `PeopleCounter.ToXywh` | people_counter.py:53-55 | the converted box keeps `x1, y1` and satisfies `x + w == x2`, `y + h == y2` |
| `PeopleCounter.Converted` | people_counter.py:50-55 | no longer than the input; every output is the conversion of a 4-element input box, and every 4-element input box's conversion is in the output |
| `PeopleCounter.ConvertedAppend` | people_counter.py:50-55 | conversion commutes with concatenation, so input order is preserved |
| `PeopleCounter.ConvertBoxes` | people_counter.py:50-55 | the box loop builds exactly `Converted(boxes)` |
| `PeopleCounter.EmptyCounts` | people_counter.py:61 | the per-tick counter dict starts with every zone A–D present |
| `PeopleCounter.Bump` | people_counter.py:75 | `zone_counts[zone] += 1` keeps every zone key present |
| `PeopleCounter.ZoneCounts` | people_counter.py:61-78 | the counts after any sequence of tracks still hold every zone A–D with a non-negative count |
| `PeopleCounter.ZoneOfTrack` | people_counter.py:64-76 | an unconfirmed track goes to no zone; a confirmed track goes to no zone only when no zone contains its centroid, and otherwise to the first zone in A, B, C, D order that contains it |
| `PeopleCounter.CountStep` | people_counter.py:73-78 | each track raises at most one zone counter, by one; the zone sum grows by one exactly when the track is confirmed and its centroid lies in a zone |
| `PeopleCounter.ZoneSumPlusUnzoned` | people_counter.py:64-78 | the zone sum plus the number of confirmed tracks outside every zone equals the number of confirmed tracks |
| `PeopleCounter.ZoneSumAtMostTotal` | people_counter.py:73-78 | the zone counts never add up to more than `total_count` |
| `PeopleCounter.InFrameAllZoned` | people_counter.py:34-76 | with the quadrant zones, if every confirmed centroid lies in the frame, then no track is unzoned and the zone sum equals the total |
| `PeopleCounter.UnconfirmedIgnored` | people_counter.py:64-66 | unconfirmed tracks change no zone counter: counting all tracks equals counting only the confirmed ones |
| `PeopleCounter.CountTick` | people_counter.py:61-78 | the track loop yields `ZoneCounts(tracks, zones)`, and `total_count` equals the number of confirmed tracks |
| `PeopleCounter.ProcessFrame` | people_counter.py:44-88 | one frame: the detections are the converted boxes; the saved snapshot holds the confirmed-track total, the quadrant zone counts and source "Webcam" |
| `Tracking.Confirmed` | people_counter.py:64-66 | the confirmed tracks are no more than all tracks, and a track is among them iff it is in the input and is confirmed |
| `Tracking.ConfirmedAppend` | people_counter.py:64-66 | filtering for confirmed tracks preserves their order |
| `YoloClasses.Truncate` | deep.py:28 | `int()` on a float truncates toward zero: `n <= r < n + 1` for `r >= 0` and `n - 1 < r <= n` for `r < 0` |
| `YoloClasses.IsPerson` | deep.py:28 | the test `int(class_id) == 0` holds iff `-1 < class_id < 1` |
| `YoloClasses.PersonCount` | detect.py:68-71 | the person count is at most the number of boxes; it equals it iff every box is a person, and it is 0 iff none is |
| `YoloClasses.PersonCountAppend` | detect.py:68-71 | person counts of concatenated box lists add up |
| `Dashboard.Sum` | dashboard.py:24 | `sum(...)` of non-negative counts is non-negative and at least each single count |
| `Dashboard.SumBounds` | dashboard.py:22-24 | a sum of draws each in `[0, 4]` lies in `[0, 4n]` |
| `Dashboard.ZonesDistinct` | dashboard.py:12 | the four configured zone names are pairwise distinct, so each zone has its own counter |
| `Dashboard.CountsInOrder` | dashboard.py:93 | `counts` has one entry per zone, in `ZONES` order, equal to that zone's count |
| `Dashboard.ZoneTotal` | dashboard.py:24 | when every zone count is in `[0, 4]`, the total lies in `[0, 16]` |
| `Dashboard.ZoneTotalBounds` | dashboard.py:93-94 | the sum of the in-order counts of in-range zone counts lies in `[0, 16]` |
| `Dashboard.BoundedAppend` | dashboard.py:25-31 | the new record is last; the length grows by one until it reaches 15 and then stays; the result is a suffix of the old history plus the new record |
| `Dashboard.BoundedAppendKeeps` | dashboard.py:30-31 | below 15 entries nothing is dropped; at 15 or more exactly the oldest entry is dropped and the rest keep their order |
| `Dashboard.BoundedAppendWellFormed` | dashboard.py:25-31 | appending a consistent record to a history of at most 15 consistent records leaves at most 15 records, all consistent |
| `Dashboard.EvaluateAlerts` | dashboard.py:121-139 | exactly one alert per zone, in `ZONES` order, carrying that zone's count, flagged LIMIT EXCEEDED iff `count >= ZONE_LIMIT`; the result is determined by the counts alone |
| `Dashboard.LiveData.constructor` | dashboard.py:17-18 | every zone starts at 0 and the history starts empty |
| `Dashboard.LiveData.GenerateLiveCounts` | dashboard.py:20-31 | each zone takes its draw, and the zone keys are unchanged; the history becomes the bounded append of a record whose `Time` is the old length and whose `Total` is the zone sum; the history stays at most 15 long, every record stays consistent, and once full every new record has `Time == 15` |
| `Dashboard.LiveData.UpdateDashboard` | dashboard.py:89-141 | the displayed counts are the draws in `ZONES` order; the displayed total is `sum(counts)`, equals the new last record's `Total` and lies in `[0, 16]`; the alert list is one per zone, with `exceeded` iff `count >= 3` |
| `Detect.FlattenLength` | detect.py:68-69 | the nested loops visit exactly as many boxes as all results hold |
| `Detect.CountPeople` | detect.py:66-71 | `people_count` is the number of boxes whose class truncates to 0, over all results, and is at most the number of boxes |
| `Detect.Split` | detect.py:74-76 | `zone_a == zone_b == people_count // 3` (as `3a <= n < 3a + 3`); `zone_a + zone_b + zone_c == people_count`; `zone_a <= zone_c <= zone_a + 2` |
| `Detect.AnalyzeFrame` | detect.py:65-84 | the inserted row has source "Webcam", the person count of the frame, and its three-way split |
| `Deep.ToDetection` | deep.py:27-29 | a kept row becomes `[[x1, y1, w, h], score, class]` with `x1 + w == x2`, `y1 + h == y2`, and score and class unchanged |
| `Deep.ClassIds` | deep.py:27 | the class id of each row, position by position |
| `Deep.KeepRow` | deep.py:28-29 | a row yields its reshaped detection iff `int(class_id) == 0`, and nothing otherwise |
| `Deep.Kept` | deep.py:26-30 | no more detections than rows |
| `Deep.KeptMembers` | deep.py:26-30 | every detection comes from a person row, and every person row's detection is present |
| `Deep.KeptLength` | deep.py:26-29 | there is exactly one detection per row with `int(class_id) == 0` |
| `Deep.KeptAppend` | deep.py:26-29 | the filter commutes with concatenation, so input order is preserved |
| `Deep.Scores` | deep.py:30 | the scores of the detections, position by position |
| `Deep.FilterDetections` | deep.py:23-30 | the loop builds exactly `Kept(rows)`; `confidences` has the same length, and `confidences[i]` is the score of `detections[i]` |
| `Deep.NoneUnconfirmedIff` | deep.py:38 | the confirmed tracks are all the tracks iff every track is confirmed |
| `Deep.ActiveTracks` | deep.py:38 | `active_tracks` is at most the number of tracks, with equality iff all are confirmed |
| `Deep.ProcessFrame` | deep.py:22-54 | the displayed "Total Count" is `len(detections)`, the number of person rows, at most the number of rows; `confidences` matches `detections`; `active_tracks` is computed only when some row was kept (`if confidences:`), and is then the number of confirmed tracks |

## Left out

- YOLO detection (`model.predict`, `model(frame)`) is a foreign library call. Its output is an input of the model: boxes, rows or class ids.
- DeepSORT tracking (`tracker.update_tracks`, `is_confirmed`, `to_ltrb`) is a foreign library call. Association and the track lifecycle happen inside the library. The tracks are an input sequence of (confirmed, box) pairs, so the tentative/confirmed/deleted transitions and track-id uniqueness are not modelled.
- The tracker actually receives the converted detections. `ProcessFrame` takes the tracks as a separate parameter, so the model does not link the two.
- database.py is sqlite plumbing, and so are the table creation and inserts of detect.py and the `save_count`/`save_log` calls. `ProcessFrame` and `AnalyzeFrame` return the values that would be written. Timestamps (`datetime.now()`) are left out.
- The Flask `index()` query in detect.py is a sqlite query rendered through a template, not computation.
- OpenCV capture, drawing, `imshow` and `waitKey` are I/O and UI, and so are the frame loops that read frames until the camera or video ends or a key is pressed.
- The Dash layout, the Plotly figures, the interval timer, and the alert text and colours are presentation. An alert carries its zone, count and exceeded flag.
- `random.randint(0, 4)` in dashboard.py is nondeterministic. The draws are a parameter with `0 <= c <= 4`.
- The "live accuracy" formula and the average confidence in deep.py are floating-point and cosmetic.
- The `map(int, box)` truncation of detector coordinates in people_counter.py is not modelled; the boxes there are taken as integers. The `to_ltrb()` coordinates are floats that the code floor-divides with `//` without any `int()`; the model takes them as integers too.
- `Deep.ToDetection`: coordinates are exact reals in the model, so `x1 + w == x2` and `y1 + h == y2` always hold. In floating point they can be off by one rounding step: with `x1 = 233.9273` and `x2 = 945.6465`, the double sum `x1 + (x2 - x1)` is `945.6465000000001`.
- `PeopleCounter.Centroid`: `x1 <= cx <= x2` holds only for integer boxes. For a fractional box it can fail: with `x1 = x2 = 10.6`, `(x1 + x2) // 2` is `10.0`, below `x1`.
- `PeopleCounter.ProcessFrame`: when the detector returns several result objects for one frame, the source re-runs tracking and counting once per result and accumulates detections across them. The model handles one result per frame.
- `Deep.Row`: a detector row is always six numbers. The unpacking error that a row of another length would raise is not modelled.
- people_counter.py saves every frame and dashboard.py trims a plain list; there is no write throttle or separate ring buffer.
