/**
 * The detection server's matcher: it stores calibration templates per eye and direction,
 * cuts each eye's region out of a frame, and picks the direction whose templates match
 * the current eyes best. Pixel arithmetic is abstract: the mean squared error of two eye
 * images is a parameter.
 */
module EyeDetector {
  import opened Wrappers

  /* ---------- Error values: non-negative reals and Python's float('inf') ---------- */

  datatype Extended = Finite(value: real) | Infinite

  /** The order of extended reals, infinity on top. */
  predicate Le(a: Extended, b: Extended) {
    b.Infinite? || (a.Finite? && a.value <= b.value)
  }

  predicate NonNegative(a: Extended) {
    a.Infinite? || a.value >= 0.0
  }

  /** Python's two-argument `min`: the first argument on a tie. */
  function MinE(a: Extended, b: Extended): (m: Extended)
    ensures Le(m, a) && Le(m, b)
    ensures m == a || m == b
  {
    if Le(a, b) then a else b
  }

  /** `(a + b) / 2`, infinite when either side is. */
  function Mean(a: Extended, b: Extended): (m: Extended)
    ensures m.Infinite? <==> a.Infinite? || b.Infinite?
    ensures Le(MinE(a, b), m)
    ensures a.Finite? && b.Finite? ==> m.value + m.value == a.value + b.value
  {
    if a.Finite? && b.Finite? then Finite((a.value + b.value) / 2.0) else Infinite
  }

  /* ---------- The eye region ---------- */

  /** A face-mesh landmark in coordinates normalised to the frame. */
  datatype Landmark = Landmark(x: real, y: real)

  const LEFT_EYE_POINTS: seq<nat> := [362, 385, 387, 263, 373, 380]
  const RIGHT_EYE_POINTS: seq<nat> := [33, 160, 158, 133, 153, 144]

  /** The margin added around the landmarks' bounding box, in pixels. */
  const MARGIN: int := 3

  /** The landmark count of the refined face mesh. */
  const MESH_SIZE: nat := 478

  /** Conversion of a float to int32 (in range): truncation toward zero. */
  function Truncate(v: real): (n: int)
    ensures v >= 0.0 ==> n as real <= v < n as real + 1.0
    ensures v < 0.0 ==> n as real - 1.0 < v <= n as real
  {
    if v >= 0.0 then v.Floor else -((-v).Floor)
  }

  function MinOf(s: seq<int>): (m: int)
    requires |s| > 0
    ensures m in s && forall i :: 0 <= i < |s| ==> m <= s[i]
  {
    if |s| == 1 then s[0] else var rest := MinOf(s[1..]); if s[0] <= rest then s[0] else rest
  }

  function MaxOf(s: seq<int>): (m: int)
    requires |s| > 0
    ensures m in s && forall i :: 0 <= i < |s| ==> s[i] <= m
  {
    if |s| == 1 then s[0] else var rest := MaxOf(s[1..]); if s[0] >= rest then s[0] else rest
  }

  /** A box of pixel bounds, the maxima exclusive as in a slice. */
  datatype Box = Box(minX: int, minY: int, maxX: int, maxY: int)

  /** The eye's landmarks in pixels, truncated to integers. */
  function PixelXs(landmarks: seq<Landmark>, points: seq<nat>, width: nat): (xs: seq<int>)
    requires forall i :: 0 <= i < |points| ==> points[i] < |landmarks|
    ensures |xs| == |points|
  {
    seq(|points|, i requires 0 <= i < |points| => Truncate(landmarks[points[i]].x * width as real))
  }

  function PixelYs(landmarks: seq<Landmark>, points: seq<nat>, height: nat): (ys: seq<int>)
    requires forall i :: 0 <= i < |points| ==> points[i] < |landmarks|
    ensures |ys| == |points|
  {
    seq(|points|, i requires 0 <= i < |points| => Truncate(landmarks[points[i]].y * height as real))
  }

  /** The landmarks' bounding box widened by the margin on every side. */
  function EyeBox(landmarks: seq<Landmark>, points: seq<nat>, width: nat, height: nat): (b: Box)
    requires |points| > 0 && forall i :: 0 <= i < |points| ==> points[i] < |landmarks|
    ensures forall x <- PixelXs(landmarks, points, width) :: b.minX + MARGIN <= x <= b.maxX - MARGIN
    ensures forall y <- PixelYs(landmarks, points, height) :: b.minY + MARGIN <= y <= b.maxY - MARGIN
    ensures b.minX + MARGIN in PixelXs(landmarks, points, width) && b.maxX - MARGIN in PixelXs(landmarks, points, width)
    ensures b.minY + MARGIN in PixelYs(landmarks, points, height) && b.maxY - MARGIN in PixelYs(landmarks, points, height)
  {
    var xs := PixelXs(landmarks, points, width);
    var ys := PixelYs(landmarks, points, height);
    Box(MinOf(xs) - MARGIN, MinOf(ys) - MARGIN, MaxOf(xs) + MARGIN, MaxOf(ys) + MARGIN)
  }

  /** A non-empty rectangle of the frame: its corner and its size. */
  datatype Rect = Rect(x: nat, y: nat, cols: nat, rows: nat)

  predicate InRect(r: Rect, px: int, py: int) {
    r.x <= px < r.x + r.cols && r.y <= py < r.y + r.rows
  }

  predicate InBox(b: Box, px: int, py: int) {
    b.minX <= px < b.maxX && b.minY <= py < b.maxY
  }

  function Max(a: int, b: int): int { if a >= b then a else b }
  function Min(a: int, b: int): int { if a <= b then a else b }

  /**
   * The indices a numpy slice `[start:stop]` of an axis of length `n` keeps, for a start
   * that is not negative: a negative stop counts from the end.
   */
  function SliceBounds(start: nat, stop: int, n: nat): (bounds: (nat, nat))
    ensures bounds.0 <= n && bounds.1 <= n
    ensures stop >= 0 ==> bounds == (Min(start, n), Min(stop, n))
  {
    (Min(start, n), if stop < 0 then Max(0, stop + n) else Min(stop, n))
  }

  /**
   * `get_eye_roi` as written, up to the emptiness test: the box is clamped to the frame on
   * the low side by `max(0, ·)` and on the high side by `min(extent, ·)`, then sliced.
   */
  function RoiAsWritten(b: Box, width: nat, height: nat): (r: Option<Rect>)
    ensures r.Some? ==> r.value.cols > 0 && r.value.rows > 0
    ensures r.Some? ==> r.value.x + r.value.cols <= width && r.value.y + r.value.rows <= height
  {
    var xs := SliceBounds(Max(0, b.minX), Min(width, b.maxX), width);
    var ys := SliceBounds(Max(0, b.minY), Min(height, b.maxY), height);
    if xs.1 <= xs.0 || ys.1 <= ys.0 then None
    else Some(Rect(xs.0, ys.0, xs.1 - xs.0, ys.1 - ys.0))
  }

  /** The box and the frame share at least one pixel. */
  predicate Overlaps(b: Box, width: nat, height: nat) {
    Max(0, b.minX) < Min(width, b.maxX) && Max(0, b.minY) < Min(height, b.maxY)
  }

  /**
   * The intended eye region: the part of the box inside the frame, or None when the box
   * misses the frame.
   */
  function Roi(b: Box, width: nat, height: nat): (r: Option<Rect>)
    ensures r.None? <==> !Overlaps(b, width, height)
    ensures r.Some? ==> forall px, py :: InRect(r.value, px, py) <==>
                          InBox(b, px, py) && 0 <= px < width && 0 <= py < height
  {
    if !Overlaps(b, width, height) then None
    else
      var x0, y0 := Max(0, b.minX), Max(0, b.minY);
      Some(Rect(x0, y0, Min(width, b.maxX) - x0, Min(height, b.maxY) - y0))
  }

  /** While the box does not end left of or above the frame, the code does what is intended. */
  lemma RoiAsWrittenWhenBoxEndsInFrame(b: Box, width: nat, height: nat)
    requires b.maxX >= 0 && b.maxY >= 0
    ensures RoiAsWritten(b, width, height) == Roi(b, width, height)
  {
  }

  /**
   * A box wholly left of the frame ends at a negative column, which the slice reads as
   * counting from the right edge: a 100 by 100 frame yields an 83-column region although
   * no pixel of the box is in it.
   */
  lemma OffFrameBoxGivesRegion()
    ensures RoiAsWritten(Box(-23, 47, -17, 53), 100, 100) == Some(Rect(0, 47, 83, 6))
    ensures Roi(Box(-23, 47, -17, 53), 100, 100) == None
  {
  }

  /** A face whose every landmark sits 20% left of the frame, at mid height. */
  const OFF_FRAME_FACE: seq<Landmark> := seq(MESH_SIZE, _ => Landmark(-0.2, 0.5))

  /** That face's left eye gets the box of the lemma above. */
  lemma OffFrameFaceBox()
    ensures EyeBox(OFF_FRAME_FACE, LEFT_EYE_POINTS, 100, 100) == Box(-23, 47, -17, 53)
  {
    var xs := PixelXs(OFF_FRAME_FACE, LEFT_EYE_POINTS, 100);
    var ys := PixelYs(OFF_FRAME_FACE, LEFT_EYE_POINTS, 100);
    assert Truncate(-0.2 * 100.0) == -20;
    assert Truncate(0.5 * 100.0) == 50;
    assert forall x <- xs :: x == -20;
    assert forall y <- ys :: y == 50;
  }

  /** `get_eye_roi` as written: the region of the frame it resizes, or None. */
  function GetEyeRoiAsWritten(landmarks: seq<Landmark>, isLeft: bool, width: nat, height: nat): (r: Option<Rect>)
    requires |landmarks| == MESH_SIZE
    ensures r.Some? ==> r.value.x + r.value.cols <= width && r.value.y + r.value.rows <= height
  {
    RoiAsWritten(EyeBox(landmarks, if isLeft then LEFT_EYE_POINTS else RIGHT_EYE_POINTS, width, height), width, height)
  }

  /** `get_eye_roi` as intended: None exactly when the widened eye box misses the frame. */
  function GetEyeRoi(landmarks: seq<Landmark>, isLeft: bool, width: nat, height: nat): (r: Option<Rect>)
    requires |landmarks| == MESH_SIZE
    ensures var b := EyeBox(landmarks, if isLeft then LEFT_EYE_POINTS else RIGHT_EYE_POINTS, width, height);
            r.None? <==> !Overlaps(b, width, height)
  {
    Roi(EyeBox(landmarks, if isLeft then LEFT_EYE_POINTS else RIGHT_EYE_POINTS, width, height), width, height)
  }

  /** On the face off the frame's left edge the code finds a left eye that is not there. */
  lemma OffFrameEyeFound()
    ensures GetEyeRoiAsWritten(OFF_FRAME_FACE, true, 100, 100) == Some(Rect(0, 47, 83, 6))
    ensures GetEyeRoi(OFF_FRAME_FACE, true, 100, 100) == None
  {
    OffFrameFaceBox();
    OffFrameBoxGivesRegion();
  }

  /* ---------- Template matching ---------- */

  /** A resized grey-scale eye image, as rows of pixel values. */
  type Image = seq<seq<int>>

  /** `calculate_mse`: infinite when either image is missing, else the images' error. */
  function CalculateMse(img1: Option<Image>, img2: Option<Image>, mse: (Image, Image) -> real): (e: Extended)
    ensures e.Infinite? <==> img1.None? || img2.None?
    ensures e.Finite? ==> e.value == mse(img1.value, img2.value)
  {
    if img1.None? || img2.None? then Infinite else Finite(mse(img1.value, img2.value))
  }

  /** `min(errors) if errors else inf` over an eye's errors against some templates. */
  function MinError(eye: Image, templates: seq<Image>, mse: (Image, Image) -> real): (e: Extended)
    ensures e.Infinite? <==> templates == []
    ensures forall t <- templates :: Le(e, CalculateMse(Some(eye), Some(t), mse))
    ensures templates != [] ==> exists t <- templates :: e == CalculateMse(Some(eye), Some(t), mse)
    decreases |templates|
  {
    if |templates| == 0 then Infinite
    else
      var last := templates[|templates| - 1];
      var rest := templates[..|templates| - 1];
      assert templates == rest + [last];
      MinE(MinError(eye, rest, mse), CalculateMse(Some(eye), Some(last), mse))
  }

  /** A dictionary of template lists, with its keys in insertion order. */
  datatype Store = Store(templates: map<string, seq<Image>>, order: seq<string>)

  /** `order` lists each element of `keys` once. */
  predicate Enumerates(order: seq<string>, keys: set<string>) {
    && (forall i, j :: 0 <= i < j < |order| ==> order[i] != order[j])
    && (forall d <- order :: d in keys)
    && (forall d <- keys :: d in order)
  }

  predicate ValidStore(store: Store) {
    Enumerates(store.order, store.templates.Keys)
  }

  const EMPTY_STORE: Store := Store(map[], [])

  /** Every direction of the store has at least one template. */
  predicate Filled(store: Store) {
    forall d <- store.templates.Keys :: store.templates[d] != []
  }

  /** The templates stored for a direction, none if it has no entry. */
  function Stored(store: Store, direction: string): seq<Image> {
    if direction in store.templates then store.templates[direction] else []
  }

  /** `save_calibration_template` on one eye's store. */
  function Save(store: Store, eyeRoi: Image, direction: string): (r: Store)
    requires ValidStore(store)
    ensures ValidStore(r)
    ensures Stored(r, direction) == Stored(store, direction) + [eyeRoi]
    ensures forall d :: d != direction ==> (d in r.templates <==> d in store.templates) && Stored(r, d) == Stored(store, d)
    ensures r.order == if direction in store.templates then store.order else store.order + [direction]
  {
    var existing := if direction in store.templates then store.templates[direction] else [];
    var order := if direction in store.templates then store.order else store.order + [direction];
    Store(store.templates[direction := existing + [eyeRoi]], order)
  }

  /** One entry of an error dictionary. */
  datatype Entry = Entry(direction: string, error: Extended)

  /** The directions of a table are distinct. */
  predicate DistinctDirections(table: seq<Entry>) {
    forall i, j :: 0 <= i < j < |table| ==> table[i].direction != table[j].direction
  }

  /** `errors.get(direction, float('inf'))`. */
  function Lookup(table: seq<Entry>, direction: string): Extended {
    if |table| == 0 then Infinite
    else if table[0].direction == direction then table[0].error
    else Lookup(table[1..], direction)
  }

  /** In a table with distinct directions, lookup finds the entry of that direction. */
  lemma {:induction false} LookupAt(table: seq<Entry>, i: nat)
    requires DistinctDirections(table) && i < |table|
    ensures Lookup(table, table[i].direction) == table[i].error
  {
    if i > 0 {
      assert table[0].direction != table[i].direction;
      assert table[1..][i - 1] == table[i];
      LookupAt(table[1..], i - 1);
    }
  }

  /** A direction absent from a table looks up as infinity. */
  lemma {:induction false} LookupMissing(table: seq<Entry>, direction: string)
    requires forall i :: 0 <= i < |table| ==> table[i].direction != direction
    ensures Lookup(table, direction) == Infinite
  {
    if |table| > 0 {
      assert forall i :: 0 <= i < |table[1..]| ==> table[1..][i] == table[i + 1];
      LookupMissing(table[1..], direction);
    }
  }

  /** An eye's error for a direction: its best template match, infinite without templates. */
  function EyeError(eye: Image, store: Store, direction: string, mse: (Image, Image) -> real): Extended {
    MinError(eye, Stored(store, direction), mse)
  }

  /**
   * `save_calibration_template` never leaves a direction without templates, so from an
   * empty store no error is ever the Python-float infinity of an empty list.
   */
  lemma SaveKeepsFilled(store: Store, eyeRoi: Image, direction: string)
    requires ValidStore(store) && Filled(store)
    ensures Filled(Save(store, eyeRoi, direction))
  {
    var r := Save(store, eyeRoi, direction);
    forall d | d in r.templates.Keys
      ensures r.templates[d] != []
    {
      assert Stored(r, d) == r.templates[d];
      if d != direction {
        assert Stored(store, d) == store.templates[d];
      }
    }
  }

  /** The per-direction loop over one eye's store, as a table in the store's order. */
  function EyeErrors(eye: Image, store: Store, mse: (Image, Image) -> real): (table: seq<Entry>)
    ensures |table| == |store.order|
    ensures forall i :: 0 <= i < |table| ==> table[i] == Entry(store.order[i], EyeError(eye, store, store.order[i], mse))
  {
    ErrorsForAt(eye, store, store.order, mse);
    ErrorsFor(eye, store, store.order, mse)
  }

  /** The entries for a list of directions, built one direction at a time. */
  function ErrorsFor(eye: Image, store: Store, directions: seq<string>, mse: (Image, Image) -> real): (table: seq<Entry>)
    ensures |table| == |directions|
    decreases |directions|
  {
    if directions == [] then []
    else
      var last := directions[|directions| - 1];
      ErrorsFor(eye, store, directions[..|directions| - 1], mse) + [Entry(last, EyeError(eye, store, last, mse))]
  }

  /** Adding a direction at the end adds its entry at the end. */
  lemma ErrorsForSnoc(eye: Image, store: Store, directions: seq<string>, d: string, mse: (Image, Image) -> real)
    ensures ErrorsFor(eye, store, directions + [d], mse)
            == ErrorsFor(eye, store, directions, mse) + [Entry(d, EyeError(eye, store, d, mse))]
  {
    assert (directions + [d])[..|directions|] == directions;
  }

  /** Entry `i` of the entries for a list of directions is direction `i` with its error. */
  lemma {:induction false} ErrorsForAt(eye: Image, store: Store, directions: seq<string>, mse: (Image, Image) -> real)
    ensures forall i :: 0 <= i < |directions| ==>
              ErrorsFor(eye, store, directions, mse)[i] == Entry(directions[i], EyeError(eye, store, directions[i], mse))
    decreases |directions|
  {
    if directions != [] {
      var init := directions[..|directions| - 1];
      ErrorsForAt(eye, store, init, mse);
      assert forall i :: 0 <= i < |init| ==> init[i] == directions[i];
    }
  }

  /** Looking a direction up in an eye's table gives that eye's error for it. */
  lemma LookupEyeErrors(eye: Image, store: Store, direction: string, mse: (Image, Image) -> real)
    requires ValidStore(store)
    ensures Lookup(EyeErrors(eye, store, mse), direction) == EyeError(eye, store, direction, mse)
  {
    var table := EyeErrors(eye, store, mse);
    if direction in store.order {
      var i :| 0 <= i < |store.order| && store.order[i] == direction;
      LookupAt(table, i);
    } else {
      LookupMissing(table, direction);
    }
  }

  /** The dictionary comprehension over the union of both eyes' directions. */
  function CombineBoth(left: seq<Entry>, right: seq<Entry>, unionOrder: seq<string>): (table: seq<Entry>)
    ensures |table| == |unionOrder|
  {
    seq(|unionOrder|, i requires 0 <= i < |unionOrder| =>
      Entry(unionOrder[i], Mean(Lookup(left, unionOrder[i]), Lookup(right, unionOrder[i]))))
  }

  /** Both tables when both are non-empty, else the non-empty one, else none. */
  function Combine(left: seq<Entry>, right: seq<Entry>, unionOrder: seq<string>): (table: Option<seq<Entry>>)
    ensures table.None? <==> |left| == 0 && |right| == 0
    ensures |left| > 0 && |right| == 0 ==> table == Some(left)
    ensures |left| == 0 && |right| > 0 ==> table == Some(right)
  {
    if |left| > 0 && |right| > 0 then Some(CombineBoth(left, right, unionOrder))
    else if |left| > 0 then Some(left)
    else if |right| > 0 then Some(right)
    else None
  }

  /** `min(table.items(), key=error)`: the first entry with the least error. */
  function ArgMin(table: seq<Entry>): (i: nat)
    requires |table| > 0
    ensures i < |table|
    ensures forall j :: 0 <= j < |table| ==> Le(table[i].error, table[j].error)
    ensures forall j :: 0 <= j < i ==> !Le(table[j].error, table[i].error)
  {
    if |table| == 1 then 0
    else
      var i := ArgMin(table[..|table| - 1]);
      if Le(table[i].error, table[|table| - 1].error) then i else |table| - 1
  }

  /**
   * `1.0 - min(1.0, error / sensitivity)` on a numpy error. Dividing by a zero sensitivity
   * gives an infinity of the error's sign, or NaN for a zero error; `min` keeps 1.0 against
   * NaN and +inf, so only a negative error escapes to an infinite confidence.
   */
  function Confidence(error: Extended, sensitivity: real): (c: Extended)
    ensures NonNegative(c)
    ensures c.Infinite? <==> (error.Infinite? && sensitivity < 0.0)
                              || (error.Finite? && error.value < 0.0 && sensitivity == 0.0)
    ensures sensitivity == 0.0 && NonNegative(error) ==> c == Finite(0.0)
  {
    if sensitivity == 0.0 then
      if error.Finite? && error.value < 0.0 then Infinite else Finite(0.0)
    else
      match error
      case Infinite => if sensitivity > 0.0 then Finite(0.0) else Infinite
      case Finite(e) =>
        var ratio := e / sensitivity;
        Finite(1.0 - (if ratio <= 1.0 then ratio else 1.0))
  }

  /**
   * With a positive sensitivity and a non-negative error the confidence lies in [0, 1]: it
   * is 1 for a perfect match and 0 once the error reaches the sensitivity.
   */
  lemma ConfidenceBounds(error: Extended, sensitivity: real)
    requires sensitivity > 0.0 && NonNegative(error)
    ensures 0.0 <= Confidence(error, sensitivity).value <= 1.0
    ensures error == Finite(0.0) ==> Confidence(error, sensitivity).value == 1.0
    ensures Le(Finite(sensitivity), error) ==> Confidence(error, sensitivity).value == 0.0
  {
    if error.Finite? {
      var ratio := error.value / sensitivity;
      assert ratio * sensitivity == error.value;
      assert ratio >= 0.0;
      if error.value >= sensitivity {
        assert ratio >= 1.0;
      }
    }
  }

  /** A smaller error never gets a smaller confidence. */
  lemma ConfidenceAntitone(e1: Extended, e2: Extended, sensitivity: real)
    requires sensitivity > 0.0 && Le(e1, e2)
    ensures Confidence(e2, sensitivity).value <= Confidence(e1, sensitivity).value
  {
    if e2.Finite? {
      assert e1.value / sensitivity <= e2.value / sensitivity;
    }
  }

  /** What `detect_direction` returns: a match or an error object. */
  datatype DetectResult =
    | Detected(direction: string, confidence: Extended, error: Extended)
    | Failure(message: string)

  const NO_FACE: string := "No face detected"
  const NO_EYES: string := "Eyes not detected clearly"
  const NO_TEMPLATES: string := "No valid templates to compare"

  /** An eye contributes errors: its region was found and its store has directions. */
  predicate Contributes(eye: Option<Image>, store: Store) {
    eye.Some? && |store.order| > 0
  }

  /** What a frame gives the matcher: whether a face was found, and each eye's image. */
  datatype Observation = Observation(faceFound: bool, leftEye: Option<Image>, rightEye: Option<Image>)

  /** The combined error table of an observation's eyes, if any eye has errors. */
  function Table(o: Observation, left: Store, right: Store, unionOrder: seq<string>,
                 mse: (Image, Image) -> real): Option<seq<Entry>>
  {
    var leftErrors := if o.leftEye.Some? then EyeErrors(o.leftEye.value, left, mse) else [];
    var rightErrors := if o.rightEye.Some? then EyeErrors(o.rightEye.value, right, mse) else [];
    Combine(leftErrors, rightErrors, unionOrder)
  }

  /**
   * `detect_direction` over an observation, both stores, the iteration order of the union
   * of their directions, the image error and the sensitivity.
   */
  function Detect(o: Observation, left: Store, right: Store, unionOrder: seq<string>,
                  mse: (Image, Image) -> real, sensitivity: real): DetectResult
  {
    if !o.faceFound then Failure(NO_FACE)
    else if o.leftEye.None? && o.rightEye.None? then Failure(NO_EYES)
    else
      match Table(o, left, right, unionOrder, mse)
      case None => Failure(NO_TEMPLATES)
      case Some(table) =>
        if |table| == 0 then Failure(NO_TEMPLATES)
        else
          var best := table[ArgMin(table)];
          Detected(best.direction, Confidence(best.error, sensitivity), best.error)
  }

  /** The directions that compete: the union if both eyes contribute, else the one that does. */
  function Candidates(o: Observation, left: Store, right: Store): set<string> {
    if Contributes(o.leftEye, left) && Contributes(o.rightEye, right) then left.templates.Keys + right.templates.Keys
    else if Contributes(o.leftEye, left) then left.templates.Keys
    else right.templates.Keys
  }

  /** A direction's combined error: the two eyes' mean, or the contributing eye's error. */
  function DirectionError(o: Observation, left: Store, right: Store, direction: string,
                          mse: (Image, Image) -> real): Extended
    requires Contributes(o.leftEye, left) || Contributes(o.rightEye, right)
  {
    if Contributes(o.leftEye, left) && Contributes(o.rightEye, right) then
      Mean(EyeError(o.leftEye.value, left, direction, mse), EyeError(o.rightEye.value, right, direction, mse))
    else if Contributes(o.leftEye, left) then EyeError(o.leftEye.value, left, direction, mse)
    else EyeError(o.rightEye.value, right, direction, mse)
  }

  /**
   * The error objects: no face; a face but neither eye; eyes but no eye with templates.
   * Once an eye has something to match a direction is reported, whatever the sensitivity.
   */
  lemma DetectFailures(o: Observation, left: Store, right: Store, unionOrder: seq<string>,
                       mse: (Image, Image) -> real, sensitivity: real)
    requires ValidStore(left) && ValidStore(right)
    requires Enumerates(unionOrder, left.templates.Keys + right.templates.Keys)
    ensures Detect(o, left, right, unionOrder, mse, sensitivity) == Failure(NO_FACE) <==> !o.faceFound
    ensures Detect(o, left, right, unionOrder, mse, sensitivity) == Failure(NO_EYES) <==>
              o.faceFound && o.leftEye.None? && o.rightEye.None?
    ensures Detect(o, left, right, unionOrder, mse, sensitivity) == Failure(NO_TEMPLATES) <==>
              o.faceFound && (o.leftEye.Some? || o.rightEye.Some?)
              && !Contributes(o.leftEye, left) && !Contributes(o.rightEye, right)
    ensures Detect(o, left, right, unionOrder, mse, sensitivity).Detected? <==>
              o.faceFound && (Contributes(o.leftEye, left) || Contributes(o.rightEye, right))
  {
    if o.faceFound && Contributes(o.leftEye, left) && Contributes(o.rightEye, right) {
      assert left.order[0] in unionOrder;
    }
  }

  /**
   * A detection names a competing direction with the least combined error, that error,
   * and the confidence computed from it.
   */
  lemma DetectFindsBest(o: Observation, left: Store, right: Store, unionOrder: seq<string>,
                        mse: (Image, Image) -> real, sensitivity: real)
    requires ValidStore(left) && ValidStore(right)
    requires Enumerates(unionOrder, left.templates.Keys + right.templates.Keys)
    ensures var r := Detect(o, left, right, unionOrder, mse, sensitivity);
            r.Detected? ==>
              && (Contributes(o.leftEye, left) || Contributes(o.rightEye, right))
              && r.direction in Candidates(o, left, right)
              && r.error == DirectionError(o, left, right, r.direction, mse)
              && Confidence(r.error, sensitivity) == r.confidence
              && forall d :: d in Candidates(o, left, right) ==> Le(r.error, DirectionError(o, left, right, d, mse))
  {
    var r := Detect(o, left, right, unionOrder, mse, sensitivity);
    if r.Detected? {
      TableEntries(o, left, right, unionOrder, mse);
      var table := Table(o, left, right, unionOrder, mse).value;
      var i := ArgMin(table);
      assert r.direction == table[i].direction && r.error == table[i].error;
      forall d | d in Candidates(o, left, right)
        ensures Le(r.error, DirectionError(o, left, right, d, mse))
      {
        var j :| 0 <= j < |table| && table[j].direction == d;
        assert Le(table[i].error, table[j].error);
      }
    }
  }

  /**
   * What `detect_direction` makes of a frame: the face mesh's landmarks, if it found a face,
   * and each eye's region from `get_eye_roi` as written, cut out and resized by `crop`.
   */
  function Observe(face: Option<seq<Landmark>>, width: nat, height: nat, crop: Rect -> Image): (o: Observation)
    requires face.Some? ==> |face.value| == MESH_SIZE
    ensures o.faceFound <==> face.Some?
    ensures face.None? ==> o.leftEye.None? && o.rightEye.None?
  {
    match face
    case None => Observation(false, None, None)
    case Some(landmarks) =>
      var leftRoi := GetEyeRoiAsWritten(landmarks, true, width, height);
      var rightRoi := GetEyeRoiAsWritten(landmarks, false, width, height);
      Observation(true, if leftRoi.Some? then Some(crop(leftRoi.value)) else None,
                  if rightRoi.Some? then Some(crop(rightRoi.value)) else None)
  }

  /**
   * "No face detected" exactly without a face, and "Eyes not detected clearly" exactly when
   * both eye boxes give an empty slice of the frame.
   */
  lemma ObservedFailures(face: Option<seq<Landmark>>, width: nat, height: nat, crop: Rect -> Image,
                         left: Store, right: Store, unionOrder: seq<string>, mse: (Image, Image) -> real, sensitivity: real)
    requires face.Some? ==> |face.value| == MESH_SIZE
    ensures var r := Detect(Observe(face, width, height, crop), left, right, unionOrder, mse, sensitivity);
            && (r == Failure(NO_FACE) <==> face.None?)
            && (r == Failure(NO_EYES) <==>
                  face.Some? && GetEyeRoiAsWritten(face.value, true, width, height).None?
                  && GetEyeRoiAsWritten(face.value, false, width, height).None?)
  {
    var o := Observe(face, width, height, crop);
    DetectEarlyFailures(o, left, right, unionOrder, mse, sensitivity);
  }

  /** The first two error objects depend on the observation alone, whatever the stores hold. */
  lemma DetectEarlyFailures(o: Observation, left: Store, right: Store, unionOrder: seq<string>,
                            mse: (Image, Image) -> real, sensitivity: real)
    ensures Detect(o, left, right, unionOrder, mse, sensitivity) == Failure(NO_FACE) <==> !o.faceFound
    ensures Detect(o, left, right, unionOrder, mse, sensitivity) == Failure(NO_EYES) <==>
              o.faceFound && o.leftEye.None? && o.rightEye.None?
  {
    assert NO_TEMPLATES != NO_FACE && NO_TEMPLATES != NO_EYES && NO_FACE != NO_EYES;
  }

  /**
   * The face off the frame's left edge is not turned away: its phantom left eye reaches
   * template matching, and with templates stored for that eye a direction is reported.
   */
  lemma OffFrameFaceIsMatched(crop: Rect -> Image, left: Store, right: Store, unionOrder: seq<string>,
                              mse: (Image, Image) -> real, sensitivity: real)
    requires ValidStore(left) && ValidStore(right)
    requires Enumerates(unionOrder, left.templates.Keys + right.templates.Keys)
    requires |left.order| > 0
    ensures var o := Observe(Some(OFF_FRAME_FACE), 100, 100, crop);
            o.leftEye == Some(crop(Rect(0, 47, 83, 6))) && Detect(o, left, right, unionOrder, mse, sensitivity).Detected?
  {
    OffFrameEyeFound();
    var o := Observe(Some(OFF_FRAME_FACE), 100, 100, crop);
    assert Contributes(o.leftEye, left);
    DetectFailures(o, left, right, unionOrder, mse, sensitivity);
  }

  /** With a non-negative image error, one eye's error for a direction is non-negative. */
  lemma EyeErrorNonNegative(eye: Image, store: Store, direction: string, mse: (Image, Image) -> real)
    requires forall a, b :: mse(a, b) >= 0.0
    ensures NonNegative(EyeError(eye, store, direction, mse))
  {
    var templates := Stored(store, direction);
    var e := MinError(eye, templates, mse);
    if templates != [] {
      var t :| t in templates && e == CalculateMse(Some(eye), Some(t), mse);
    }
  }

  /** With a non-negative image error, every combined error is non-negative. */
  lemma DirectionErrorNonNegative(o: Observation, left: Store, right: Store, direction: string,
                                  mse: (Image, Image) -> real)
    requires Contributes(o.leftEye, left) || Contributes(o.rightEye, right)
    requires forall a, b :: mse(a, b) >= 0.0
    ensures NonNegative(DirectionError(o, left, right, direction, mse))
  {
    if o.leftEye.Some? {
      EyeErrorNonNegative(o.leftEye.value, left, direction, mse);
    }
    if o.rightEye.Some? {
      EyeErrorNonNegative(o.rightEye.value, right, direction, mse);
    }
  }

  /**
   * A zero sensitivity divides a numpy error, which raises nothing: the best direction is
   * still reported, with confidence 0.
   */
  lemma ZeroSensitivityDetects(o: Observation, left: Store, right: Store, unionOrder: seq<string>,
                               mse: (Image, Image) -> real)
    requires ValidStore(left) && ValidStore(right)
    requires Enumerates(unionOrder, left.templates.Keys + right.templates.Keys)
    requires forall a, b :: mse(a, b) >= 0.0
    requires o.faceFound && (Contributes(o.leftEye, left) || Contributes(o.rightEye, right))
    ensures var r := Detect(o, left, right, unionOrder, mse, 0.0);
            r.Detected? && r.confidence == Finite(0.0)
  {
    DetectFailures(o, left, right, unionOrder, mse, 0.0);
    DetectFindsBest(o, left, right, unionOrder, mse, 0.0);
    var r := Detect(o, left, right, unionOrder, mse, 0.0);
    DirectionErrorNonNegative(o, left, right, r.direction, mse);
  }

  /**
   * A table that lists `order`'s directions, where `order` enumerates `keys`, has an entry
   * for every key.
   */
  lemma EntriesCover(table: seq<Entry>, order: seq<string>, keys: set<string>)
    requires Enumerates(order, keys) && |table| == |order|
    requires forall j :: 0 <= j < |table| ==> table[j].direction == order[j]
    ensures forall j :: 0 <= j < |table| ==> table[j].direction in keys
    ensures forall d :: d in keys ==> exists j :: 0 <= j < |table| && table[j].direction == d
  {
    forall d | d in keys
      ensures exists j :: 0 <= j < |table| && table[j].direction == d
    {
      var j :| 0 <= j < |order| && order[j] == d;
      assert table[j].direction == d;
    }
  }

  /** What the table holds, and which directions compete. */
  predicate TableMatches(table: seq<Entry>, o: Observation, left: Store, right: Store, mse: (Image, Image) -> real)
    requires Contributes(o.leftEye, left) || Contributes(o.rightEye, right)
  {
    && (forall j :: 0 <= j < |table| ==>
          table[j].direction in Candidates(o, left, right)
          && table[j].error == DirectionError(o, left, right, table[j].direction, mse))
    && (forall d :: d in Candidates(o, left, right) ==>
          exists j :: 0 <= j < |table| && table[j].direction == d)
  }

  /** With both eyes contributing, the table is the union with each direction's mean error. */
  lemma BothEyesTable(o: Observation, left: Store, right: Store, unionOrder: seq<string>, mse: (Image, Image) -> real)
    requires ValidStore(left) && ValidStore(right)
    requires Enumerates(unionOrder, left.templates.Keys + right.templates.Keys)
    requires Contributes(o.leftEye, left) && Contributes(o.rightEye, right)
    ensures Table(o, left, right, unionOrder, mse).Some?
    ensures TableMatches(Table(o, left, right, unionOrder, mse).value, o, left, right, mse)
  {
    BothEyesTableIsUnion(o, left, right, unionOrder, mse);
    BothEyesMatches(o, left, right, unionOrder, mse);
  }

  /** The comprehension over the union matches, with both eyes contributing. */
  lemma BothEyesMatches(o: Observation, left: Store, right: Store, unionOrder: seq<string>, mse: (Image, Image) -> real)
    requires ValidStore(left) && ValidStore(right)
    requires Enumerates(unionOrder, left.templates.Keys + right.templates.Keys)
    requires Contributes(o.leftEye, left) && Contributes(o.rightEye, right)
    ensures TableMatches(CombineBoth(EyeErrors(o.leftEye.value, left, mse), EyeErrors(o.rightEye.value, right, mse), unionOrder),
                         o, left, right, mse)
  {
    var table := CombineBoth(EyeErrors(o.leftEye.value, left, mse), EyeErrors(o.rightEye.value, right, mse), unionOrder);
    BothEyesErrors(o, left, right, unionOrder, mse);
    EntriesCover(table, unionOrder, left.templates.Keys + right.templates.Keys);
  }

  /** A table that lists the competing directions in an enumeration's order, each with its error, matches. */
  lemma MatchesByEntries(table: seq<Entry>, o: Observation, left: Store, right: Store, mse: (Image, Image) -> real,
                         order: seq<string>, keys: set<string>)
    requires Contributes(o.leftEye, left) || Contributes(o.rightEye, right)
    requires Candidates(o, left, right) == keys
    requires Enumerates(order, keys) && |table| == |order|
    requires EntriesHold(table, order, o, left, right, mse)
    ensures TableMatches(table, o, left, right, mse)
  {
    EntriesCover(table, order, keys);
  }

  /** Entry `j` of `table` lists `order[j]` with that direction's combined error. */
  predicate EntriesHold(table: seq<Entry>, order: seq<string>, o: Observation, left: Store, right: Store,
                        mse: (Image, Image) -> real)
    requires Contributes(o.leftEye, left) || Contributes(o.rightEye, right)
  {
    && |table| == |order|
    && forall j :: 0 <= j < |table| ==>
         table[j].direction == order[j] && table[j].error == DirectionError(o, left, right, table[j].direction, mse)
  }

  /** With both eyes contributing, the table is the comprehension over the union. */
  lemma BothEyesTableIsUnion(o: Observation, left: Store, right: Store, unionOrder: seq<string>, mse: (Image, Image) -> real)
    requires Contributes(o.leftEye, left) && Contributes(o.rightEye, right)
    ensures Table(o, left, right, unionOrder, mse)
            == Some(CombineBoth(EyeErrors(o.leftEye.value, left, mse), EyeErrors(o.rightEye.value, right, mse), unionOrder))
  {
  }

  /** Each entry of the combined table holds its direction's mean error. */
  lemma BothEyesErrors(o: Observation, left: Store, right: Store, unionOrder: seq<string>, mse: (Image, Image) -> real)
    requires ValidStore(left) && ValidStore(right)
    requires Contributes(o.leftEye, left) && Contributes(o.rightEye, right)
    ensures EntriesHold(CombineBoth(EyeErrors(o.leftEye.value, left, mse), EyeErrors(o.rightEye.value, right, mse), unionOrder),
                        unionOrder, o, left, right, mse)
  {
    var table := CombineBoth(EyeErrors(o.leftEye.value, left, mse), EyeErrors(o.rightEye.value, right, mse), unionOrder);
    forall j | 0 <= j < |table|
      ensures table[j].direction == unionOrder[j] && table[j].error == DirectionError(o, left, right, table[j].direction, mse)
    {
      LookupEyeErrors(o.leftEye.value, left, unionOrder[j], mse);
      LookupEyeErrors(o.rightEye.value, right, unionOrder[j], mse);
    }
  }

  /** With one eye contributing, the table is that eye's, in its store's order. */
  lemma OneEyeTable(o: Observation, left: Store, right: Store, unionOrder: seq<string>, mse: (Image, Image) -> real)
    requires ValidStore(left) && ValidStore(right)
    requires Contributes(o.leftEye, left) != Contributes(o.rightEye, right)
    ensures Table(o, left, right, unionOrder, mse).Some?
    ensures TableMatches(Table(o, left, right, unionOrder, mse).value, o, left, right, mse)
  {
    if Contributes(o.leftEye, left) {
      var table := EyeErrors(o.leftEye.value, left, mse);
      assert Table(o, left, right, unionOrder, mse) == Some(table);
      MatchesByEntries(table, o, left, right, mse, left.order, left.templates.Keys);
    } else {
      var table := EyeErrors(o.rightEye.value, right, mse);
      assert Table(o, left, right, unionOrder, mse) == Some(table);
      MatchesByEntries(table, o, left, right, mse, right.order, right.templates.Keys);
    }
  }

  /**
   * Once an eye contributes, the table holds exactly the competing directions, each
   * with its combined error.
   */
  lemma TableEntries(o: Observation, left: Store, right: Store, unionOrder: seq<string>, mse: (Image, Image) -> real)
    requires ValidStore(left) && ValidStore(right)
    requires Enumerates(unionOrder, left.templates.Keys + right.templates.Keys)
    requires Contributes(o.leftEye, left) || Contributes(o.rightEye, right)
    ensures Table(o, left, right, unionOrder, mse).Some?
    ensures TableMatches(Table(o, left, right, unionOrder, mse).value, o, left, right, mse)
  {
    if Contributes(o.leftEye, left) && Contributes(o.rightEye, right) {
      BothEyesTable(o, left, right, unionOrder, mse);
    } else {
      OneEyeTable(o, left, right, unionOrder, mse);
    }
  }

  /* ---------- The detector object ---------- */

  /** The matcher's state: one template store per eye and the current sensitivity. */
  class Detector {
    var leftTemplates: map<string, seq<Image>>
    var leftOrder: seq<string>
    var rightTemplates: map<string, seq<Image>>
    var rightOrder: seq<string>
    var sensitivity: real

    ghost function Left(): Store
      reads this
    {
      Store(leftTemplates, leftOrder)
    }

    ghost function Right(): Store
      reads this
    {
      Store(rightTemplates, rightOrder)
    }

    ghost predicate Valid()
      reads this
    {
      ValidStore(Left()) && ValidStore(Right())
    }

    constructor ()
      ensures Valid() && Left() == EMPTY_STORE && Right() == EMPTY_STORE && sensitivity == 0.015
    {
      leftTemplates, leftOrder := map[], [];
      rightTemplates, rightOrder := map[], [];
      sensitivity := 0.015;
    }

    /** `save_calibration_template`: appends to the chosen eye's list for the direction. */
    method SaveCalibrationTemplate(eyeRoi: Image, direction: string, isLeft: bool)
      requires Valid()
      modifies this
      ensures Valid() && sensitivity == old(sensitivity)
      ensures isLeft ==> Left() == Save(old(Left()), eyeRoi, direction) && Right() == old(Right())
      ensures !isLeft ==> Right() == Save(old(Right()), eyeRoi, direction) && Left() == old(Left())
    {
      if isLeft {
        var existing: seq<Image> := [];
        if direction in leftTemplates {
          existing := leftTemplates[direction];
        } else {
          leftOrder := leftOrder + [direction];
        }
        leftTemplates := leftTemplates[direction := existing + [eyeRoi]];
      } else {
        var existing: seq<Image> := [];
        if direction in rightTemplates {
          existing := rightTemplates[direction];
        } else {
          rightOrder := rightOrder + [direction];
        }
        rightTemplates := rightTemplates[direction := existing + [eyeRoi]];
      }
    }

    /** The detection endpoint's update of the sensitivity before matching. */
    method SetSensitivity(value: real)
      modifies this
      ensures sensitivity == value && Left() == old(Left()) && Right() == old(Right())
    {
      sensitivity := value;
    }

    /** `detect_direction`, given what the face mesh found in the frame. */
    method DetectDirection(o: Observation, unionOrder: seq<string>, mse: (Image, Image) -> real)
      returns (result: DetectResult)
      requires Valid()
      requires Enumerates(unionOrder, leftTemplates.Keys + rightTemplates.Keys)
      ensures result == Detect(o, Left(), Right(), unionOrder, mse, sensitivity)
    {
      if !o.faceFound {
        return Failure(NO_FACE);
      }
      if o.leftEye.None? && o.rightEye.None? {
        return Failure(NO_EYES);
      }
      var leftErrors: seq<Entry> := [];
      var rightErrors: seq<Entry> := [];
      if o.leftEye.Some? {
        leftErrors := ErrorTable(o.leftEye.value, leftTemplates, leftOrder, mse);
      }
      if o.rightEye.Some? {
        rightErrors := ErrorTable(o.rightEye.value, rightTemplates, rightOrder, mse);
      }
      var table := CombineErrors(leftErrors, rightErrors, unionOrder);
      assert table == Table(o, Left(), Right(), unionOrder, mse);
      if table.None? || |table.value| == 0 {
        return Failure(NO_TEMPLATES);
      }
      var combined := table.value;
      var best := BestEntry(combined);
      var confidence := Confidence(combined[best].error, sensitivity);
      result := Detected(combined[best].direction, confidence, combined[best].error);
    }
  }

  /** The per-direction loop over one eye's templates, each direction's list folded by `min`. */
  method ErrorTable(eye: Image, templates: map<string, seq<Image>>, order: seq<string>,
                    mse: (Image, Image) -> real) returns (table: seq<Entry>)
    requires forall d <- order :: d in templates
    ensures table == EyeErrors(eye, Store(templates, order), mse)
  {
    table := [];
    var k := 0;
    while k < |order|
      invariant 0 <= k <= |order|
      invariant table == ErrorsFor(eye, Store(templates, order), order[..k], mse)
    {
      var direction := order[k];
      var least := LeastError(eye, templates[direction], mse);
      ErrorTableStep(eye, templates, order, k, least, mse);
      table := table + [Entry(direction, least)];
      k := k + 1;
    }
    ErrorTableDone(eye, templates, order, mse);
  }

  /** Once every direction is visited, the table is the store's. */
  lemma ErrorTableDone(eye: Image, templates: map<string, seq<Image>>, order: seq<string>,
                       mse: (Image, Image) -> real)
    ensures ErrorsFor(eye, Store(templates, order), order[..|order|], mse)
            == EyeErrors(eye, Store(templates, order), mse)
  {
    assert order[..|order|] == order;
  }

  /** One more direction's entry extends the table built so far. */
  lemma ErrorTableStep(eye: Image, templates: map<string, seq<Image>>, order: seq<string>, k: nat,
                       least: Extended, mse: (Image, Image) -> real)
    requires k < |order| && order[k] in templates
    requires least == MinError(eye, templates[order[k]], mse)
    ensures ErrorsFor(eye, Store(templates, order), order[..k + 1], mse)
            == ErrorsFor(eye, Store(templates, order), order[..k], mse) + [Entry(order[k], least)]
  {
    assert order[..k + 1] == order[..k] + [order[k]];
    ErrorsForSnoc(eye, Store(templates, order), order[..k], order[k], mse);
  }

  /** The inner loop over one direction's templates, folded by `min` from infinity. */
  method LeastError(eye: Image, list: seq<Image>, mse: (Image, Image) -> real) returns (least: Extended)
    ensures least == MinError(eye, list, mse)
  {
    least := Infinite;
    var j := 0;
    while j < |list|
      invariant 0 <= j <= |list|
      invariant least == MinError(eye, list[..j], mse)
    {
      assert list[..j + 1][..j] == list[..j];
      least := MinE(least, CalculateMse(Some(eye), Some(list[j]), mse));
      j := j + 1;
    }
    assert list[..j] == list;
  }

  /** The branch that picks the combined table: both eyes' union, or the one non-empty table. */
  method CombineErrors(left: seq<Entry>, right: seq<Entry>, unionOrder: seq<string>) returns (table: Option<seq<Entry>>)
    ensures table == Combine(left, right, unionOrder)
  {
    if |left| > 0 && |right| > 0 {
      var combined := CombineTables(left, right, unionOrder);
      table := Some(combined);
    } else if |left| > 0 {
      table := Some(left);
    } else if |right| > 0 {
      table := Some(right);
    } else {
      table := None;
    }
  }

  /** The dictionary comprehension over the union of directions. */
  method CombineTables(left: seq<Entry>, right: seq<Entry>, unionOrder: seq<string>) returns (combined: seq<Entry>)
    ensures combined == CombineBoth(left, right, unionOrder)
  {
    combined := [];
    var k := 0;
    while k < |unionOrder|
      invariant 0 <= k <= |unionOrder|
      invariant |combined| == k
      invariant forall i :: 0 <= i < k ==>
                  combined[i] == Entry(unionOrder[i], Mean(Lookup(left, unionOrder[i]), Lookup(right, unionOrder[i])))
    {
      var d := unionOrder[k];
      combined := combined + [Entry(d, Mean(Lookup(left, d), Lookup(right, d)))];
      k := k + 1;
    }
  }

  /** `min` over a table's items keyed by error: the index of the first least entry. */
  method BestEntry(table: seq<Entry>) returns (best: nat)
    requires |table| > 0
    ensures best == ArgMin(table)
  {
    best := 0;
    var k := 1;
    while k < |table|
      invariant 1 <= k <= |table|
      invariant best == ArgMin(table[..k])
    {
      assert table[..k + 1][..k] == table[..k];
      if !Le(table[best].error, table[k].error) {
        best := k;
      }
      k := k + 1;
    }
    assert table[..k] == table;
  }
}
