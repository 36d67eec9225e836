/**
 * The test page: calibrates six gaze directions against the detection server, one step
 * per button press, then polls the server for the current direction.
 */
module TestPage {
  import opened Wrappers

  /** One calibration step: the direction sent to the server and its caption. */
  datatype CalibrationTarget = CalibrationTarget(direction: string, caption: string)

  const CALIBRATION_SEQUENCE: seq<CalibrationTarget> := [
    CalibrationTarget("center", "Center"),
    CalibrationTarget("left", "Left"),
    CalibrationTarget("right", "Right"),
    CalibrationTarget("up", "Up"),
    CalibrationTarget("up-left", "Up-Left"),
    CalibrationTarget("up-right", "Up-Right")
  ]

  /** The index of the last step. */
  const LAST_STEP: nat := 5

  const FRAME_FAILED: string := "Failed to capture frame"
  const CALIBRATION_FAILED: string := "Calibration failed. Please try again."

  /** The six directions are distinct. */
  lemma DirectionsDistinct()
    ensures |CALIBRATION_SEQUENCE| == LAST_STEP + 1
    ensures forall i, j :: 0 <= i < j <= LAST_STEP ==>
              CALIBRATION_SEQUENCE[i].direction != CALIBRATION_SEQUENCE[j].direction
  {
  }

  /**
   * A body the detection endpoint sends: an error object, a detection (whose `error`
   * field is the matching error, a number), or the framework's error object, which has
   * only a `detail` field.
   */
  datatype DetectBody =
    | ErrorBody(message: string)
    | DirectionBody(direction: string, confidence: real, matchError: real)
    | DetailBody(detail: string)

  /** What the error banner holds: a message, or whatever number was stored there. */
  datatype ErrorValue = Text(text: string) | Number(number: real)

  /** The outcome of one calibration press, as far as the page sees it. */
  datatype Exchange =
    | FrameMissing
    | Responded(leftStatus: Option<string>, rightStatus: Option<string>)
    | Threw(message: string)

  /** The outcome of one polling tick. */
  datatype Tick = NoFrame | Replied(body: DetectBody) | TickThrew(message: string)

  /** The page's React state, plus whether the polling interval is running. */
  datatype TestState = TestState(
    isCalibrating: bool,
    step: nat,
    progress: map<string, bool>,
    direction: Option<DetectBody>,
    error: Option<ErrorValue>,
    tracking: bool)

  const INITIAL: TestState := TestState(true, 0, map[], None, None, false)

  /** The directions of the first `k` steps. */
  function DirectionsBefore(k: nat): (ds: set<string>)
    requires k <= LAST_STEP + 1
    ensures forall i :: 0 <= i < k ==> CALIBRATION_SEQUENCE[i].direction in ds
  {
    set i | 0 <= i < k :: CALIBRATION_SEQUENCE[i].direction
  }

  /** The progress map after the first `k` steps succeeded: each of their directions done. */
  function Done(k: nat): (m: map<string, bool>)
    requires k <= LAST_STEP + 1
    ensures m.Keys == DirectionsBefore(k)
    ensures forall d :: d in m ==> m[d]
  {
    map d | d in DirectionsBefore(k) :: true
  }

  /**
   * What every reachable state satisfies: while calibrating, the steps before the current
   * one are done and tracking is off; afterwards all six are done, the step stays at the
   * last one, and tracking runs.
   */
  predicate ValidState(s: TestState) {
    && s.step <= LAST_STEP
    && (s.isCalibrating ==> s.progress == Done(s.step) && !s.tracking)
    && (!s.isCalibrating ==> s.step == LAST_STEP && s.progress == Done(LAST_STEP + 1) && s.tracking)
  }

  lemma InitialValid()
    ensures ValidState(INITIAL)
  {
    assert Done(0) == map[];
  }

  /** Both calibration requests answered with status "success". */
  predicate Succeeded(x: Exchange) {
    x.Responded? && x.leftStatus == Some("success") && x.rightStatus == Some("success")
  }

  /** Marking step `k` done extends the progress of the steps before it. */
  lemma DoneStep(k: nat)
    requires k <= LAST_STEP
    ensures Done(k)[CALIBRATION_SEQUENCE[k].direction := true] == Done(k + 1)
  {
    var d := CALIBRATION_SEQUENCE[k].direction;
    assert DirectionsBefore(k + 1) == DirectionsBefore(k) + {d} by {
      forall e | e in DirectionsBefore(k + 1) ensures e in DirectionsBefore(k) + {d} {
        var i :| 0 <= i < k + 1 && CALIBRATION_SEQUENCE[i].direction == e;
        if i < k {
          assert e in DirectionsBefore(k);
        }
      }
    }
  }

  /**
   * `calibrateDirection`, pressed while calibrating (the button exists only then). Both
   * successes mark the step's direction done, clear the error, and move to the next step
   * or, at the last one, stop calibrating and start tracking. Every other outcome only
   * sets an error message.
   */
  function Calibrate(s: TestState, x: Exchange): (r: TestState)
    requires ValidState(s) && s.isCalibrating
    ensures ValidState(r)
    ensures Succeeded(x) ==> r.progress == s.progress[CALIBRATION_SEQUENCE[s.step].direction := true]
    ensures Succeeded(x) ==> r.error.None? && r.direction == s.direction
    ensures Succeeded(x) && s.step < LAST_STEP ==> r.step == s.step + 1 && r.isCalibrating
    ensures Succeeded(x) && s.step == LAST_STEP ==> r.step == s.step && !r.isCalibrating && r.tracking
    ensures !Succeeded(x) ==> r.error.Some? && r == s.(error := r.error)
  {
    var current := CALIBRATION_SEQUENCE[s.step].direction;
    match x
    case FrameMissing => s.(error := Some(Text(FRAME_FAILED)))
    case Threw(message) => s.(error := Some(Text("Calibration error: " + message)))
    case Responded(left, right) =>
      if left == Some("success") && right == Some("success") then
        DoneStep(s.step);
        var marked := s.(progress := s.progress[current := true], error := None);
        if s.step < LAST_STEP then marked.(step := s.step + 1)
        else marked.(isCalibrating := false, tracking := true)
      else
        s.(error := Some(Text(CALIBRATION_FAILED)))
  }

  /** `handleRecalibrate`: back to the initial state, except that the error message stays. */
  function Recalibrate(s: TestState): (r: TestState)
    ensures ValidState(r)
    ensures r == INITIAL.(error := s.error)
  {
    InitialValid();
    s.(isCalibrating := true, step := 0, progress := map[], direction := None, tracking := false)
  }

  /** `n` presses in a row that both calibration requests answer with success. */
  function SucceedTimes(s: TestState, n: nat): (r: TestState)
    requires ValidState(s) && s.isCalibrating && s.step + n <= LAST_STEP + 1
    ensures ValidState(r)
    decreases n
  {
    if n == 0 then s
    else
      var next := Calibrate(s, Responded(Some("success"), Some("success")));
      if n == 1 then next else SucceedTimes(next, n - 1)
  }

  /** Successes from step `k` reach the step `k + n`, or finish after the last one. */
  lemma {:induction false} SucceedTimesAdvances(s: TestState, n: nat)
    requires ValidState(s) && s.isCalibrating && s.step + n <= LAST_STEP + 1
    ensures s.step + n <= LAST_STEP ==> SucceedTimes(s, n).step == s.step + n && SucceedTimes(s, n).isCalibrating
    ensures s.step + n == LAST_STEP + 1 ==> !SucceedTimes(s, n).isCalibrating
    decreases n
  {
    if n > 1 {
      var next := Calibrate(s, Responded(Some("success"), Some("success")));
      SucceedTimesAdvances(next, n - 1);
    }
  }

  /**
   * After a recalibration, six successful presses finish calibrating: every direction is
   * marked done and tracking runs.
   */
  lemma SixSuccessesFinish(s: TestState)
    ensures var r := SucceedTimes(Recalibrate(s), LAST_STEP + 1);
            && !r.isCalibrating && r.tracking
            && forall i :: 0 <= i <= LAST_STEP ==>
                 (CALIBRATION_SEQUENCE[i].direction in r.progress && r.progress[CALIBRATION_SEQUENCE[i].direction])
  {
    SucceedTimesAdvances(Recalibrate(s), LAST_STEP + 1);
  }

  /** The JavaScript truthiness of a body's `error` field. */
  predicate ErrorFieldTruthy(body: DetectBody) {
    match body
    case ErrorBody(message) => message != ""
    case DirectionBody(_, _, matchError) => matchError != 0.0
    case DetailBody(_) => false
  }

  /** The value a body's `error` field holds, when it has one. */
  function ErrorField(body: DetectBody): ErrorValue
    requires ErrorFieldTruthy(body)
  {
    match body
    case ErrorBody(message) => Text(message)
    case DirectionBody(_, _, matchError) => Number(matchError)
  }

  /**
   * One polling tick as written: a body whose `error` field is truthy is shown as the error
   * and the previous direction stays; any other body becomes the direction and clears it.
   */
  function TrackingTickAsWritten(s: TestState, t: Tick): (r: TestState)
    ensures t.Replied? && ErrorFieldTruthy(t.body) ==>
              r == s.(error := Some(ErrorField(t.body)))
    ensures t.Replied? && !ErrorFieldTruthy(t.body) ==>
              r == s.(direction := Some(t.body), error := None)
    ensures t.NoFrame? ==> r == s
  {
    match t
    case NoFrame => s
    case TickThrew(message) => s.(error := Some(Text("Detection error: " + message)))
    case Replied(body) =>
      if ErrorFieldTruthy(body) then s.(error := Some(ErrorField(body)))
      else s.(direction := Some(body), error := None)
  }

  /**
   * Because a detection's `error` field is its matching error, every detection that is not
   * an exact template match is shown as an error and never replaces the direction.
   */
  lemma DetectionShownAsError(s: TestState, direction: string, confidence: real, matchError: real)
    requires matchError != 0.0
    ensures var body := DirectionBody(direction, confidence, matchError);
            TrackingTickAsWritten(s, Replied(body)) == s.(error := Some(Number(matchError)))
  {
  }

  /**
   * One polling tick as intended: an error object is shown as the error and the previous
   * direction stays; any other body, a detection among them, becomes the direction and
   * clears the error.
   */
  function TrackingTick(s: TestState, t: Tick): (r: TestState)
    ensures t.Replied? && t.body.ErrorBody? ==> r == s.(error := Some(Text(t.body.message)))
    ensures t.Replied? && !t.body.ErrorBody? ==> r == s.(direction := Some(t.body), error := None)
    ensures t.Replied? && t.body.DirectionBody? ==> r.direction == Some(t.body) && r.error.None?
    ensures t.NoFrame? ==> r == s
  {
    match t
    case NoFrame => s
    case TickThrew(message) => s.(error := Some(Text("Detection error: " + message)))
    case Replied(body) =>
      if body.ErrorBody? then s.(error := Some(Text(body.message)))
      else s.(direction := Some(body), error := None)
  }

  /**
   * The intended tick differs from the written one exactly on detections with a non-zero
   * matching error (the server never sends an empty error message).
   */
  lemma TicksDifferOnlyOnDetections(s: TestState, t: Tick)
    requires t.Replied? && t.body.ErrorBody? ==> t.body.message != ""
    ensures TrackingTick(s, t) != TrackingTickAsWritten(s, t) <==>
              t.Replied? && t.body.DirectionBody? && t.body.matchError != 0.0
  {
    if t.Replied? && t.body.DirectionBody? && t.body.matchError != 0.0 {
      assert TrackingTick(s, t).direction == Some(t.body);
      assert TrackingTickAsWritten(s, t).error == Some(Number(t.body.matchError));
    }
  }

  /** A tick, as written or as intended, never touches the calibration state. */
  lemma TickKeepsCalibration(s: TestState, t: Tick)
    requires ValidState(s)
    ensures ValidState(TrackingTickAsWritten(s, t)) && ValidState(TrackingTick(s, t))
    ensures TrackingTickAsWritten(s, t).(direction := s.direction, error := s.error) == s
    ensures TrackingTick(s, t).(direction := s.direction, error := s.error) == s
  {
  }

  /** The page's state, held in fields that its handlers update in place. */
  class Page {
    var isCalibrating: bool
    var currentCalibrationStep: nat
    var calibrationProgress: map<string, bool>
    var direction: Option<DetectBody>
    var error: Option<ErrorValue>
    var tracking: bool

    ghost function State(): TestState
      reads this
    {
      TestState(isCalibrating, currentCalibrationStep, calibrationProgress, direction, error, tracking)
    }

    constructor ()
      ensures State() == INITIAL && ValidState(State())
    {
      isCalibrating, currentCalibrationStep, calibrationProgress := true, 0, map[];
      direction, error, tracking := None, None, false;
      new;
      InitialValid();
    }

    /** `calibrateDirection`, given how the frame captures and the two requests turned out. */
    method CalibrateDirection(x: Exchange)
      requires ValidState(State()) && isCalibrating
      modifies this
      ensures State() == Calibrate(old(State()), x)
    {
      var currentDirection := CALIBRATION_SEQUENCE[currentCalibrationStep].direction;
      match x {
        case FrameMissing =>
          error := Some(Text(FRAME_FAILED));
        case Threw(message) =>
          error := Some(Text("Calibration error: " + message));
        case Responded(left, right) =>
          if left == Some("success") && right == Some("success") {
            calibrationProgress := calibrationProgress[currentDirection := true];
            if currentCalibrationStep < |CALIBRATION_SEQUENCE| - 1 {
              currentCalibrationStep := currentCalibrationStep + 1;
            } else {
              isCalibrating := false;
              tracking := true;
            }
            error := None;
          } else {
            error := Some(Text(CALIBRATION_FAILED));
          }
      }
    }

    /** `handleRecalibrate`. */
    method HandleRecalibrate()
      modifies this
      ensures State() == Recalibrate(old(State()))
    {
      tracking := false;
      isCalibrating := true;
      currentCalibrationStep := 0;
      calibrationProgress := map[];
      direction := None;
    }

    /** One tick of the polling interval, handling its reply as the page does. */
    method TrackingTickHandler(t: Tick)
      modifies this
      ensures State() == TrackingTickAsWritten(old(State()), t)
    {
      match t {
        case NoFrame =>
          return;
        case TickThrew(message) =>
          error := Some(Text("Detection error: " + message));
        case Replied(body) =>
          if ErrorFieldTruthy(body) {
            error := Some(ErrorField(body));
          } else {
            direction := Some(body);
            error := None;
          }
      }
    }
  }
}
