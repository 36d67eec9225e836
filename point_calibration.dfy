/**
 * The click-to-calibrate machine shared by the calibration page and the setup page: the
 * two pages run the same handler, each over its own sequence of on-screen targets.
 */
module PointCalibration {
  import opened Wrappers

  /** A target: its position as CSS percentages ("10%") and its caption. */
  datatype Target = Target(x: string, y: string, caption: string)

  predicate IsDigit(c: char) {
    '0' <= c <= '9'
  }

  /** The longest prefix of `s` made of decimal digits. */
  function LeadingDigits(s: string): (ds: string)
    ensures ds <= s
    ensures forall i :: 0 <= i < |ds| ==> IsDigit(ds[i])
    ensures |ds| < |s| ==> !IsDigit(s[|ds|])
  {
    if |s| > 0 && IsDigit(s[0]) then [s[0]] + LeadingDigits(s[1..]) else []
  }

  /** The decimal value of a string of digits. */
  function DigitsValue(ds: string): (n: nat)
    requires forall i :: 0 <= i < |ds| ==> IsDigit(ds[i])
    ensures |ds| == 1 ==> n == ds[0] as int - '0' as int
  {
    if |ds| == 0 then 0
    else
      assert IsDigit(ds[|ds| - 1]);
      DigitsValue(ds[..|ds| - 1]) * 10 + (ds[|ds| - 1] as int - '0' as int)
  }

  /**
   * `parseInt` on a string that starts with its digits: the value of the leading digits,
   * or None (NaN) when there are none.
   */
  function ParseInt(s: string): (r: Option<nat>)
    ensures r.None? <==> |s| == 0 || !IsDigit(s[0])
  {
    var ds := LeadingDigits(s);
    if |ds| == 0 then None else Some(DigitsValue(ds))
  }

  /** The two-digit percentages the pages use parse back to their value. */
  lemma ParsePercent(tens: nat, units: nat)
    requires 1 <= tens <= 9 && units <= 9
    ensures ParseInt([('0' as int + tens) as char, ('0' as int + units) as char, '%'])
            == Some(10 * tens + units)
  {
    var s := [('0' as int + tens) as char, ('0' as int + units) as char, '%'];
    assert LeadingDigits(s[2..]) == [];
    assert LeadingDigits(s) == s[..2];
    assert s[..2][..1] == s[..1];
  }

  /** The three positions the pages place targets at. */
  predicate IsGridPercent(s: string) {
    s == "10%" || s == "50%" || s == "90%"
  }

  /** Each grid position parses to its percentage. */
  lemma GridPercentParses(s: string)
    requires IsGridPercent(s)
    ensures ParseInt(s) == Some(if s == "10%" then 10 else if s == "50%" then 50 else 90)
  {
    if s == "10%" {
      ParsePercent(1, 0);
    } else if s == "50%" {
      ParsePercent(5, 0);
    } else {
      ParsePercent(9, 0);
    }
  }

  /**
   * The proximity test on one axis: the click, as a percentage of the viewport extent, lies
   * strictly within 5 of the target. A zero extent gives NaN or an infinity, and a target
   * that does not parse gives NaN; neither passes.
   */
  predicate Near(client: real, extent: real, target: Option<nat>) {
    extent != 0.0 && target.Some? && -5.0 < client / extent * 100.0 - target.value as real < 5.0
  }

  /** A click on the calibration area, and whether it landed on the instruction block. */
  datatype Click = Click(clientX: real, clientY: real, onInstructions: bool)

  /** The page's React state plus the persisted completion flag. */
  datatype CalibrationState = CalibrationState(
    currentStep: nat,
    webgazerInitialized: bool,
    currentPoint: nat,
    showFeedback: bool,
    setupComplete: bool)

  const INITIAL: CalibrationState := CalibrationState(0, false, 0, false, false)

  /**
   * What every reachable state satisfies: the current point indexes the sequence, and
   * the tracker is only initialised after the Begin button.
   */
  predicate ValidState(sequence: seq<Target>, s: CalibrationState) {
    && |sequence| >= 1
    && s.currentPoint < |sequence|
    && (s.webgazerInitialized ==> s.currentStep > 0)
  }

  lemma InitialValid(sequence: seq<Target>)
    requires |sequence| >= 1
    ensures ValidState(sequence, INITIAL)
  {
  }

  /** The Begin Calibration button. */
  function Begin(s: CalibrationState): (r: CalibrationState)
    ensures r.currentStep == 1 && r.currentPoint == s.currentPoint
    ensures r == s.(currentStep := 1)
  {
    s.(currentStep := 1)
  }

  /** The end of the initialisation effect, which starts the tracker once past step 0. */
  function WebGazerReady(s: CalibrationState, success: bool): (r: CalibrationState)
    ensures r.webgazerInitialized <==> s.webgazerInitialized || (success && s.currentStep > 0)
    ensures r.(webgazerInitialized := s.webgazerInitialized) == s
  {
    if s.currentStep > 0 && success then s.(webgazerInitialized := true) else s
  }

  /** Whether `handleCalibrationClick` accepts `click` for the current target. */
  predicate Accepted(sequence: seq<Target>, s: CalibrationState, click: Click, width: real, height: real)
    requires s.currentPoint < |sequence|
  {
    && s.webgazerInitialized
    && !click.onInstructions
    && Near(click.clientX, width, ParseInt(sequence[s.currentPoint].x))
    && Near(click.clientY, height, ParseInt(sequence[s.currentPoint].y))
  }

  /** The state after a click and whether the click was recorded with the tracker. */
  datatype ClickResult = ClickResult(state: CalibrationState, recorded: bool)

  /** `handleCalibrationClick`. */
  function HandleClick(sequence: seq<Target>, s: CalibrationState, click: Click, width: real, height: real): (r: ClickResult)
    requires ValidState(sequence, s)
    ensures ValidState(sequence, r.state)
    ensures r.recorded <==> Accepted(sequence, s, click, width, height)
    ensures !r.recorded ==> r.state == s
    ensures r.recorded ==> r.state.showFeedback
    ensures r.state.currentPoint == s.currentPoint + 1 <==> r.recorded && s.currentPoint < |sequence| - 1
    ensures r.state.currentPoint != s.currentPoint + 1 ==> r.state.currentPoint == s.currentPoint
    ensures r.state.(showFeedback := s.showFeedback, currentPoint := s.currentPoint) == s
  {
    if !Accepted(sequence, s, click, width, height) then
      ClickResult(s, false)
    else
      var next := if s.currentPoint < |sequence| - 1 then s.currentPoint + 1 else s.currentPoint;
      ClickResult(s.(showFeedback := true, currentPoint := next), true)
  }

  /** The timer that hides the feedback badge. */
  function FeedbackTimeout(s: CalibrationState): (r: CalibrationState)
    ensures !r.showFeedback && r.(showFeedback := s.showFeedback) == s
  {
    s.(showFeedback := false)
  }

  /** `handleComplete`: records that setup is done (the navigation is not modelled). */
  function Complete(s: CalibrationState): (r: CalibrationState)
    ensures r.setupComplete && r.(setupComplete := s.setupComplete) == s
  {
    s.(setupComplete := true)
  }

  /** The Complete button is rendered. */
  predicate CompleteOffered(sequence: seq<Target>, s: CalibrationState) {
    s.currentPoint >= |sequence| - 1
  }

  /** The heading: the point counter, or the completion message. */
  datatype Heading = Progress(point: nat, total: nat) | CalibrationComplete

  function HeadingFor(sequence: seq<Target>, s: CalibrationState): Heading {
    if s.currentPoint < |sequence| then Progress(s.currentPoint + 1, |sequence|) else CalibrationComplete
  }

  /** The caption under the heading: the current target's, or empty past the end. */
  function CaptionFor(sequence: seq<Target>, s: CalibrationState): (c: string)
    ensures s.currentPoint < |sequence| ==> c == sequence[s.currentPoint].caption
  {
    if s.currentPoint < |sequence| then sequence[s.currentPoint].caption else ""
  }

  /**
   * In every reachable state the heading counts points, from 1 to the sequence length,
   * and never reads "Calibration Complete!"; the Complete button is offered exactly at the
   * last point.
   */
  lemma HeadingNeverCompletes(sequence: seq<Target>, s: CalibrationState)
    requires ValidState(sequence, s)
    ensures HeadingFor(sequence, s) != CalibrationComplete
    ensures 1 <= HeadingFor(sequence, s).point <= |sequence| == HeadingFor(sequence, s).total
    ensures CompleteOffered(sequence, s) <==> s.currentPoint == |sequence| - 1
  {
  }

  /** Clicking exactly on a target's centre, in client pixels. */
  function ClickAt(t: Target, width: real, height: real): Click {
    Click(PercentOf(ParseInt(t.x).GetOr(0), width), PercentOf(ParseInt(t.y).GetOr(0), height), false)
  }

  /** The client coordinate `p` percent along `extent`. */
  function PercentOf(p: nat, extent: real): real {
    p as real * extent / 100.0
  }

  /** A click on the target's centre is near it on a non-empty viewport. */
  lemma ClickAtIsNear(t: Target, width: real, height: real)
    requires width > 0.0 && height > 0.0
    requires ParseInt(t.x).Some? && ParseInt(t.y).Some?
    ensures Near(ClickAt(t, width, height).clientX, width, ParseInt(t.x))
    ensures Near(ClickAt(t, width, height).clientY, height, ParseInt(t.y))
  {
    CentreIsNear(ParseInt(t.x).value, width);
    CentreIsNear(ParseInt(t.y).value, height);
  }

  /** The point `p` percent along a positive extent passes the proximity test for `p`. */
  lemma CentreIsNear(p: nat, extent: real)
    requires extent > 0.0
    ensures Near(PercentOf(p, extent), extent, Some(p))
  {
    var c := PercentOf(p, extent);
    assert c == (p as real / 100.0) * extent;
    assert c / extent == p as real / 100.0;
  }

  /** Every target's coordinates parse. */
  predicate Parses(sequence: seq<Target>) {
    forall i :: 0 <= i < |sequence| ==> ParseInt(sequence[i].x).Some? && ParseInt(sequence[i].y).Some?
  }

  /** Every target of the sequence sits on the grid. */
  predicate OnGrid(sequence: seq<Target>) {
    forall i :: 0 <= i < |sequence| ==> IsGridPercent(sequence[i].x) && IsGridPercent(sequence[i].y)
  }

  /** Showing two grid sequences one after the other stays on the grid. */
  lemma OnGridAppend(a: seq<Target>, b: seq<Target>)
    requires OnGrid(a) && OnGrid(b)
    ensures OnGrid(a + b)
  {
    forall i | 0 <= i < |a + b|
      ensures IsGridPercent((a + b)[i].x) && IsGridPercent((a + b)[i].y)
    {
      if i >= |a| {
        assert (a + b)[i] == b[i - |a|];
      }
    }
  }

  /** A sequence whose targets all sit on the grid parses throughout. */
  lemma GridSequenceParses(sequence: seq<Target>)
    requires OnGrid(sequence)
    ensures Parses(sequence)
  {
    forall i | 0 <= i < |sequence|
      ensures ParseInt(sequence[i].x).Some? && ParseInt(sequence[i].y).Some?
    {
      GridPercentParses(sequence[i].x);
      GridPercentParses(sequence[i].y);
    }
  }

  /** The state after `k` clicks, each on the centre of the then current target. */
  function ClickThrough(sequence: seq<Target>, s: CalibrationState, k: nat, width: real, height: real): (r: CalibrationState)
    requires ValidState(sequence, s)
    ensures ValidState(sequence, r)
    decreases k
  {
    if k == 0 then s
    else
      var next := HandleClick(sequence, s, ClickAt(sequence[s.currentPoint], width, height), width, height).state;
      ClickThrough(sequence, next, k - 1, width, height)
  }

  /**
   * Once the tracker is initialised, `k` clicks on the successive targets advance the
   * counter by `k`, up to the last point, where it stays.
   */
  lemma {:induction false} ClickingThroughAdvances(sequence: seq<Target>, s: CalibrationState, k: nat, width: real, height: real)
    requires ValidState(sequence, s) && s.webgazerInitialized && Parses(sequence)
    requires width > 0.0 && height > 0.0
    ensures ClickThrough(sequence, s, k, width, height).currentPoint
            == if s.currentPoint + k < |sequence| then s.currentPoint + k else |sequence| - 1
    decreases k
  {
    if k > 0 {
      var t := sequence[s.currentPoint];
      ClickAtIsNear(t, width, height);
      var next := HandleClick(sequence, s, ClickAt(t, width, height), width, height).state;
      assert next.webgazerInitialized;
      ClickingThroughAdvances(sequence, next, k - 1, width, height);
    }
  }

  /** The page's state, held in fields that its handlers update in place. */
  class Page {
    const sequence: seq<Target>
    var currentStep: nat
    var webgazerInitialized: bool
    var currentPoint: nat
    var showFeedback: bool
    var setupComplete: bool

    ghost function State(): CalibrationState
      reads this
    {
      CalibrationState(currentStep, webgazerInitialized, currentPoint, showFeedback, setupComplete)
    }

    ghost predicate Valid()
      reads this
    {
      ValidState(sequence, State())
    }

    constructor (sequence: seq<Target>)
      requires |sequence| >= 1
      ensures this.sequence == sequence && State() == INITIAL && Valid()
    {
      this.sequence := sequence;
      currentStep, webgazerInitialized, currentPoint := 0, false, 0;
      showFeedback, setupComplete := false, false;
    }

    /** The Begin Calibration button. */
    method BeginCalibration()
      modifies this
      ensures State() == Begin(old(State()))
    {
      currentStep := 1;
    }

    /** The initialisation effect, once `initializeWebGazer` has answered `success`. */
    method InitializeEffect(success: bool)
      modifies this
      ensures State() == WebGazerReady(old(State()), success)
    {
      if currentStep > 0 && success {
        webgazerInitialized := true;
      }
    }

    /** `handleCalibrationClick`: reports whether the click was recorded with the tracker. */
    method HandleCalibrationClick(click: Click, width: real, height: real) returns (recorded: bool)
      requires Valid()
      modifies this
      ensures Valid()
      ensures ClickResult(State(), recorded) == HandleClick(sequence, old(State()), click, width, height)
    {
      recorded := false;
      if !webgazerInitialized || click.onInstructions {
        return;
      }
      if width == 0.0 || height == 0.0 {
        return;
      }
      var clickedX := click.clientX / width * 100.0;
      var clickedY := click.clientY / height * 100.0;
      var target := sequence[currentPoint];
      var targetX := ParseInt(target.x);
      var targetY := ParseInt(target.y);
      if targetX.Some? && targetY.Some?
         && -5.0 < clickedX - targetX.value as real < 5.0
         && -5.0 < clickedY - targetY.value as real < 5.0
      {
        recorded := true;
        showFeedback := true;
        if currentPoint < |sequence| - 1 {
          currentPoint := currentPoint + 1;
        }
      }
    }

    /** The 500 ms feedback timer firing. */
    method HideFeedback()
      modifies this
      ensures State() == FeedbackTimeout(old(State()))
    {
      showFeedback := false;
    }

    /** `handleComplete`. */
    method HandleComplete()
      modifies this
      ensures State() == Complete(old(State()))
    {
      setupComplete := true;
    }
  }
}
