/** The setup page: the shared click-to-calibrate machine over nine targets. */
module SetupPage {
  import opened PointCalibration

  /** The nine targets, in the order they are shown. */
  const CALIBRATION_SEQUENCE: seq<Target> := [
    Target("10%", "10%", "Top Left"),
    Target("90%", "90%", "Bottom Right"),
    Target("90%", "10%", "Top Right"),
    Target("10%", "90%", "Bottom Left"),
    Target("50%", "10%", "Top Center"),
    Target("50%", "90%", "Bottom Center"),
    Target("10%", "50%", "Middle Left"),
    Target("90%", "50%", "Middle Right"),
    Target("50%", "50%", "Center")
  ]

  /** Nine targets, all on the 10/50/90 grid, so every coordinate parses. */
  lemma SequenceOnGrid()
    ensures |CALIBRATION_SEQUENCE| == 9
    ensures OnGrid(CALIBRATION_SEQUENCE)
    ensures Parses(CALIBRATION_SEQUENCE)
  {
    GridSequenceParses(CALIBRATION_SEQUENCE);
  }

  /**
   * In every reachable state the point counter is at most 8, the heading reads
   * "(n/9)" and never "Calibration Complete!", and the Complete button shows exactly at 8.
   */
  lemma CounterInvariant(s: CalibrationState)
    requires ValidState(CALIBRATION_SEQUENCE, s)
    ensures s.currentPoint <= 8
    ensures HeadingFor(CALIBRATION_SEQUENCE, s) == Progress(s.currentPoint + 1, 9)
    ensures CompleteOffered(CALIBRATION_SEQUENCE, s) <==> s.currentPoint == 8
  {
    HeadingNeverCompletes(CALIBRATION_SEQUENCE, s);
  }

  /**
   * An accepted click advances the counter by one below 8 and leaves it at 8; any
   * other click changes nothing.
   */
  lemma ClickAdvancesToEight(s: CalibrationState, click: Click, width: real, height: real)
    requires ValidState(CALIBRATION_SEQUENCE, s)
    ensures Accepted(CALIBRATION_SEQUENCE, s, click, width, height) && s.currentPoint < 8 ==>
              HandleClick(CALIBRATION_SEQUENCE, s, click, width, height).state.currentPoint == s.currentPoint + 1
    ensures s.currentPoint == 8 ==>
              HandleClick(CALIBRATION_SEQUENCE, s, click, width, height).state.currentPoint == 8
    ensures !Accepted(CALIBRATION_SEQUENCE, s, click, width, height) ==>
              HandleClick(CALIBRATION_SEQUENCE, s, click, width, height).state == s
  {
  }

  /**
   * From the first point with the tracker running, eight clicks on the targets bring up
   * the Complete button.
   */
  lemma EightClicksOfferComplete(s: CalibrationState, width: real, height: real)
    requires ValidState(CALIBRATION_SEQUENCE, s) && s.webgazerInitialized && s.currentPoint == 0
    requires width > 0.0 && height > 0.0
    ensures CompleteOffered(CALIBRATION_SEQUENCE, ClickThrough(CALIBRATION_SEQUENCE, s, 8, width, height))
  {
    SequenceOnGrid();
    ClickingThroughAdvances(CALIBRATION_SEQUENCE, s, 8, width, height);
  }
}
