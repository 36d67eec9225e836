/**
 * The calibration page: the shared click-to-calibrate machine over eighteen targets, the
 * setup page's nine shown twice.
 */
module CalibratePage {
  import opened PointCalibration
  import SetupPage

  /** The eighteen targets, in the order they are shown. */
  const CALIBRATION_SEQUENCE: seq<Target> := [
    Target("10%", "10%", "Top Left"),
    Target("90%", "90%", "Bottom Right"),
    Target("90%", "10%", "Top Right"),
    Target("10%", "90%", "Bottom Left"),
    Target("50%", "10%", "Top Center"),
    Target("50%", "90%", "Bottom Center"),
    Target("10%", "50%", "Middle Left"),
    Target("90%", "50%", "Middle Right"),
    Target("50%", "50%", "Center"),
    Target("10%", "10%", "Top Left"),
    Target("90%", "90%", "Bottom Right"),
    Target("90%", "10%", "Top Right"),
    Target("10%", "90%", "Bottom Left"),
    Target("50%", "10%", "Top Center"),
    Target("50%", "90%", "Bottom Center"),
    Target("10%", "50%", "Middle Left"),
    Target("90%", "50%", "Middle Right"),
    Target("50%", "50%", "Center")
  ]

  /** The eighteen targets are the setup page's nine twice over. */
  lemma SequenceIsSetupTwice()
    ensures CALIBRATION_SEQUENCE == SetupPage.CALIBRATION_SEQUENCE + SetupPage.CALIBRATION_SEQUENCE
  {
    var setup := SetupPage.CALIBRATION_SEQUENCE;
    assert CALIBRATION_SEQUENCE[..9] == setup;
    assert CALIBRATION_SEQUENCE[9..] == setup;
    assert CALIBRATION_SEQUENCE == CALIBRATION_SEQUENCE[..9] + CALIBRATION_SEQUENCE[9..];
  }

  /** Eighteen targets, all on the grid, so every coordinate parses. */
  lemma SequenceOnGrid()
    ensures |CALIBRATION_SEQUENCE| == 18
    ensures Parses(CALIBRATION_SEQUENCE)
  {
    SequenceIsSetupTwice();
    SetupPage.SequenceOnGrid();
    OnGridAppend(SetupPage.CALIBRATION_SEQUENCE, SetupPage.CALIBRATION_SEQUENCE);
    GridSequenceParses(CALIBRATION_SEQUENCE);
  }

  /**
   * In every reachable state the point counter is at most 17, the heading reads
   * "(n/18)" and never "Calibration Complete!", and the Complete button shows exactly at 17.
   */
  lemma CounterInvariant(s: CalibrationState)
    requires ValidState(CALIBRATION_SEQUENCE, s)
    ensures s.currentPoint <= 17
    ensures HeadingFor(CALIBRATION_SEQUENCE, s) == Progress(s.currentPoint + 1, 18)
    ensures CompleteOffered(CALIBRATION_SEQUENCE, s) <==> s.currentPoint == 17
  {
    HeadingNeverCompletes(CALIBRATION_SEQUENCE, s);
  }

  /**
   * An accepted click advances the counter by one below 17 and leaves it at 17; any
   * other click changes nothing.
   */
  lemma ClickAdvancesToSeventeen(s: CalibrationState, click: Click, width: real, height: real)
    requires ValidState(CALIBRATION_SEQUENCE, s)
    ensures Accepted(CALIBRATION_SEQUENCE, s, click, width, height) && s.currentPoint < 17 ==>
              HandleClick(CALIBRATION_SEQUENCE, s, click, width, height).state.currentPoint == s.currentPoint + 1
    ensures s.currentPoint == 17 ==>
              HandleClick(CALIBRATION_SEQUENCE, s, click, width, height).state.currentPoint == 17
    ensures !Accepted(CALIBRATION_SEQUENCE, s, click, width, height) ==>
              HandleClick(CALIBRATION_SEQUENCE, s, click, width, height).state == s
  {
  }

  /**
   * From the first point with the tracker running, seventeen clicks on the targets bring
   * up the Complete button, and further clicks keep it there.
   */
  lemma SeventeenClicksOfferComplete(s: CalibrationState, extra: nat, width: real, height: real)
    requires ValidState(CALIBRATION_SEQUENCE, s) && s.webgazerInitialized && s.currentPoint == 0
    requires width > 0.0 && height > 0.0
    ensures ClickThrough(CALIBRATION_SEQUENCE, s, 17 + extra, width, height).currentPoint == 17
  {
    SequenceOnGrid();
    ClickingThroughAdvances(CALIBRATION_SEQUENCE, s, 17 + extra, width, height);
  }
}
