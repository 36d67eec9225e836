/**
 * The text-input page: four letter-range slots plus "clear" and "delete" hot bands at
 * the top and bottom of the middle column. Its mode is kept in three boolean flags
 * that start as character mode and are never changed.
 */
module TextInputPage {
  import opened Wrappers
  import opened JsText
  import opened GazeRegions
  import opened Dwell
  import opened Predictions
  import SpeakPage

  type Mode = SpeakPage.Mode

  /** The fixed context every request of this page carries. */
  const CONTEXT: string := "What do you want to eat?"

  /** `y < innerHeight * 0.2` within the open middle 20% of the width. */
  predicate ClearBand(x: real, y: real, width: real, height: real) {
    y < height * 0.2 && x > width * 0.4 && x < width * 0.6
  }

  /** `y > innerHeight * 0.8` within the same columns. */
  predicate DeleteBand(x: real, y: real, width: real, height: real) {
    y > height * 0.8 && x > width * 0.4 && x < width * 0.6
  }

  /**
   * `getGazeRegion(x, y)`: the hot bands are tested first; otherwise the point is
   * classified as on the speaking page, except that its mode-switch column is centre here.
   */
  function GetGazeRegion(x: real, y: real, width: real, height: real): (r: Region)
    ensures r == Clear <==> ClearBand(x, y, width, height)
    ensures r == Delete <==> !ClearBand(x, y, width, height) && DeleteBand(x, y, width, height)
    ensures !ClearBand(x, y, width, height) && !DeleteBand(x, y, width, height) ==>
              r == (var q := SpeakPage.GetGazeRegion(x, y, width, height); if q == ModeSwitch then Center else q)
    ensures r != ModeSwitch
  {
    if y < height * 0.2 && x > width * 0.4 && x < width * 0.6 then
      Clear
    else if y > height * 0.8 && x > width * 0.4 && x < width * 0.6 then
      Delete
    else if y < height * 0.4 then
      if x < width * 0.4 then LeftUp
      else if x > width * 0.6 then RightUp
      else Center
    else if y > height * 0.6 then
      if x < width * 0.4 then LeftDown
      else if x > width * 0.6 then RightDown
      else Center
    else
      Center
  }

  /**
   * On the screen the clear band lies inside the upper band and the delete band inside
   * the lower band; the rest of the middle column of the upper band, its edges included,
   * is centre.
   */
  lemma ScreenRegions(x: real, y: real, width: real, height: real)
    requires width >= 0.0 && height >= 0.0
    ensures ClearBand(x, y, width, height) ==> UpperBand(y, height) && MiddleColumn(x, width)
    ensures DeleteBand(x, y, width, height) ==> LowerBand(y, height) && MiddleColumn(x, width)
    ensures UpperBand(y, height) && MiddleColumn(x, width) && !ClearBand(x, y, width, height) ==>
              GetGazeRegion(x, y, width, height) == Center
  {
    BandsOnViewport(x, y, width, height);
  }

  /**
   * `getPredictionForRegion(region, mode)`: None where the source throws, reading `.label`
   * of a region without a `GAZE_REGIONS` entry in character mode. Where it returns, it
   * returns the speaking page's candidate for that region and mode.
   */
  function GetPredictionForRegion(region: Region, mode: Mode, c: Candidates): (r: Option<string>)
    ensures r.None? <==> mode == SpeakPage.Character && region !in SLOTS
    ensures r.Some? ==> r.value == SpeakPage.Candidate(region, mode, c)
  {
    match mode
    case Character => Label(region)
    case Word => Some(OrDefault(ElementAt(c.wordOptions, SlotIndex(region)), NO_PREDICTION))
    case Sentence => Some(OrDefault(ElementAt(c.sentenceOptions, SlotIndex(region)), NO_PREDICTION))
  }

  /** The modes whose predictions a slot's three lines show, from the nested conditionals. */
  function DisplayModes(isCharacterMode: bool, isWordMode: bool): (modes: seq<Mode>)
    ensures |modes| == 3
  {
    [ if isCharacterMode then SpeakPage.Character else if isWordMode then SpeakPage.Word else SpeakPage.Sentence,
      if isCharacterMode then (if isWordMode then SpeakPage.Word else SpeakPage.Sentence)
      else if isCharacterMode then SpeakPage.Character else SpeakPage.Word,
      if isCharacterMode then SpeakPage.Sentence else if isWordMode then SpeakPage.Character else SpeakPage.Word ]
  }

  /**
   * Unless both flags are set, the lines repeat one mode and leave another out. With the
   * page's flags (character on, word off) the letter range is followed by the sentence
   * prediction twice, and the word prediction is never shown.
   */
  lemma DisplayRepeatsAMode(isCharacterMode: bool, isWordMode: bool)
    ensures !(isCharacterMode && isWordMode) ==>
              exists m: Mode :: m !in DisplayModes(isCharacterMode, isWordMode)
    ensures DisplayModes(true, false) == [SpeakPage.Character, SpeakPage.Sentence, SpeakPage.Sentence]
  {
    if !(isCharacterMode && isWordMode) {
      var modes := DisplayModes(isCharacterMode, isWordMode);
      if isCharacterMode {
        assert SpeakPage.Word !in modes;
      } else if isWordMode {
        assert SpeakPage.Sentence !in modes;
      } else {
        assert SpeakPage.Character !in modes;
      }
    }
  }

  /**
   * The display order the conditionals aim at: the current mode, then the two after it in
   * the cycle, as on the speaking page. Each mode is shown once, and the first and third
   * lines are those of the conditionals.
   */
  function IntendedDisplayModes(isCharacterMode: bool, isWordMode: bool): (modes: seq<Mode>)
    ensures |modes| == 3
    ensures forall m: Mode :: m in modes
    ensures modes[0] == DisplayModes(isCharacterMode, isWordMode)[0]
    ensures modes[2] == DisplayModes(isCharacterMode, isWordMode)[2]
  {
    var first := DisplayModes(isCharacterMode, isWordMode)[0];
    var modes := [first, SpeakPage.NextMode(first), SpeakPage.NextMode(SpeakPage.NextMode(first))];
    assert forall m: Mode :: m in modes by {
      forall m: Mode ensures m in modes {
        if m == first {
          assert modes[0] == m;
        } else if m == SpeakPage.NextMode(first) {
          assert modes[1] == m;
        } else {
          assert modes[2] == m;
        }
      }
    }
    modes
  }

  /** Everything the page's logic keeps in React state. */
  datatype TextState = TextState(
    dwell: DwellState,
    isCharacterMode: bool,
    isWordMode: bool,
    isSentenceMode: bool,
    inputText: string,
    candidates: Candidates)

  const INITIAL_STATE: TextState := TextState(Dwell.INITIAL, true, false, false, "", NO_CANDIDATES)

  /**
   * What every reachable state satisfies: the dwell invariant, no mode-switch region, and
   * the flags as they start, since nothing sets them.
   */
  predicate Valid(s: TextState) {
    && Inv(s.dwell)
    && s.dwell.currentGaze != ModeSwitch
    && s.isCharacterMode && !s.isWordMode && !s.isSentenceMode
  }

  lemma InitialValid()
    ensures Valid(INITIAL_STATE)
  {
  }

  /** `gazeListener(data)`: a null sample is ignored. */
  function GazeStep(s: TextState, data: Option<SpeakPage.GazePoint>, width: real, height: real, now: int): (r: TextState)
    ensures Valid(s) ==> Valid(r)
  {
    match data
    case None => s
    case Some(p) => s.(dwell := Listen(s.dwell, GetGazeRegion(p.x, p.y, width, height), now))
  }

  /** What the commit effect does: commit (possibly nothing), or throw. */
  datatype Outcome = Committed(state: TextState, request: Option<Request>) | Threw

  /** The commit effect that runs once `activeRegion` has been set. */
  function CommitStep(s: TextState): (r: Outcome)
    ensures Valid(s) && r.Committed? ==> Valid(r.state)
  {
    match s.dwell.activeRegion
    case None => Committed(s, None)
    case Some(active) =>
      var consumed := s.(dwell := Consume(s.dwell));
      if s.isCharacterMode then
        match Label(active)
        case None => Threw
        case Some(lbl) =>
          Committed(consumed.(inputText := s.inputText + lbl + " "),
                    Some(RequestFor(SelectedRanges(s.inputText, lbl), CONTEXT)))
      else if s.isWordMode then
        var word := OrDefault(SlotValue(s.candidates.wordOptions, active), "");
        Committed(consumed.(inputText := s.inputText + word + " "), None)
      else if s.isSentenceMode then
        var sentence := OrDefault(SlotValue(s.candidates.sentenceOptions, active), "");
        Committed(consumed.(inputText := s.inputText + sentence + " "), None)
      else
        Committed(consumed, None)
  }

  /**
   * Every commit on a slot is a character commit: it appends the label and a space, and
   * asks for predictions with the trimmed transcript, a space and the label.
   */
  lemma SlotCommitIsCharacterCommit(s: TextState, slot: Region)
    requires Valid(s) && s.dwell.activeRegion == Some(slot) && slot in SLOTS
    ensures CommitStep(s).Committed?
    ensures CommitStep(s).state.inputText == s.inputText + Label(slot).value + " "
    ensures CommitStep(s).state.dwell == DwellState(slot, None, None)
    ensures CommitStep(s).request == Some(Request(Trim(s.inputText) + " " + Label(slot).value, CONTEXT))
  {
    var lbl := Label(slot).value;
    var c := CommitStep(s);
    assert c.Committed?;
    assert c.request == Some(RequestFor(SelectedRanges(s.inputText, lbl), CONTEXT));
    assert c.state.inputText == s.inputText + lbl + " ";
    SpeakPage.LabelIsTrimmed(slot);
    CharacterRequestText(s.inputText, lbl);
  }

  /** A selected hot band has no `GAZE_REGIONS` entry: the commit effect throws. */
  lemma HotBandCommitThrows(s: TextState)
    requires Valid(s) && (s.dwell.activeRegion == Some(Clear) || s.dwell.activeRegion == Some(Delete))
    ensures CommitStep(s) == Threw
  {
    assert s.isCharacterMode && Label(s.dwell.activeRegion.value).None?;
  }

  /**
   * The hot bands are armed like any slot: looking into the clear band from elsewhere at a
   * truthy time and still looking a threshold later selects it, and committing throws.
   */
  lemma ClearBandIsSelectable(s: TextState, p: SpeakPage.GazePoint, width: real, height: real, t0: int)
    requires Valid(s) && s.dwell.currentGaze != Clear && t0 != 0
    requires ClearBand(p.x, p.y, width, height)
    ensures GazeStep(GazeStep(s, Some(p), width, height, t0), Some(p), width, height, t0 + GAZE_THRESHOLD).dwell.activeRegion
            == Some(Clear)
    ensures CommitStep(GazeStep(GazeStep(s, Some(p), width, height, t0), Some(p), width, height, t0 + GAZE_THRESHOLD))
            == Threw
  {
  }

  /** The page's state, held in fields that its handlers update in place. */
  class Page {
    var currentGaze: Region
    var gazeStartTime: Option<int>
    var activeRegion: Option<Region>
    var isCharacterMode: bool
    var isWordMode: bool
    var isSentenceMode: bool
    var inputText: string
    var wordOptions: Options
    var sentenceOptions: Options

    ghost function State(): TextState
      reads this
    {
      TextState(DwellState(currentGaze, gazeStartTime, activeRegion), isCharacterMode, isWordMode,
                isSentenceMode, inputText, Candidates(wordOptions, sentenceOptions))
    }

    constructor ()
      ensures State() == INITIAL_STATE && Valid(State())
    {
      currentGaze, gazeStartTime, activeRegion := Center, None, None;
      isCharacterMode, isWordMode, isSentenceMode := true, false, false;
      inputText, wordOptions, sentenceOptions := "", [], [];
    }

    /** The request the page sends when it mounts. */
    method MountRequest() returns (request: Request)
      ensures request == Request("A-F G-M N-T U-Z", CONTEXT)
    {
      request := Predictions.MountRequest(CONTEXT);
    }

    /** `gazeListener`, called by the tracker with a sample (or null) at time `now`. */
    method GazeListener(data: Option<SpeakPage.GazePoint>, width: real, height: real, now: int)
      modifies this
      ensures State() == GazeStep(old(State()), data, width, height, now)
    {
      if data.None? {
        return;
      }
      var region := GetGazeRegion(data.value.x, data.value.y, width, height);
      if region != currentGaze {
        currentGaze := region;
        gazeStartTime := if region == Center then None else Some(now);
        activeRegion := None;
      } else if region != Center && Started(gazeStartTime) {
        var gazeTime := now - gazeStartTime.value;
        if gazeTime >= GAZE_THRESHOLD && activeRegion.None? {
          activeRegion := Some(region);
        }
      }
    }

    /**
     * The effect on `activeRegion`. It reports whether it threw, in which case nothing has
     * been changed and React then unmounts the page, and otherwise the request it sent.
     */
    method CommitEffect() returns (threw: bool, request: Option<Request>)
      modifies this
      ensures threw <==> old(CommitStep(State())).Threw?
      ensures threw ==> State() == old(State())
      ensures !threw ==> Committed(State(), request) == old(CommitStep(State()))
    {
      threw, request := false, None;
      if activeRegion.None? {
        return;
      }
      var active := activeRegion.value;
      if isCharacterMode {
        var entry := Label(active);
        if entry.None? {
          threw := true;
          return;
        }
        var lbl := entry.value;
        var selectedRanges := Split(Trim(inputText), ' ') + [Trim(lbl)];
        request := Some(RequestFor(selectedRanges, CONTEXT));
        inputText := inputText + lbl + " ";
      } else if isWordMode {
        var word := OrDefault(ElementAt(wordOptions, SlotIndex(active)), "");
        inputText := inputText + word + " ";
      } else if isSentenceMode {
        var sentence := OrDefault(ElementAt(sentenceOptions, SlotIndex(active)), "");
        inputText := inputText + sentence + " ";
      }
      activeRegion := None;
      gazeStartTime := None;
    }

    /** `fetchPredictions` after its reply arrived: an ok reply replaces both lists. */
    method ReceivePredictions(reply: Reply)
      modifies this
      ensures State() == old(State()).(candidates := ApplyReply(old(State()).candidates, reply))
    {
      if reply.Ok? {
        wordOptions := reply.promptOptions.GetOr([]);
        sentenceOptions := reply.sentences.GetOr([]);
      }
    }

    /** The Clear button. */
    method ClearText()
      modifies this
      ensures State() == old(State()).(inputText := "")
    {
      inputText := "";
    }
  }
}
