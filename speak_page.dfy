/**
 * The speaking page: a four-slot gaze keyboard with a mode-switch band. A dwell on a
 * slot commits its letter range, its predicted word or its predicted sentence,
 * depending on the entry mode; a dwell on the mode-switch band cycles the mode.
 */
module SpeakPage {
  import opened Wrappers
  import opened JsText
  import opened GazeRegions
  import opened Dwell
  import opened Predictions

  datatype Mode = Character | Word | Sentence

  /** `modes`. */
  const MODES: seq<Mode> := [Character, Word, Sentence]

  /** `modes[i % modes.length]`. */
  function ModeAt(i: nat): Mode {
    MODES[i % |MODES|]
  }

  /** The mode that follows `m` in the cycle character, word, sentence, character. */
  function NextMode(m: Mode): Mode {
    match m
    case Character => Word
    case Word => Sentence
    case Sentence => Character
  }

  /** `modes[m].toUpperCase()`. */
  function UpperName(m: Mode): string {
    match m
    case Character => "CHARACTER"
    case Word => "WORD"
    case Sentence => "SENTENCE"
  }

  /** The mode-switch commit's `(prev + 1) % modes.length`. */
  function AdvanceMode(modeIndex: nat): (next: nat)
    ensures next < |MODES|
    ensures ModeAt(next) == NextMode(ModeAt(modeIndex))
  {
    (modeIndex + 1) % |MODES|
  }

  /** Three mode switches come back to the mode they started from. */
  lemma ThreeSwitchesReturn(modeIndex: nat)
    requires modeIndex < |MODES|
    ensures AdvanceMode(AdvanceMode(AdvanceMode(modeIndex))) == modeIndex
    ensures ModeAt(0) == Character && ModeAt(AdvanceMode(0)) == Word
    ensures ModeAt(AdvanceMode(AdvanceMode(0))) == Sentence
  {
  }

  /**
   * `getGazeRegion(x, y)` against a viewport of `width` by `height`: the upper band
   * splits into left, mode switch and right; the lower band into left and right;
   * everything else is the centre.
   */
  function GetGazeRegion(x: real, y: real, width: real, height: real): (r: Region)
    ensures r == LeftUp <==> UpperBand(y, height) && LeftColumn(x, width)
    ensures r == ModeSwitch <==> UpperBand(y, height) && MiddleColumn(x, width)
    ensures r == RightUp <==> UpperBand(y, height) && RightColumn(x, width)
    ensures r == LeftDown <==> LowerBand(y, height) && LeftColumn(x, width)
    ensures r == RightDown <==> LowerBand(y, height) && RightColumn(x, width)
    ensures r == Center <==> !UpperBand(y, height) && !(LowerBand(y, height) && !MiddleColumn(x, width))
    ensures r != Clear && r != Delete
  {
    if y < height * 0.4 then
      if x < width * 0.4 then LeftUp
      else if x > width * 0.6 then RightUp
      else if x >= width * 0.4 && x <= width * 0.6 then ModeSwitch
      else Center
    else if y > height * 0.6 then
      if x < width * 0.4 then LeftDown
      else if x > width * 0.6 then RightDown
      else Center
    else
      Center
  }

  /**
   * On the screen: every point of the upper 40% is selectable, both edges of the middle
   * column of that band are the mode switch, and the centre is the middle band plus
   * the middle column of the lower band.
   */
  lemma ScreenRegions(x: real, y: real, width: real, height: real)
    requires width >= 0.0 && height >= 0.0
    ensures y < height * 0.4 ==> GetGazeRegion(x, y, width, height) != Center
    ensures y < height * 0.4 && (x == width * 0.4 || x == width * 0.6) ==>
              GetGazeRegion(x, y, width, height) == ModeSwitch
    ensures GetGazeRegion(x, y, width, height) == Center <==>
              (height * 0.4 <= y <= height * 0.6) || (y > height * 0.6 && width * 0.4 <= x <= width * 0.6)
  {
    BandsOnViewport(x, y, width, height);
  }

  /** The text one slot shows for one mode, with the page's fallbacks. */
  function Candidate(region: Region, mode: Mode, c: Candidates): string {
    match mode
    case Character => OrDefault(Label(region), "Unknown")
    case Word => OrDefault(SlotValue(c.wordOptions, region), NO_PREDICTION)
    case Sentence => OrDefault(SlotValue(c.sentenceOptions, region), NO_PREDICTION)
  }

  /**
   * `getPredictionForRegion(region)`: the three lines a region shows. For a slot they are
   * the candidates of the current mode and the two modes after it, in cycle order.
   */
  function GetPredictionForRegion(region: Region, modeIndex: nat, c: Candidates): (lines: seq<string>)
    ensures |lines| == 3
    ensures region == ModeSwitch ==>
              lines == ["Switch Mode", "Next: " + UpperName(ModeAt(modeIndex + 1)), ""]
    ensures region != ModeSwitch ==>
              forall k :: 0 <= k < 3 ==> lines[k] == Candidate(region, ModeAt(modeIndex + k), c)
  {
    if region == ModeSwitch then
      ["Switch Mode", "Next: " + UpperName(MODES[(modeIndex + 1) % |MODES|]), ""]
    else
      var letterRange := OrDefault(Label(region), "Unknown");
      var index := SlotIndex(region);
      var word := OrDefault(ElementAt(c.wordOptions, index), NO_PREDICTION);
      var sentence := OrDefault(ElementAt(c.sentenceOptions, index), NO_PREDICTION);
      var first := MODES[modeIndex % |MODES|];
      if first == Character then [letterRange, word, sentence]
      else if first == Word then [word, sentence, letterRange]
      else [sentence, letterRange, word]
  }

  /** `text.length === 3 && text.charAt(1) === "-"`, over the text's UTF-16 code units. */
  predicate IsHyphenRange(text: string) {
    var units := CodeUnits(text);
    |units| == 3 && units[1] == '-' as int
  }

  /**
   * A hyphen range is three characters, none beyond U+FFFF, with `-` in the middle; its
   * first and last code units are its first and last characters.
   */
  lemma HyphenRangeChars(text: string)
    ensures IsHyphenRange(text) <==>
              |text| == 3 && text[1] == '-' && (text[0] as int) < 0x1_0000 && (text[2] as int) < 0x1_0000
    ensures IsHyphenRange(text) ==> CodeUnits(text)[0] == text[0] as int && CodeUnits(text)[2] == text[2] as int
  {
    if |text| == 3 {
      ThreeCharsRange(text);
    } else if |text| == 2 {
      TwoCharsNoRange(text);
    } else if |text| == 1 {
      assert CodeUnits(text) == Units(text[0]);
    }
  }

  /** Three characters read as a hyphen range exactly when they are their own code units and the middle one is `-`. */
  lemma ThreeCharsRange(text: string)
    requires |text| == 3
    ensures IsHyphenRange(text) <==> text[1] == '-' && (text[0] as int) < 0x1_0000 && (text[2] as int) < 0x1_0000
    ensures IsHyphenRange(text) ==> CodeUnits(text) == [text[0] as int, text[1] as int, text[2] as int]
  {
    ThreeCodeUnits(text[0], text[1], text[2]);
    assert text == [text[0], text[1], text[2]];
  }

  /**
   * A character beyond U+FFFF at either end makes the text four code units long, so the
   * page shows "A-\U{1F600}" and "\U{1F600}-A" unchanged.
   */
  lemma AstralEndsAreNoRange()
    ensures !IsHyphenRange("A-\U{1F600}") && !IsHyphenRange("\U{1F600}-A")
  {
    HyphenRangeChars("A-\U{1F600}");
    HyphenRangeChars("\U{1F600}-A");
  }

  /** Two characters never read as a hyphen range: three code units need a surrogate pair. */
  lemma TwoCharsNoRange(text: string)
    requires |text| == 2
    ensures !IsHyphenRange(text)
  {
    CodeUnitsAppend([text[0]], [text[1]]);
    assert text == [text[0]] + [text[1]];
    assert CodeUnits(text) == Units(text[0]) + Units(text[1]);
  }

  /** `String.fromCharCode(i)`, for the codes a character of the model can hold. */
  function CharOf(i: int): string {
    if 0 <= i < 0xD800 || 0xE000 <= i < 0x11_0000 then [i as char] else []
  }

  /** Every code from `lo` to `hi` inclusive, in increasing order. */
  function Expand(lo: int, hi: int): string
    decreases hi - lo + 1
  {
    if hi < lo then [] else Expand(lo, hi - 1) + CharOf(hi)
  }

  /**
   * `convertHyphenFormat(text)`: a three-character range such as "A-F" becomes every
   * character from its first to its last; any other text is returned unchanged.
   */
  method ConvertHyphenFormat(text: string) returns (result: string)
    ensures !IsHyphenRange(text) ==> result == text
    ensures IsHyphenRange(text) ==> result == Expand(CodeUnits(text)[0], CodeUnits(text)[2])
  {
    var units := CodeUnits(text);
    if |units| != 3 || units[1] != '-' as int {
      return text;
    }
    var startCode := units[0];
    var endCode := units[2];
    result := "";
    var i := startCode;
    while i <= endCode
      invariant startCode <= i && (i == startCode || i <= endCode + 1)
      invariant result == Expand(startCode, i - 1)
      decreases endCode - i
    {
      result := result + CharOf(i);
      i := i + 1;
    }
  }

  /**
   * Below the surrogate block a range expands to one character per code: it is empty
   * when the start is after the end, and otherwise character `k` is code `lo + k`.
   */
  lemma {:induction false} ExpandCodes(lo: int, hi: int)
    requires 0 <= lo && hi < 0xD800
    ensures hi < lo ==> Expand(lo, hi) == []
    ensures lo <= hi ==> |Expand(lo, hi)| == hi - lo + 1
    ensures lo <= hi ==> forall k :: 0 <= k <= hi - lo ==> Expand(lo, hi)[k] == (lo + k) as char
    decreases hi - lo + 1
  {
    if lo <= hi {
      ExpandCodes(lo, hi - 1);
      assert CharOf(hi) == [hi as char];
    }
  }

  /** A range splits at any point into its lower and upper parts. */
  lemma {:induction false} ExpandSplits(lo: int, mid: int, hi: int)
    requires lo - 1 <= mid <= hi
    ensures Expand(lo, hi) == Expand(lo, mid) + Expand(mid + 1, hi)
    decreases hi - mid
  {
    if mid < hi {
      ExpandSplits(lo, mid, hi - 1);
    }
  }

  /** Each slot label expands to its letters. */
  lemma SlotLettersExpand()
    ensures Expand('A' as int, 'F' as int) == "ABCDEF"
    ensures Expand('G' as int, 'M' as int) == "GHIJKLM"
    ensures Expand('N' as int, 'T' as int) == "NOPQRST"
    ensures Expand('U' as int, 'Z' as int) == "UVWXYZ"
  {
    ExpandCodes('A' as int, 'F' as int);
    ExpandCodes('G' as int, 'M' as int);
    ExpandCodes('N' as int, 'T' as int);
    ExpandCodes('U' as int, 'Z' as int);
  }

  /** The four slot labels, expanded, spell the alphabet once, in order. */
  lemma SlotsCoverAlphabet()
    ensures Expand('A' as int, 'F' as int) + Expand('G' as int, 'M' as int)
          + Expand('N' as int, 'T' as int) + Expand('U' as int, 'Z' as int)
          == Expand('A' as int, 'Z' as int)
          == "ABCDEFGHIJKLMNOPQRSTUVWXYZ"
  {
    ExpandSplits('A' as int, 'F' as int, 'Z' as int);
    ExpandSplits('G' as int, 'M' as int, 'Z' as int);
    ExpandSplits('N' as int, 'T' as int, 'Z' as int);
    SlotLettersExpand();
  }

  /** Everything the page's logic keeps in React state. */
  datatype SpeakState = SpeakState(
    dwell: DwellState,
    modeIndex: nat,
    inputText: string,
    candidates: Candidates,
    contextText: string)

  const INITIAL_STATE: SpeakState := SpeakState(Dwell.INITIAL, 0, "", NO_CANDIDATES, "")

  /** What every reachable state satisfies: the dwell invariant, a mode in range, and no hot band. */
  predicate Valid(s: SpeakState) {
    && Inv(s.dwell)
    && s.modeIndex < |MODES|
    && s.dwell.currentGaze != Clear && s.dwell.currentGaze != Delete
  }

  lemma InitialValid()
    ensures Valid(INITIAL_STATE)
  {
  }

  /** A gaze sample from the tracker. */
  datatype GazePoint = GazePoint(x: real, y: real)

  /** `gazeListener(data)`: a null sample is ignored. */
  function GazeStep(s: SpeakState, data: Option<GazePoint>, width: real, height: real, now: int): (r: SpeakState)
    ensures Valid(s) ==> Valid(r)
  {
    match data
    case None => s
    case Some(p) => s.(dwell := Listen(s.dwell, GetGazeRegion(p.x, p.y, width, height), now))
  }

  /** The new state after the commit effect, and the prediction request it sends, if any. */
  datatype Commit = Commit(state: SpeakState, request: Option<Request>)

  /** The commit effect that runs once `activeRegion` has been set. */
  function CommitStep(s: SpeakState): (r: Commit)
    ensures Valid(s) ==> Valid(r.state)
  {
    match s.dwell.activeRegion
    case None => Commit(s, None)
    case Some(active) =>
      var consumed := s.(dwell := Consume(s.dwell));
      if active == ModeSwitch then
        Commit(consumed.(modeIndex := AdvanceMode(s.modeIndex)), None)
      else
        match ModeAt(s.modeIndex)
        case Character =>
          var lbl := OrDefault(Label(active), "");
          Commit(consumed.(inputText := s.inputText + lbl + " "),
                 Some(RequestFor(SelectedRanges(s.inputText, lbl), s.contextText)))
        case Word =>
          var word := OrDefault(SlotValue(s.candidates.wordOptions, active), "");
          Commit(consumed.(inputText := s.inputText + word + " "), None)
        case Sentence =>
          var sentence := OrDefault(SlotValue(s.candidates.sentenceOptions, active), "");
          Commit(consumed.(inputText := s.inputText + sentence + " "), None)
  }

  /** With nothing armed the commit effect does nothing. */
  lemma CommitNeedsSelection(s: SpeakState)
    requires s.dwell.activeRegion.None?
    ensures CommitStep(s) == Commit(s, None)
  {
  }

  /**
   * Every commit leaves nothing armed and no start time, keeps the region being looked
   * at, the cached predictions and the context.
   */
  lemma CommitDisarms(s: SpeakState)
    requires s.dwell.activeRegion.Some?
    ensures CommitStep(s).state.dwell == DwellState(s.dwell.currentGaze, None, None)
    ensures CommitStep(s).state.candidates == s.candidates
    ensures CommitStep(s).state.contextText == s.contextText
  {
  }

  /** A mode-switch commit advances the mode and nothing else: no text, no request. */
  lemma ModeSwitchCommit(s: SpeakState)
    requires Valid(s) && s.dwell.activeRegion == Some(ModeSwitch)
    ensures ModeAt(CommitStep(s).state.modeIndex) == NextMode(ModeAt(s.modeIndex))
    ensures CommitStep(s).state.inputText == s.inputText
    ensures CommitStep(s).request.None?
  {
  }

  /**
   * A character-mode commit on a slot appends the slot's label and a space, and asks for
   * predictions with the trimmed transcript before the commit, a space, and the label.
   */
  lemma CharacterCommit(s: SpeakState, slot: Region)
    requires Valid(s) && s.dwell.activeRegion == Some(slot) && slot != ModeSwitch
    requires ModeAt(s.modeIndex) == Character
    ensures slot in SLOTS
    ensures CommitStep(s).state.inputText == s.inputText + Label(slot).value + " "
    ensures CommitStep(s).state.modeIndex == s.modeIndex
    ensures CommitStep(s).request == Some(Request(Trim(s.inputText) + " " + Label(slot).value, s.contextText))
  {
    var lbl := Label(slot).value;
    assert OrDefault(Label(slot), "") == lbl;
    var c := CommitStep(s);
    assert c.request == Some(RequestFor(SelectedRanges(s.inputText, lbl), s.contextText));
    assert c.state.inputText == s.inputText + lbl + " ";
    LabelIsTrimmed(slot);
    CharacterRequestText(s.inputText, lbl);
  }

  lemma LabelIsTrimmed(slot: Region)
    requires slot in SLOTS
    ensures Trim(Label(slot).value) == Label(slot).value
  {
    var lbl := Label(slot).value;
    assert !IsWhitespace(lbl[0]) && !IsWhitespace(lbl[2]);
  }

  /**
   * A word- or sentence-mode commit on a slot appends that slot's cached prediction
   * (or nothing, when it is missing or empty) and a space, and sends no request.
   */
  lemma PredictionCommit(s: SpeakState, slot: Region)
    requires Valid(s) && s.dwell.activeRegion == Some(slot) && slot != ModeSwitch
    requires ModeAt(s.modeIndex) != Character
    ensures slot in SLOTS
    ensures ModeAt(s.modeIndex) == Word ==>
              CommitStep(s).state.inputText == s.inputText + SlotValue(s.candidates.wordOptions, slot).GetOr("") + " "
    ensures ModeAt(s.modeIndex) == Sentence ==>
              CommitStep(s).state.inputText == s.inputText + SlotValue(s.candidates.sentenceOptions, slot).GetOr("") + " "
    ensures CommitStep(s).state.modeIndex == s.modeIndex
    ensures CommitStep(s).request.None?
  {
  }

  /** The page's state, held in fields that its handlers update in place. */
  class Page {
    var currentGaze: Region
    var gazeStartTime: Option<int>
    var activeRegion: Option<Region>
    var modeIndex: nat
    var inputText: string
    var wordOptions: Options
    var sentenceOptions: Options
    var contextText: string

    ghost function State(): SpeakState
      reads this
    {
      SpeakState(DwellState(currentGaze, gazeStartTime, activeRegion), modeIndex, inputText,
                 Candidates(wordOptions, sentenceOptions), contextText)
    }

    constructor ()
      ensures State() == INITIAL_STATE && Valid(State())
    {
      currentGaze, gazeStartTime, activeRegion := Center, None, None;
      modeIndex, inputText := 0, "";
      wordOptions, sentenceOptions, contextText := [], [], "";
    }

    /**
     * The request the page sends when it mounts. The mount effect runs once, on the fresh
     * page, so the context it sends is the initial, empty one.
     */
    method MountRequest() returns (request: Request)
      ensures request == Request("A-F G-M N-T U-Z", INITIAL_STATE.contextText)
      ensures request.context == ""
    {
      request := Predictions.MountRequest("");
    }

    /** `gazeListener`, called by the tracker with a sample (or null) at time `now`. */
    method GazeListener(data: Option<GazePoint>, width: real, height: real, now: int)
      modifies this
      ensures State() == GazeStep(old(State()), data, width, height, now)
    {
      if data.None? {
        return;
      }
      var region := GetGazeRegion(data.value.x, data.value.y, width, height);
      if region != currentGaze {
        currentGaze := region;
        gazeStartTime := if region == Center then None else Some(now);
        activeRegion := None;
      } else if region != Center && Started(gazeStartTime) {
        var gazeTime := now - gazeStartTime.value;
        if gazeTime >= GAZE_THRESHOLD && activeRegion.None? {
          activeRegion := Some(region);
        }
      }
    }

    /** The effect on `activeRegion`: commits the armed selection and returns the request it sends. */
    method CommitEffect() returns (request: Option<Request>)
      modifies this
      ensures Commit(State(), request) == CommitStep(old(State()))
    {
      request := None;
      if activeRegion.None? {
        return;
      }
      var active := activeRegion.value;
      var nextMode, text := modeIndex, inputText;
      if active == ModeSwitch {
        nextMode := AdvanceMode(modeIndex);
      } else {
        match ModeAt(modeIndex)
        case Character =>
          var lbl := OrDefault(Label(active), "");
          request := Some(RequestFor(SelectedRanges(inputText, lbl), contextText));
          text := inputText + lbl + " ";
        case Word =>
          text := inputText + OrDefault(SlotValue(wordOptions, active), "") + " ";
        case Sentence =>
          text := inputText + OrDefault(SlotValue(sentenceOptions, active), "") + " ";
      }
      modeIndex, inputText := nextMode, text;
      activeRegion, gazeStartTime := None, None;
    }

    /** `fetchPredictions` after its reply arrived: an ok reply replaces both lists. */
    method ReceivePredictions(reply: Reply)
      modifies this
      ensures State() == old(State()).(candidates := ApplyReply(old(State()).candidates, reply))
    {
      if reply.Ok? {
        wordOptions := reply.promptOptions.GetOr([]);
        sentenceOptions := reply.sentences.GetOr([]);
      }
    }

    /** The Clear button. */
    method ClearText()
      modifies this
      ensures State() == old(State()).(inputText := "")
    {
      inputText := "";
    }

    /** The speech-to-text component's `setter`, which sets the context for later requests. */
    method SetContext(text: string)
      modifies this
      ensures State() == old(State()).(contextText := text)
    {
      contextText := text;
    }
  }
}
