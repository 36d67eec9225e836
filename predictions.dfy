/**
 * The prediction cache both text-entry pages keep (`wordOptions`, `sentenceOptions`)
 * and the request they send. The HTTP exchange itself is outside the model: a request
 * is returned to the caller, and its reply comes back as an input.
 */
module Predictions {
  import opened Wrappers
  import opened JsText
  import opened GazeRegions

  /**
   * A cached option list, one entry per slot: entry `i` is `wordOptions[i]?.prompt`
   * (or `sentenceOptions[i]`), with None for a null entry or a missing prompt.
   */
  type Options = seq<Option<string>>

  /** Shown for a slot that has no truthy prediction. */
  const NO_PREDICTION: string := "No prediction available"

  /** What `fetchPredictions` sees of one request. */
  datatype Reply =
    | NotOk                                                       // `!response.ok`: thrown and caught
    | Failed                                                      // `fetch` or `response.json()` rejected
    | Ok(promptOptions: Option<Options>, sentences: Option<Options>) // an absent field is None

  datatype Candidates = Candidates(wordOptions: Options, sentenceOptions: Options)

  /** Both lists start empty. */
  const NO_CANDIDATES: Candidates := Candidates([], [])

  /** The body of a `POST /api/predict`: `letter_ranges` joined with spaces, and the context. */
  datatype Request = Request(letterRanges: string, context: string)

  /** The state update `fetchPredictions` makes once its reply has arrived. */
  function ApplyReply(c: Candidates, reply: Reply): (r: Candidates)
    ensures !reply.Ok? ==> r == c
    ensures reply.Ok? ==> r.wordOptions == reply.promptOptions.GetOr([])
    ensures reply.Ok? ==> r.sentenceOptions == reply.sentences.GetOr([])
  {
    match reply
    case Ok(words, sentences) => Candidates(words.GetOr([]), sentences.GetOr([]))
    case _ => c
  }

  /**
   * Replies are applied in arrival order and the last successful one wins: what an ok
   * reply leaves does not depend on any earlier reply, and a failed reply changes nothing.
   */
  lemma LastReplyWins(c: Candidates, earlier: Reply, later: Reply)
    ensures later.Ok? ==> ApplyReply(ApplyReply(c, earlier), later) == ApplyReply(c, later)
    ensures !later.Ok? ==> ApplyReply(ApplyReply(c, earlier), later) == ApplyReply(c, earlier)
  {
  }

  /** `fetchPredictions(ranges)` with the page's context text. */
  function RequestFor(ranges: seq<string>, context: string): Request {
    Request(Join(ranges, ' '), context)
  }

  /**
   * The ranges a character-mode commit sends: `inputText.trim().split(" ")` with the
   * committed label, trimmed, appended. The transcript is read before the label is added.
   */
  function SelectedRanges(inputText: string, rangeLabel: string): (ranges: seq<string>)
    ensures |ranges| >= 2 && ranges[|ranges| - 1] == Trim(rangeLabel)
  {
    Split(Trim(inputText), ' ') + [Trim(rangeLabel)]
  }

  /**
   * The `letter_ranges` a character-mode commit sends is the trimmed transcript, one
   * space, and the label: after an empty transcript it starts with a space.
   */
  lemma {:induction false} CharacterRequestText(inputText: string, rangeLabel: string)
    ensures Join(SelectedRanges(inputText, rangeLabel), ' ') == Trim(inputText) + " " + Trim(rangeLabel)
  {
    var parts := Split(Trim(inputText), ' ');
    JoinSnoc(parts, Trim(rangeLabel), ' ');
    JoinSplit(Trim(inputText), ' ');
  }

  /** The request sent when a page mounts: every slot label, in slot order. */
  function MountRequest(context: string): (r: Request)
    ensures r.letterRanges == "A-F G-M N-T U-Z"
    ensures r.context == context
  {
    RequestFor(LABELS, context)
  }

  /** The `wordOptions[index]?.prompt` or `sentenceOptions[index]` of a region. */
  function SlotValue(options: Options, region: Region): (v: Option<string>)
    ensures region !in SLOTS ==> v.None?
    ensures region in SLOTS && SlotIndex(region) < |options| ==> v == options[SlotIndex(region)]
  {
    ElementAt(options, SlotIndex(region))
  }
}
