/**
 * The four teaching modes and the normalisation of the `mode` and
 * `question` page parameters done by the chat page client
 * (components/chat-client.tsx).
 */
module ChatModes {

  import opened Wrappers

  /** The mode names, in the order the client lists them. */
  const ValidModes: seq<string> := ["reflection", "answer", "leetcode", "learning-plan"]

  /** A mode the chat view accepts: one of the four names. */
  type Mode = m: string | m in ValidModes witness "reflection"

  /** The mode used when the page parameter is missing or not recognised. */
  const DefaultMode: Mode := "reflection"

  /** The properties the page passes to the chat view. */
  datatype ChatProps = ChatProps(mode: Mode, initialQuestion: string)

  /**
   * `validModes.includes(rawMode) ? rawMode : 'reflection'`, where a missing
   * parameter is `null` and never in the list.
   */
  function NormalizeMode(raw: Option<string>): (m: Mode)
    ensures m in ValidModes
    ensures raw.Some? && raw.value in ValidModes ==> m == raw.value
    ensures (raw.None? || raw.value !in ValidModes) ==> m == "reflection"
  {
    if raw.Some? && raw.value in ValidModes then raw.value else DefaultMode
  }

  /** `searchParams.get('question') || ''`: a missing parameter becomes the empty question. */
  function QuestionParam(raw: Option<string>): (q: string)
    ensures raw.None? ==> q == ""
    ensures raw.Some? ==> q == raw.value
  {
    match raw
    case None => ""
    case Some(s) => if s == "" then "" else s
  }

  /** What the page renders: the chat view with the normalised mode and question. */
  function ChatClient(rawMode: Option<string>, rawQuestion: Option<string>): (p: ChatProps)
    ensures rawMode.Some? && rawMode.value in ValidModes ==> p.mode == rawMode.value
    ensures rawMode.None? || rawMode.value !in ValidModes ==> p.mode == DefaultMode
    ensures rawQuestion.None? ==> p.initialQuestion == ""
    ensures rawQuestion.Some? ==> p.initialQuestion == rawQuestion.value
  {
    ChatProps(NormalizeMode(rawMode), QuestionParam(rawQuestion))
  }

  /** Normalising an already valid mode changes nothing. */
  lemma NormalizeIdempotent(raw: Option<string>)
    ensures NormalizeMode(Some(NormalizeMode(raw))) == NormalizeMode(raw)
  {
  }
}
