/** The AI copilot panel: a chat transcript that a guarded send extends with the user's
    message and a deferred reply extends with a canned assistant answer, plus the voice
    controls and the animated waveform beside it. */
module Copilot {
  import opened Wrappers

  datatype Role = User | Assistant

  datatype Citation = Citation(source: string, title: string, year: Option<string>)

  /** A transcript entry; ids and timestamps are not modelled. */
  datatype Message = Message(
    role: Role, content: string,
    citations: Option<seq<Citation>>, suggestions: Option<seq<string>>)

  // ---------------------------------------------------------------- trimming

  /** The characters JavaScript's trim() removes: the ECMAScript white space and
      line terminator characters. */
  predicate IsWhitespace(c: char) {
    c == '\t' || c == '\n' || c == '\U{000B}' || c == '\U{000C}' || c == '\r' || c == ' '
    || c == '\U{00A0}' || c == '\U{1680}' || ('\U{2000}' <= c <= '\U{200A}')
    || c == '\U{2028}' || c == '\U{2029}' || c == '\U{202F}' || c == '\U{205F}'
    || c == '\U{3000}' || c == '\U{FEFF}'
  }

  /** Every character of s is white space (the empty string included). */
  predicate Blank(s: string) {
    forall i | 0 <= i < |s| :: IsWhitespace(s[i])
  }

  /** Drops the leading white space: the result is the suffix of s that starts at the
      first non-white character. */
  function TrimStart(s: string): (t: string)
    ensures |t| <= |s| && t == s[|s| - |t|..]
    ensures Blank(s[..|s| - |t|])
    ensures t == [] || !IsWhitespace(t[0])
  {
    if |s| > 0 && IsWhitespace(s[0]) then
      var t := TrimStart(s[1..]);
      assert s[..|s| - |t|] == [s[0]] + s[1..][..|s[1..]| - |t|];
      t
    else s
  }

  /** Drops the trailing white space: the result is the prefix of s that ends at the
      last non-white character. */
  function TrimEnd(s: string): (t: string)
    ensures |t| <= |s| && t == s[..|t|]
    ensures Blank(s[|t|..])
    ensures t == [] || !IsWhitespace(t[|t| - 1])
  {
    if |s| > 0 && IsWhitespace(s[|s| - 1]) then
      var t := TrimEnd(s[..|s| - 1]);
      assert s[|t|..] == s[..|s| - 1][|t|..] + [s[|s| - 1]];
      t
    else s
  }

  /** JavaScript's String.prototype.trim. */
  function Trim(s: string): string {
    TrimEnd(TrimStart(s))
  }

  /** trim() yields the empty string exactly for the blank inputs; otherwise the result is
      a piece of s that neither starts nor ends with white space. */
  lemma TrimEmptyIffBlank(s: string)
    ensures Trim(s) == [] <==> Blank(s)
    ensures Trim(s) != [] ==> !IsWhitespace(Trim(s)[0]) && !IsWhitespace(Trim(s)[|Trim(s)| - 1])
  {
    var a := TrimStart(s);
    if Trim(s) == [] {
      assert s[..|s| - |a|] == s;
    }
    if Trim(s) != [] {
      var t := Trim(s);
      assert t[0] == a[0];
      assert t[|t| - 1] == a[|t| - 1];
    }
  }

  // ---------------------------------------------------------------- canned content

  /** The opening assistant message and its four suggested prompts. */
  const GreetingSuggestions: seq<string> := [
    "Design a protein crystallization experiment",
    "Search GeneLab for microgravity studies",
    "Compare Earth vs space crystallization results",
    "Analyze structural biology data"
  ]

  const Greeting := Message(Assistant,
    "Hello! I'm NSS Vibe, your " + "AI copilot for " + "space-enabled "
    + "pharmaceutical research. I " + "can help you design " + "experiments, analyze data, "
    + "search scientific " + "literature, and optimize " + "protocols using NASA "
    + "GeneLab and other space " + "biology databases. What " + "would you like to explore "
    + "today?",
    None, Some(GreetingSuggestions))

  const ResponseCount := 4

  /** The answers the simulated assistant picks from, by position. The long texts here and
      in the greeting are written as short pieces joined by +, which spell the same strings
      and keep the verifier's work on them small. */
  function CannedResponse(k: int): string
    requires 0 <= k < ResponseCount
  {
    match k
    case 0 =>
      "Based on GeneLab data " + "analysis, I recommend " + "optimizing your "
      + "crystallization buffer pH " + "to 7.2-7.4 for microgravity " + "conditions. This has shown "
      + "40% improvement in crystal " + "quality compared to " + "Earth-based studies."
    case 1 =>
      "I found 127 relevant " + "studies in our database. " + "The most promising approach "
      + "combines temperature " + "gradient crystallization " + "with controlled convection "
      + "suppression, achieving 3.2x " + "larger crystal sizes."
    case 2 =>
      "Your protein shows " + "excellent potential for " + "space-based "
      + "crystallization. Historical " + "data suggests you could " + "expect 65% improvement in "
      + "diffraction quality and " + "reduced mosaicity."
    case _ =>
      "I've analyzed similar " + "experiments and suggest " + "modifying your protocol "
      + "timeline. Extending the " + "nucleation phase to 72 " + "hours in microgravity "
      + "typically yields superior " + "results."
  }

  /** s is one of the canned answers. */
  predicate IsCannedResponse(s: string) {
    exists k | 0 <= k < ResponseCount :: s == CannedResponse(k)
  }

  /** The two sources attached to every reply. */
  const ReplyCitations: seq<Citation> := [
    Citation("GeneLab", "Microgravity Effects on Protein Crystallization", Some("2023")),
    Citation("PubMed", "Space-Based Pharmaceutical Manufacturing", Some("2024"))
  ]

  /** The position a random draw r in [0, 1) selects among the four answers. */
  function ResponseIndex(r: real): (k: int)
    requires 0.0 <= r < 1.0
    ensures 0 <= k < ResponseCount
    ensures k as real <= r * 4.0 < k as real + 1.0
  {
    (r * 4.0).Floor
  }

  /** The simulated assistant: the answer depends on the random draw only, never on the
      input text. */
  function GenerateAIResponse(input: string, r: real): (reply: string)
    requires 0.0 <= r < 1.0
    ensures IsCannedResponse(reply)
  {
    CannedResponse(ResponseIndex(r))
  }

  /** Two different inputs with the same draw get the same answer. */
  lemma ResponseIgnoresInput(a: string, b: string, r: real)
    requires 0.0 <= r < 1.0
    ensures GenerateAIResponse(a, r) == GenerateAIResponse(b, r)
  {
  }

  /** Each canned answer is the reply to the draws in its quarter of [0, 1). */
  lemma EveryResponseReachable(input: string, k: int, r: real)
    requires 0 <= k < ResponseCount
    requires k as real / 4.0 <= r < (k + 1) as real / 4.0
    ensures GenerateAIResponse(input, r) == CannedResponse(k)
  {
    assert k as real <= r * 4.0 < k as real + 1.0;
    var j := ResponseIndex(r);
    assert j == k;
  }

  function UserMessage(input: string): Message {
    Message(User, input, None, None)
  }

  function AssistantReply(r: real): Message
    requires 0.0 <= r < 1.0
  {
    Message(Assistant, GenerateAIResponse("", r), Some(ReplyCitations), None)
  }

  /** A message the panel can append: a user message that is not blank and carries no
      attachments, or a canned reply that carries the two citations. */
  predicate WellFormedEntry(m: Message) {
    if m.role == User then
      !Blank(m.content) && m.citations == None && m.suggestions == None
    else
      IsCannedResponse(m.content) && m.citations == Some(ReplyCitations) && m.suggestions == None
  }

  /** A transcript the panel can show: an opening assistant message, then well-formed
      entries. */
  predicate WellFormedTranscript(ms: seq<Message>) {
    |ms| >= 1 && ms[0].role == Assistant
    && forall i | 1 <= i < |ms| :: WellFormedEntry(ms[i])
  }

  /** Appending a well-formed entry keeps a transcript well formed. */
  lemma AppendKeepsWellFormed(ms: seq<Message>, m: Message)
    requires WellFormedTranscript(ms) && WellFormedEntry(m)
    ensures WellFormedTranscript(ms + [m])
  {
    var ms' := ms + [m];
    forall i | 1 <= i < |ms'|
      ensures WellFormedEntry(ms'[i])
    {
      if i < |ms| {
        assert ms'[i] == ms[i];
      }
    }
  }

  /** A user message sent from a non-blank input is well formed. */
  lemma UserMessageWellFormed(input: string)
    requires !Blank(input)
    ensures WellFormedEntry(UserMessage(input))
  {
  }

  /** Every reply is well formed. */
  lemma AssistantReplyWellFormed(r: real)
    requires 0.0 <= r < 1.0
    ensures WellFormedEntry(AssistantReply(r))
  {
  }

  // ---------------------------------------------------------------- voice controls

  datatype VoiceState = VoiceState(isRecording: bool, isPlaying: bool, waveform: seq<real>)

  /** The record button's updater. */
  function WithRecordingToggled(v: VoiceState): (w: VoiceState)
    ensures w.isRecording == !v.isRecording
    ensures w.isPlaying == v.isPlaying && w.waveform == v.waveform
  {
    v.(isRecording := !v.isRecording)
  }

  /** The text-to-speech button's updater. */
  function WithPlaybackToggled(v: VoiceState): (w: VoiceState)
    ensures w.isPlaying == !v.isPlaying
    ensures w.isRecording == v.isRecording && w.waveform == v.waveform
  {
    v.(isPlaying := !v.isPlaying)
  }

  lemma ToggleRecordingTwice(v: VoiceState)
    ensures WithRecordingToggled(WithRecordingToggled(v)) == v
  {
  }

  lemma TogglePlaybackTwice(v: VoiceState)
    ensures WithPlaybackToggled(WithPlaybackToggled(v)) == v
  {
  }

  const WaveformBars := 20

  /** Twenty random draws scaled to bar heights. */
  function Waveform(draws: seq<real>): (w: seq<real>)
    requires |draws| == WaveformBars
    requires forall i | 0 <= i < |draws| :: 0.0 <= draws[i] < 1.0
    ensures |w| == WaveformBars
    ensures forall i | 0 <= i < |w| :: 0.0 <= w[i] < 100.0 && w[i] == draws[i] * 100.0
  {
    seq(WaveformBars, (i: int) requires 0 <= i < WaveformBars => draws[i] * 100.0)
  }

  /** A waveform of twenty bars each in [0, 100). */
  predicate WaveformShape(w: seq<real>) {
    |w| == WaveformBars && forall i | 0 <= i < |w| :: 0.0 <= w[i] < 100.0
  }

  /** The pixel height a bar is drawn with: never below 4, and below 40. */
  function BarHeight(h: real): (px: real)
    requires 0.0 <= h < 100.0
    ensures 4.0 <= px < 40.0
    ensures px == 4.0 <==> h * 0.4 <= 4.0
  {
    if h * 0.4 < 4.0 then 4.0 else h * 0.4
  }

  /** A click the voice card reacts to. The text-to-speech button is disabled while
      playback is off, so a click on it then does nothing. */
  datatype VoiceClick = RecordClick | PlaybackClick

  function AfterClicks(v: VoiceState, clicks: seq<VoiceClick>): VoiceState
    decreases |clicks|
  {
    if clicks == [] then v
    else
      var w := match clicks[0]
        case RecordClick => WithRecordingToggled(v)
        case PlaybackClick => if v.isPlaying then WithPlaybackToggled(v) else v;
      AfterClicks(w, clicks[1..])
  }

  /** Playback starts off and its only button is disabled while it is off, so no sequence
      of clicks ever turns it on. */
  lemma {:induction false} PlaybackNeverStarts(v: VoiceState, clicks: seq<VoiceClick>)
    requires !v.isPlaying
    ensures !AfterClicks(v, clicks).isPlaying
    ensures AfterClicks(v, clicks).waveform == v.waveform
    decreases |clicks|
  {
    if clicks != [] {
      var w := match clicks[0]
        case RecordClick => WithRecordingToggled(v)
        case PlaybackClick => if v.isPlaying then WithPlaybackToggled(v) else v;
      PlaybackNeverStarts(w, clicks[1..]);
    }
  }

  // ---------------------------------------------------------------- the panel

  class AICopilot {
    var messages: seq<Message>
    var inputMessage: string
    var isTyping: bool
    var voice: VoiceState
    /** Replies scheduled by a send and not delivered yet. */
    var pendingReplies: nat

    /** The transcript is well formed, the typing indicator implies a pending reply, the
        waveform has its twenty bars, and playback is off, as it is from the start. */
    ghost predicate Valid()
      reads this
    {
      WellFormedTranscript(messages)
      && (isTyping ==> pendingReplies > 0)
      && WaveformShape(voice.waveform)
      && !voice.isPlaying
    }

    /** The panel as first shown, with the waveform drawn from twenty random draws. */
    constructor (draws: seq<real>)
      requires |draws| == WaveformBars
      requires forall i | 0 <= i < |draws| :: 0.0 <= draws[i] < 1.0
      ensures Valid()
      ensures messages == [Greeting] && inputMessage == "" && !isTyping
      ensures voice == VoiceState(false, false, Waveform(draws)) && pendingReplies == 0
    {
      messages := [Greeting];
      inputMessage := "";
      isTyping := false;
      voice := VoiceState(false, false, Waveform(draws));
      pendingReplies := 0;
    }

    /** The send button is enabled exactly when the input is not blank. */
    predicate CanSend()
      reads this
      ensures CanSend() <==> !Blank(inputMessage)
    {
      TrimEmptyIffBlank(inputMessage);
      Trim(inputMessage) != []
    }

    /** Typing in the input box. */
    method SetInput(text: string)
      requires Valid()
      modifies this
      ensures Valid()
      ensures inputMessage == text
      ensures messages == old(messages) && isTyping == old(isTyping)
      ensures voice == old(voice) && pendingReplies == old(pendingReplies)
    {
      inputMessage := text;
    }

    /** Sending: a blank input is ignored; otherwise the input, untrimmed, is appended as a
        user message, the box is cleared, the typing indicator shows and a reply is
        scheduled. */
    method SendMessage()
      requires Valid()
      modifies this
      ensures Valid()
      ensures Blank(old(inputMessage)) ==>
        messages == old(messages) && inputMessage == old(inputMessage)
        && isTyping == old(isTyping) && pendingReplies == old(pendingReplies)
      ensures !Blank(old(inputMessage)) ==>
        messages == old(messages) + [UserMessage(old(inputMessage))]
        && inputMessage == "" && isTyping && pendingReplies == old(pendingReplies) + 1
      ensures voice == old(voice)
    {
      TrimEmptyIffBlank(inputMessage);
      if Trim(inputMessage) == [] {
        return;
      }
      UserMessageWellFormed(inputMessage);
      AppendKeepsWellFormed(messages, UserMessage(inputMessage));
      messages := messages + [UserMessage(inputMessage)];
      inputMessage := "";
      isTyping := true;
      pendingReplies := pendingReplies + 1;
    }

    /** A scheduled reply arrives: one assistant message with the two citations is
        appended and the typing indicator is cleared. */
    method DeliverReply(r: real)
      requires Valid() && pendingReplies > 0
      requires 0.0 <= r < 1.0
      modifies this
      ensures Valid()
      ensures messages == old(messages) + [AssistantReply(r)]
      ensures !isTyping && pendingReplies == old(pendingReplies) - 1
      ensures inputMessage == old(inputMessage) && voice == old(voice)
    {
      var reply := AssistantReply(r);
      AssistantReplyWellFormed(r);
      AppendKeepsWellFormed(messages, reply);
      messages := messages + [reply];
      isTyping := false;
      pendingReplies := pendingReplies - 1;
    }

    /** A click on the record button. */
    method ToggleRecording()
      requires Valid()
      modifies this
      ensures Valid()
      ensures voice == WithRecordingToggled(old(voice))
      ensures voice == AfterClicks(old(voice), [RecordClick])
      ensures messages == old(messages) && inputMessage == old(inputMessage)
      ensures isTyping == old(isTyping) && pendingReplies == old(pendingReplies)
    {
      voice := WithRecordingToggled(voice);
    }

    /** A click on the text-to-speech button. Its handler flips playback, but the button
        is disabled while playback is off, so the handler runs only when it is on; with
        playback never on, the click leaves the whole panel as it was. */
    method TogglePlayback()
      requires Valid()
      modifies this
      ensures Valid()
      ensures voice == AfterClicks(old(voice), [PlaybackClick])
      ensures voice == old(voice)
      ensures messages == old(messages) && inputMessage == old(inputMessage)
      ensures isTyping == old(isTyping) && pendingReplies == old(pendingReplies)
    {
      voice := AfterClicks(voice, [PlaybackClick]);
    }

    /** Clicking a suggested prompt puts it in the input box and changes nothing else. */
    method SuggestionClick(suggestion: string)
      requires Valid()
      modifies this
      ensures Valid()
      ensures inputMessage == suggestion
      ensures messages == old(messages) && isTyping == old(isTyping)
      ensures voice == old(voice) && pendingReplies == old(pendingReplies)
    {
      inputMessage := suggestion;
    }

    /** The animation step that runs while recording: a fresh waveform from twenty draws. */
    method RegenerateWaveform(draws: seq<real>)
      requires Valid() && voice.isRecording
      requires |draws| == WaveformBars
      requires forall i | 0 <= i < |draws| :: 0.0 <= draws[i] < 1.0
      modifies this
      ensures Valid()
      ensures voice == old(voice).(waveform := Waveform(draws))
      ensures messages == old(messages) && inputMessage == old(inputMessage)
      ensures isTyping == old(isTyping) && pendingReplies == old(pendingReplies)
    {
      voice := voice.(waveform := Waveform(draws));
    }
  }
}
