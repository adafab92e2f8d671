/**
 * The chat window of the TypeScript front end (components/AiChat.tsx):
 * closing with or without confirmation, and sending a message: the history
 * handed to the model, the streamed answer written into the last message,
 * and the suggestions the answer may carry after a `[SUGGESTIONS]` marker.
 */
module ChatSession {
  import opened Wrappers
  import opened Text

  datatype Sender = User | Ai

  /** `ChatMessage`: a sender and a text. */
  datatype Msg = Msg(sender: Sender, text: string)

  /** One entry of the model's conversation history (`Content` with a single text part). */
  datatype Content = Content(role: string, text: string)

  const Greeting := "Hello! I'm Ibrahim's AI assistant. Feel free to ask me anything about his professional background."
  const ConnectionApology := "Sorry, I'm having trouble connecting. Please try again later."
  const SuggestionsMarker := "[SUGGESTIONS]"

  // ---------------------------------------------------------------------
  // History
  // ---------------------------------------------------------------------

  function Role(s: Sender): string {
    if s == User then "user" else "model"
  }

  /** `currentMessages.map(msg => ({role, parts: [{text}]}))`. */
  function HistoryOf(msgs: seq<Msg>): (h: seq<Content>)
    ensures |h| == |msgs|
    ensures forall k :: 0 <= k < |msgs| ==> h[k].text == msgs[k].text
    ensures forall k :: 0 <= k < |msgs| ==> (h[k].role == "user" <==> msgs[k].sender == User)
    ensures forall k :: 0 <= k < |msgs| ==> (h[k].role == "model" <==> msgs[k].sender == Ai)
  {
    seq(|msgs|, k requires 0 <= k < |msgs| => Content(Role(msgs[k].sender), msgs[k].text))
  }

  /** The history of a longer conversation extends the history of a shorter one. */
  lemma HistoryOfAppend(a: seq<Msg>, b: seq<Msg>)
    ensures HistoryOf(a + b) == HistoryOf(a) + HistoryOf(b)
  {
  }

  // ---------------------------------------------------------------------
  // Last-message update
  // ---------------------------------------------------------------------

  /**
   * The in-place update of the streamed reply: the last message takes the
   * text if it is the AI's; otherwise, and for an empty list, nothing changes.
   */
  function UpdateLast(msgs: seq<Msg>, text: string): (r: seq<Msg>)
    ensures |r| == |msgs|
    ensures msgs != [] ==> r[..|msgs| - 1] == msgs[..|msgs| - 1]
    ensures msgs != [] && msgs[|msgs| - 1].sender == Ai ==> r[|msgs| - 1] == Msg(Ai, text)
    ensures msgs == [] || msgs[|msgs| - 1].sender != Ai ==> r == msgs
  {
    if msgs != [] && msgs[|msgs| - 1].sender == Ai then msgs[..|msgs| - 1] + [Msg(Ai, text)] else msgs
  }

  // ---------------------------------------------------------------------
  // [SUGGESTIONS]
  // ---------------------------------------------------------------------

  /** The text before the first `[SUGGESTIONS]` of `s`, or all of `s` (`s.split(marker)[0]`). */
  function FirstPart(s: string): (part: string)
    ensures IndexOf(s, SuggestionsMarker).None? ==> part == s
    ensures IndexOf(s, SuggestionsMarker).Some? ==> part == s[..IndexOf(s, SuggestionsMarker).value]
    ensures !Contains(part, SuggestionsMarker)
  {
    ContainsIffIndexOf(s, SuggestionsMarker);
    match IndexOf(s, SuggestionsMarker)
    case None => s
    case Some(i) =>
      NoOccurrenceBefore(s, i);
      s[..i]
  }

  /** A prefix that ends before the first occurrence holds no occurrence. */
  lemma NoOccurrenceBefore(s: string, i: nat)
    requires IndexOf(s, SuggestionsMarker) == Some(i)
    ensures !Contains(s[..i], SuggestionsMarker)
  {
    ContainsIff(s[..i], SuggestionsMarker);
    forall j | OccursAt(s[..i], SuggestionsMarker, j) ensures false {
      assert s[..i][j..j + |SuggestionsMarker|] == s[j..j + |SuggestionsMarker|];
      assert OccursAt(s, SuggestionsMarker, j);
    }
  }

  /** The two trimmed parts around the first marker. */
  datatype SuggestionSplit = SuggestionSplit(mainText: string, suggestionsJson: string)

  /**
   * `parts = text.split('[SUGGESTIONS]')`, `parts[0].trim()` and
   * `parts[1].trim()`, when the text includes the marker: the text before
   * the first marker, and the text between it and the next marker (or the
   * end).
   */
  function SplitSuggestions(text: string): (r: Option<SuggestionSplit>)
    ensures r.None? <==> !Contains(text, SuggestionsMarker)
  {
    ContainsIffIndexOf(text, SuggestionsMarker);
    match IndexOf(text, SuggestionsMarker)
    case None => None
    case Some(i) => Some(SuggestionSplit(Trim(text[..i]), Trim(FirstPart(text[i + |SuggestionsMarker|..]))))
  }

  /** No proper suffix of the marker is a prefix of it: it starts with its only `[`. */
  lemma MarkerHasNoBorder(k: nat)
    requires 1 <= k < |SuggestionsMarker|
    ensures SuggestionsMarker[k] != SuggestionsMarker[0]
  {
  }

  /**
   * An answer written as a text, the marker and a JSON part, with no marker
   * inside either part, is split back into exactly those two parts, trimmed.
   */
  lemma SplitSuggestionsRoundTrip(a: string, b: string)
    requires !Contains(a, SuggestionsMarker) && !Contains(b, SuggestionsMarker)
    ensures SplitSuggestions(a + SuggestionsMarker + b) == Some(SuggestionSplit(Trim(a), Trim(b)))
  {
    var m := SuggestionsMarker;
    var t := a + m + b;
    assert t[|a|..|a| + |m|] == m;
    assert OccursAt(t, m, |a|);
    ContainsIff(a, m);
    forall j | 0 <= j < |a| ensures !OccursAt(t, m, j) {
      if j + |m| <= |a| {
        assert a[j..j + |m|] == t[j..j + |m|];
        assert !OccursAt(a, m, j);
      } else {
        MarkerHasNoBorder(|a| - j);
        assert t[|a|] == m[0];
        assert j + |m| <= |t| ==> t[j..j + |m|][|a| - j] == t[|a|];
      }
    }
    var r := IndexOf(t, m);
    assert r.Some? && r.value == |a|;
    assert t[..|a|] == a;
    assert t[|a| + |m|..] == b;
    ContainsIffIndexOf(b, m);
  }

  // ---------------------------------------------------------------------
  // The outcome of a send
  // ---------------------------------------------------------------------

  /** What the AI message finally shows, and the suggestions offered after it. */
  datatype Answer = Answer(text: string, suggestions: seq<string>)

  /**
   * The outcome of the streamed text `full`. A failing stream leaves the
   * apology and no suggestions. Otherwise the whole streamed text stays, with
   * no suggestions, unless it holds the marker and its JSON part parses;
   * then the text is the trimmed part before the marker and the suggestions
   * are the parsed ones. `parsed` is what `JSON.parse` makes of that JSON
   * part (`None` when it throws); the parser itself is not part of this
   * model.
   */
  function FinalAnswer(full: string, failed: bool, parsed: Option<seq<string>>): Answer {
    if failed then Answer(ConnectionApology, [])
    else
      match SplitSuggestions(full)
      case Some(sp) => if parsed.Some? then Answer(sp.mainText, parsed.value) else Answer(full, [])
      case None => Answer(full, [])
  }

  /** An answer without the marker is shown as streamed, with no suggestions, whatever `parsed` is. */
  lemma AnswerWithoutMarker(full: string, parsed: Option<seq<string>>)
    requires !Contains(full, SuggestionsMarker)
    ensures FinalAnswer(full, false, parsed) == Answer(full, [])
  {
  }

  /** An answer that follows the suggestions format shows its text and its parsed suggestions. */
  lemma WellFormedAnswer(a: string, b: string, parsed: Option<seq<string>>)
    requires !Contains(a, SuggestionsMarker) && !Contains(b, SuggestionsMarker)
    requires parsed.Some?
    ensures FinalAnswer(a + SuggestionsMarker + b, false, parsed) == Answer(Trim(a), parsed.value)
  {
    SplitSuggestionsRoundTrip(a, b);
  }

  /** Updating the AI message at the end of a conversation replaces its text and nothing else. */
  lemma UpdateLastAi(base: seq<Msg>, x: string, y: string)
    ensures UpdateLast(base + [Msg(Ai, x)], y) == base + [Msg(Ai, y)]
  {
    assert (base + [Msg(Ai, x)])[..|base|] == base;
  }

  /**
   * The stream loop of `handleSendMessage`: an empty AI message follows
   * `base`, and each chunk is appended to the answer, which the last
   * message then shows. The AI message ends up holding every chunk, in order.
   */
  method StreamReply(base: seq<Msg>, chunks: seq<string>) returns (msgs: seq<Msg>, aiResponseText: string)
    ensures aiResponseText == ConcatAll(chunks)
    ensures msgs == base + [Msg(Ai, aiResponseText)]
  {
    aiResponseText := "";
    msgs := base + [Msg(Ai, "")];
    for i := 0 to |chunks|
      invariant aiResponseText == ConcatAll(chunks[..i])
      invariant msgs == base + [Msg(Ai, aiResponseText)]
    {
      ConcatAllSnoc(chunks[..i], chunks[i]);
      assert chunks[..i + 1] == chunks[..i] + [chunks[i]];
      UpdateLastAi(base, aiResponseText, aiResponseText + chunks[i]);
      aiResponseText := aiResponseText + chunks[i];
      msgs := UpdateLast(msgs, aiResponseText);
    }
    assert chunks[..|chunks|] == chunks;
  }

  /**
   * What follows the stream in `handleSendMessage`: a failure puts the
   * apology into the AI message; an answer carrying suggestions that parse
   * shows its main text and those suggestions; any other answer stays as
   * streamed, with no suggestions.
   */
  method FinishReply(base: seq<Msg>, aiResponseText: string, failed: bool, parsed: Option<seq<string>>)
    returns (msgs: seq<Msg>, suggestions: seq<string>)
    ensures msgs == base + [Msg(Ai, FinalAnswer(aiResponseText, failed, parsed).text)]
    ensures suggestions == FinalAnswer(aiResponseText, failed, parsed).suggestions
  {
    msgs, suggestions := base + [Msg(Ai, aiResponseText)], [];
    if failed {
      UpdateLastAi(base, aiResponseText, ConnectionApology);
      msgs := UpdateLast(msgs, ConnectionApology);
    } else if Contains(aiResponseText, SuggestionsMarker) {
      var sp := SplitSuggestions(aiResponseText).value;
      if parsed.Some? {
        suggestions := parsed.value;
        UpdateLastAi(base, aiResponseText, sp.mainText);
        msgs := UpdateLast(msgs, sp.mainText);
      }
    }
  }

  /**
   * One question and its answer, after `before`: the user's message, the
   * history handed to the model, the streamed AI message as finished by
   * `FinishReply`, and the suggestions. While the answer streams in, the
   * chat also shows the AI message growing; the input and the suggestions
   * are cleared, and loading lasts until the first chunk (or, without one,
   * until `finally`).
   */
  method Exchange(before: seq<Msg>, messageText: string, chunks: seq<string>, failed: bool, parsed: Option<seq<string>>)
    returns (history: seq<Content>, msgs: seq<Msg>, suggestions: seq<string>)
    ensures history == HistoryOf(before + [Msg(User, messageText)])
    ensures msgs == before + [Msg(User, messageText), Msg(Ai, FinalAnswer(ConcatAll(chunks), failed, parsed).text)]
    ensures suggestions == FinalAnswer(ConcatAll(chunks), failed, parsed).suggestions
  {
    var currentMessages := before + [Msg(User, messageText)];
    history := HistoryOf(currentMessages);
    var streamed, aiResponseText := StreamReply(currentMessages, chunks);
    msgs, suggestions := FinishReply(currentMessages, aiResponseText, failed, parsed);
  }

  // ---------------------------------------------------------------------
  // The component's state
  // ---------------------------------------------------------------------

  class ChatWindow {
    var isOpen: bool
    var messages: seq<Msg>
    var input: string
    var isLoading: bool
    var suggestions: seq<string>
    var showConfirmation: bool

    constructor()
      ensures !isOpen && messages == [] && input == "" && !isLoading && suggestions == [] && !showConfirmation
    {
      isOpen := false;
      messages := [];
      input := "";
      isLoading := false;
      suggestions := [];
      showConfirmation := false;
    }

    /** Opening an empty chat starts the greeting (which the one-second timer then delivers). */
    method Open()
      modifies this
      ensures isOpen && isLoading == (old(isLoading) || old(messages) == [])
      ensures messages == old(messages) && input == old(input)
      ensures suggestions == old(suggestions) && showConfirmation == old(showConfirmation)
    {
      isOpen := true;
      if messages == [] {
        isLoading := true;
      }
    }

    /** The greeting timer: the chat holds exactly the greeting. */
    method DeliverGreeting()
      modifies this
      ensures messages == [Msg(Ai, Greeting)] && !isLoading
      ensures isOpen == old(isOpen) && input == old(input)
      ensures suggestions == old(suggestions) && showConfirmation == old(showConfirmation)
    {
      messages := [Msg(Ai, Greeting)];
      isLoading := false;
    }

    /**
     * `handleCloseChat`: a conversation beyond the greeting asks for
     * confirmation and keeps everything; otherwise the chat closes and empties.
     */
    method HandleCloseChat()
      modifies this
      ensures |old(messages)| > 1 ==> showConfirmation && isOpen == old(isOpen) && messages == old(messages)
      ensures |old(messages)| <= 1 ==> !isOpen && messages == [] && showConfirmation == old(showConfirmation)
      ensures input == old(input) && isLoading == old(isLoading) && suggestions == old(suggestions)
    {
      if |messages| > 1 {
        showConfirmation := true;
      } else {
        isOpen := false;
        messages := [];
      }
    }

    /** "End Session": closed, no dialog, no messages. */
    method ConfirmClose()
      modifies this
      ensures !isOpen && !showConfirmation && messages == []
      ensures input == old(input) && isLoading == old(isLoading) && suggestions == old(suggestions)
    {
      isOpen := false;
      showConfirmation := false;
      messages := [];
    }

    /**
     * `handleSendMessage(messageText)`. A blank text changes nothing.
     * Otherwise the text, untrimmed, is added as the user's message; the
     * history of the conversation up to it is handed to the model
     * (`history`); an empty AI message follows and receives the streamed
     * text chunk by chunk (`chunks`, then a failure if `failed`); finally the
     * AI message holds the text of `FinalAnswer` of the streamed text and the
     * suggestions are its suggestions. The input is cleared and loading is over.
     */
    method HandleSendMessage(messageText: string, chunks: seq<string>, failed: bool,
                             parsed: Option<seq<string>>) returns (history: seq<Content>)
      modifies this
      ensures isOpen == old(isOpen) && showConfirmation == old(showConfirmation)
      ensures IsBlank(messageText) ==> unchanged(this) && history == []
      ensures !IsBlank(messageText) ==> history == HistoryOf(old(messages) + [Msg(User, messageText)])
      ensures !IsBlank(messageText) ==> input == "" && !isLoading
      ensures !IsBlank(messageText) ==>
                var answer := FinalAnswer(ConcatAll(chunks), failed, parsed);
                && messages == old(messages) + [Msg(User, messageText), Msg(Ai, answer.text)]
                && suggestions == answer.suggestions
    {
      if IsBlank(messageText) {
        return [];
      }
      var finalMessages, finalSuggestions;
      history, finalMessages, finalSuggestions := Exchange(messages, messageText, chunks, failed, parsed);
      messages, input, suggestions, isLoading := finalMessages, "", finalSuggestions, false;
    }
  }
}
