/**
 * The portfolio's chat widget (frontend/src/components/AiChat.js): the
 * suggestions offered while typing, choosing one, the voice-mode toggle, and
 * submitting a question whose streamed answer fills in one message.
 */
module AiChatWidget {
  import opened Wrappers
  import opened Text
  import opened Seqs

  datatype Sender = User | Ai

  /** A chat message; its id is a `Date.now()` reading. The timestamp is left out. */
  datatype ChatMessage = ChatMessage(id: int, text: string, sender: Sender)

  // ---------------------------------------------------------------------
  // Suggestions
  // ---------------------------------------------------------------------

  const PredefinedSuggestions: seq<string> := [
    "Tell me about Ibrahim's experience",
    "What technologies does he work with?",
    "What are his key projects?",
    "How can I contact Ibrahim?"
  ]

  const MaxSuggestions: nat := 3

  /** The suggestions shown for the input `value` (`handleInputChange`). */
  function SuggestionsFor(value: string): seq<string> {
    if IsBlank(value) then []
    else Take(Filter((s: string) => IncludesCI(s, value), PredefinedSuggestions), MaxSuggestions)
  }

  /**
   * A blank input offers nothing. Otherwise at most three suggestions are
   * offered, each includes the input ignoring case, they keep their
   * predefined order, a matching suggestion is left out only when three
   * others already fill the list, and those three are earlier ones: a match
   * is never passed over for a later one.
   */
  lemma SuggestionsForFacts(value: string)
    ensures var r := SuggestionsFor(value);
      && (IsBlank(value) ==> r == [])
      && |r| <= MaxSuggestions
      && (forall s :: s in r ==> s in PredefinedSuggestions && IncludesCI(s, value))
      && IsSubsequence(r, PredefinedSuggestions)
      && (!IsBlank(value) ==>
            forall s :: s in PredefinedSuggestions && IncludesCI(s, value) && s !in r ==> |r| == MaxSuggestions)
      && (forall i, j ::
            0 <= i < j < |PredefinedSuggestions| && IncludesCI(PredefinedSuggestions[i], value) && PredefinedSuggestions[j] in r
            ==> PredefinedSuggestions[i] in r)
  {
    if !IsBlank(value) {
      var p := (s: string) => IncludesCI(s, value);
      var all := Filter(p, PredefinedSuggestions);
      var r := Take(all, MaxSuggestions);
      FilterIsSubsequence(p, PredefinedSuggestions);
      forall s ensures s in all <==> s in PredefinedSuggestions && p(s) {
        FilterMembership(p, PredefinedSuggestions, s);
      }
      assert r <= all;
      PrefixIsSubsequence(r, all);
      SubsequenceTransitive(r, all, PredefinedSuggestions);
      forall s | s in r ensures s in all {
        var k :| 0 <= k < |r| && r[k] == s;
        assert all[k] == s;
      }
      assert NoDuplicates(PredefinedSuggestions);
      forall i, j | 0 <= i < j < |PredefinedSuggestions| && p(PredefinedSuggestions[i]) && PredefinedSuggestions[j] in r
        ensures PredefinedSuggestions[i] in r
      {
        TakeFilterKeepsEarlier(p, PredefinedSuggestions, MaxSuggestions, i, j);
      }
    } else {
      assert IsSubsequence([], PredefinedSuggestions);
    }
  }

  // ---------------------------------------------------------------------
  // Streamed update
  // ---------------------------------------------------------------------

  /**
   * `prev.map(msg => msg.id === id ? {...msg, text} : msg)`: the messages
   * carrying `id` get the new text, every other message is kept as is.
   */
  function SetText(msgs: seq<ChatMessage>, id: int, text: string): (r: seq<ChatMessage>)
    ensures |r| == |msgs|
    ensures forall k :: 0 <= k < |msgs| && msgs[k].id == id ==> r[k] == msgs[k].(text := text)
    ensures forall k :: 0 <= k < |msgs| && msgs[k].id != id ==> r[k] == msgs[k]
  {
    Map((m: ChatMessage) => if m.id == id then m.(text := text) else m, msgs)
  }

  /** A later update of the same message overrides an earlier one. */
  lemma SetTextTwice(msgs: seq<ChatMessage>, id: int, a: string, b: string)
    ensures SetText(SetText(msgs, id, a), id, b) == SetText(msgs, id, b)
  {
  }

  /**
   * The chunk callback run over the stream: `fullResponse += chunk`, then
   * the message `id` shows `fullResponse`.
   */
  method ApplyChunks(sent: seq<ChatMessage>, id: int, chunks: seq<string>) returns (msgs: seq<ChatMessage>, fullResponse: string)
    ensures fullResponse == ConcatAll(chunks)
    ensures msgs == if chunks == [] then sent else SetText(sent, id, fullResponse)
  {
    msgs, fullResponse := sent, "";
    for i := 0 to |chunks|
      invariant fullResponse == ConcatAll(chunks[..i])
      invariant msgs == if i == 0 then sent else SetText(sent, id, fullResponse)
    {
      ConcatAllSnoc(chunks[..i], chunks[i]);
      assert chunks[..i + 1] == chunks[..i] + [chunks[i]];
      var next := fullResponse + chunks[i];
      if i > 0 {
        SetTextTwice(sent, id, fullResponse, next);
      }
      fullResponse := next;
      msgs := SetText(msgs, id, fullResponse);
    }
    assert chunks[..|chunks|] == chunks;
  }

  // ---------------------------------------------------------------------
  // The component's state
  // ---------------------------------------------------------------------

  class ChatWidget {
    var isOpen: bool
    var messages: seq<ChatMessage>
    var input: string
    var isLoading: bool
    var suggestions: seq<string>
    var isVoiceMode: bool
    var isListening: bool
    var isSpeaking: bool

    constructor()
      ensures !isOpen && messages == [] && input == "" && !isLoading && suggestions == []
      ensures !isVoiceMode && !isListening && !isSpeaking
    {
      isOpen := false;
      messages := [];
      input := "";
      isLoading := false;
      suggestions := [];
      isVoiceMode := false;
      isListening := false;
      isSpeaking := false;
    }

    /** `handleInputChange`: the input follows the text box and the suggestions follow the input. */
    method HandleInputChange(value: string)
      modifies this
      ensures input == value && suggestions == SuggestionsFor(value)
      ensures isOpen == old(isOpen) && messages == old(messages) && isLoading == old(isLoading)
      ensures isVoiceMode == old(isVoiceMode) && isListening == old(isListening) && isSpeaking == old(isSpeaking)
    {
      input := value;
      if !IsBlank(value) {
        var filtered := Filter((s: string) => IncludesCI(s, value), PredefinedSuggestions);
        suggestions := Take(filtered, MaxSuggestions);
      } else {
        suggestions := [];
      }
    }

    /** `handleSuggestionClick`: the suggestion becomes the input and the list closes. */
    method HandleSuggestionClick(suggestion: string)
      modifies this
      ensures input == suggestion && suggestions == []
      ensures isOpen == old(isOpen) && messages == old(messages) && isLoading == old(isLoading)
      ensures isVoiceMode == old(isVoiceMode) && isListening == old(isListening) && isSpeaking == old(isSpeaking)
    {
      input := suggestion;
      suggestions := [];
    }

    /**
     * `handleVoiceToggle`: voice mode flips; listening stops and speech is
     * cancelled (`cancelSpeech`) if either was going on.
     */
    method HandleVoiceToggle() returns (cancelSpeech: bool)
      modifies this
      ensures isVoiceMode == !old(isVoiceMode)
      ensures !isListening && !isSpeaking && cancelSpeech == old(isSpeaking)
      ensures isOpen == old(isOpen) && messages == old(messages) && input == old(input)
      ensures isLoading == old(isLoading) && suggestions == old(suggestions)
    {
      isVoiceMode := !isVoiceMode;
      if isListening {
        isListening := false;
      }
      cancelSpeech := isSpeaking;
      if isSpeaking {
        isSpeaking := false;
      }
    }

    /**
     * `handleSubmit`. A blank input, or a request already under way,
     * changes nothing. Otherwise the trimmed input is sent as a user message
     * (id `userClock`), the input and the suggestions are cleared, and an
     * empty AI message (id `aiClock + 1`) is added. Each chunk of the answer
     * (`chunks`, from the service's stream) sets that message's text to
     * everything received so far. In voice mode a non-empty answer is
     * spoken (`spoken`).
     */
    method HandleSubmit(userClock: int, aiClock: int, chunks: seq<string>) returns (spoken: Option<string>)
      modifies this
      ensures IsBlank(old(input)) || old(isLoading) ==>
                && messages == old(messages) && input == old(input) && suggestions == old(suggestions)
                && isLoading == old(isLoading) && spoken.None?
      ensures !IsBlank(old(input)) && !old(isLoading) ==>
                var sent := old(messages) + [ChatMessage(userClock, Trim(old(input)), User), ChatMessage(aiClock + 1, "", Ai)];
                messages == (if chunks == [] then sent else SetText(sent, aiClock + 1, ConcatAll(chunks)))
      ensures !IsBlank(old(input)) && !old(isLoading) ==> input == "" && suggestions == [] && !isLoading
      ensures !IsBlank(old(input)) && !old(isLoading) ==>
                spoken == (if isVoiceMode && ConcatAll(chunks) != "" then Some(ConcatAll(chunks)) else None)
      ensures isOpen == old(isOpen) && isVoiceMode == old(isVoiceMode)
      ensures isListening == old(isListening) && isSpeaking == old(isSpeaking)
    {
      if IsBlank(input) || isLoading {
        return None;
      }
      // The user's message and the empty AI message, then the stream; the
      // request is under way (`isLoading`) only between the two.
      var sent := messages + [ChatMessage(userClock, Trim(input), User), ChatMessage(aiClock + 1, "", Ai)];
      var msgs, fullResponse := ApplyChunks(sent, aiClock + 1, chunks);
      spoken := if isVoiceMode && fullResponse != "" then Some(fullResponse) else None;
      messages, input, suggestions, isLoading := msgs, "", [], false;
    }
  }

  /**
   * After a submit with at least one chunk, the new AI message is last and
   * holds the whole answer, and the messages before the submit are
   * unchanged unless they carry the same id.
   */
  lemma StreamedAnswerLandsInAiMessage(before: seq<ChatMessage>, question: string, userClock: int, aiClock: int,
                                      chunks: seq<string>)
    requires chunks != []
    ensures var after := SetText(before + [ChatMessage(userClock, question, User), ChatMessage(aiClock + 1, "", Ai)],
                                 aiClock + 1, ConcatAll(chunks));
      && |after| == |before| + 2
      && after[|after| - 1] == ChatMessage(aiClock + 1, ConcatAll(chunks), Ai)
      && (forall k :: 0 <= k < |before| && before[k].id != aiClock + 1 ==> after[k] == before[k])
  {
  }
}
