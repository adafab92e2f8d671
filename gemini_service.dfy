/**
 * The chat service of the front end (frontend/src/services/geminiService.js):
 * the five-minute cache of the assistant's instructions, the system
 * instruction built from them and the résumé text, and the reply of the
 * back end's chat endpoint replayed to the caller word by word.
 */
module GeminiService {
  import opened Wrappers
  import opened Text
  import opened Seqs

  // ---------------------------------------------------------------------
  // Instruction cache
  // ---------------------------------------------------------------------

  /** `CACHE_DURATION`: five minutes, in milliseconds. */
  const CacheDuration: int := 5 * 60 * 1000

  /** The built-in instructions used whenever the back end cannot supply them. */
  const DefaultInstructions: string :=
    "You are Ibrahim El Khalil's AI assistant, helping visitors learn about his portfolio and capabilities.\n\n"
    + "Key Guidelines:\n"
    + "- Be professional, friendly, and helpful\n"
    + "- Provide accurate information about Ibrahim's experience, skills, and projects\n"
    + "- Guide users to relevant sections of the portfolio\n"
    + "- Answer questions about his work, education, and achievements\n"
    + "- If you don't know something, be honest and suggest contacting Ibrahim directly\n\n"
    + "Remember to maintain a conversational tone while being informative and respectful."

  /**
   * The request for `/api/ai-instructions`: it threw (network or JSON
   * error), answered with a non-OK status, or answered with a body whose
   * `instructions` field may be missing.
   */
  datatype InstructionsFetch = FetchError | NotOk | Answered(instructions: Option<string>)

  /** A load time is truthy: present and not 0. */
  predicate TimeSet(t: Option<int>) {
    t.Some? && t.value != 0
  }

  /** The cached instructions may be served at time `now`. */
  predicate CacheFresh(cached: Option<string>, loadTime: Option<int>, now: int) {
    Truthy(cached) && TimeSet(loadTime) && now - loadTime.value < CacheDuration
  }

  /** Instructions loaded at time `t` are served from the cache for exactly the next 300000 ms. */
  lemma FreshForFiveMinutes(s: string, t: int, now: int)
    requires s != "" && t != 0
    ensures CacheFresh(Some(s), Some(t), now) <==> now < t + 300000
  {
  }

  /** The module-level cache (`cachedInstructions`, `instructionsLoadTime`). */
  class InstructionCache {
    var cachedInstructions: Option<string>
    var instructionsLoadTime: Option<int>

    constructor()
      ensures cachedInstructions.None? && instructionsLoadTime.None?
    {
      cachedInstructions := None;
      instructionsLoadTime := None;
    }

    /**
     * `fetchAIInstructions` at time `now`. A fresh cache answers without a
     * request (`requested` is false). Otherwise the back end is asked: an
     * answer is stored with its time and returned as is; any failure returns
     * the built-in text and leaves the cache as it was.
     */
    method FetchAIInstructions(now: int, fetch: InstructionsFetch) returns (instructions: Option<string>, requested: bool)
      modifies this
      ensures requested <==> !CacheFresh(old(cachedInstructions), old(instructionsLoadTime), now)
      ensures !requested ==> instructions == old(cachedInstructions)
      ensures !requested || !fetch.Answered? ==>
                cachedInstructions == old(cachedInstructions) && instructionsLoadTime == old(instructionsLoadTime)
      ensures requested && fetch.Answered? ==>
                && cachedInstructions == fetch.instructions
                && instructionsLoadTime == Some(now)
                && instructions == fetch.instructions
      ensures requested && !fetch.Answered? ==> instructions == Some(DefaultInstructions)
    {
      if CacheFresh(cachedInstructions, instructionsLoadTime, now) {
        return cachedInstructions, false;
      }
      requested := true;
      if fetch.Answered? {
        cachedInstructions := fetch.instructions;
        instructionsLoadTime := Some(now);
        instructions := cachedInstructions;
      } else {
        instructions := Some(DefaultInstructions);
      }
    }
  }

  // ---------------------------------------------------------------------
  // System instruction
  // ---------------------------------------------------------------------

  /** A template literal renders a missing value as "undefined". */
  function Interpolate(s: Option<string>): string {
    if s.Some? then s.value else "undefined"
  }

  const ResumeHeading := "\n\nResume Information (Use this as your knowledge base):\n"

  const AnsweringRules :=
    "\n\nWhen answering:\n"
    + "1. Be professional but conversational\n"
    + "2. Use bullet points for lists\n"
    + "3. Highlight key achievements and technologies\n"
    + "4. If asked about specific skills or technologies, mention the relevant projects and experience\n"
    + "5. If someone asks how to contact Ibrahim, mention the LinkedIn and email options available on the portfolio\n"
    + "6. Always stay within the scope of the provided resume information\n"

  /** Where the parts of `a + h + m + z` sit. */
  lemma PartsOfFour(a: string, h: string, m: string, z: string)
    ensures StartsWith(a + h + m + z, a)
    ensures OccursAt(a + h + m + z, m, |a| + |h|)
    ensures OccursAt(a + h + m + z, z, |a + h + m + z| - |z|)
  {
    var r := a + h + m + z;
    assert r[..|a|] == a;
    assert r[|a| + |h|..|a| + |h| + |m|] == m;
    assert r[|r| - |z|..|r|] == z;
  }

  /**
   * `buildSystemInstruction`: the instructions come first, then the résumé
   * heading and the résumé text, then the answering rules.
   */
  function BuildSystemInstruction(custom: Option<string>, resume: string): (r: string)
    ensures StartsWith(r, Interpolate(custom))
    ensures OccursAt(r, resume, |Interpolate(custom)| + |ResumeHeading|)
    ensures OccursAt(r, AnsweringRules, |r| - |AnsweringRules|)
  {
    PartsOfFour(Interpolate(custom), ResumeHeading, resume, AnsweringRules);
    Interpolate(custom) + ResumeHeading + resume + AnsweringRules
  }

  // ---------------------------------------------------------------------
  // Streaming the chat reply
  // ---------------------------------------------------------------------

  /**
   * The POST to the chat endpoint: it threw, answered with a non-OK status
   * (which the code turns into a throw), or answered with a body whose
   * `response` and `message` fields may be missing.
   */
  datatype ChatReply = Unreachable | HttpError(status: int) | Body(response: Option<string>, message: Option<string>)

  const NoResponseApology := "Sorry, I couldn't generate a response."
  const ConnectionApology := "Sorry, I'm having trouble connecting to the AI service. Please try again later."

  /** `data.response || data.message || "Sorry, …"`: the first non-empty of the two fields, else the apology. */
  function ReplyText(response: Option<string>, message: Option<string>): (text: string)
    ensures Truthy(response) ==> text == response.value
    ensures !Truthy(response) && Truthy(message) ==> text == message.value
    ensures !Truthy(response) && !Truthy(message) ==> text == NoResponseApology
    ensures text != ""
  {
    if Truthy(response) then response.value
    else if Truthy(message) then message.value
    else NoResponseApology
  }

  /** Each word followed by one space. */
  function Spaced(words: seq<string>): (r: seq<string>)
    ensures |r| == |words|
    ensures forall k :: 0 <= k < |words| ==> r[k] == words[k] + " "
  {
    Map((w: string) => w + " ", words)
  }

  /** The spaced words concatenate to the words joined by spaces, plus one trailing space. */
  lemma {:induction false} ConcatSpaced(words: seq<string>)
    requires |words| >= 1
    ensures ConcatAll(Spaced(words)) == Join(words, " ") + " "
    decreases |words|
  {
    if |words| > 1 {
      ConcatSpaced(words[1..]);
      assert Spaced(words)[1..] == Spaced(words[1..]);
    }
  }

  /**
   * `streamChatMessage`: the chunks handed to `onChunk`, in order (the
   * 30 ms pauses between them are left out). A reply is cut at every single
   * space and each word is sent with one space after it, so the chunks
   * concatenate to the reply text plus one space. Any failure sends the
   * connection apology as the one and only chunk.
   */
  method StreamChatMessage(reply: ChatReply) returns (chunks: seq<string>)
    ensures reply.Body? ==> chunks == Spaced(Split(ReplyText(reply.response, reply.message), ' '))
    ensures reply.Body? ==> ConcatAll(chunks) == ReplyText(reply.response, reply.message) + " "
    ensures !reply.Body? ==> chunks == [ConnectionApology]
  {
    if !reply.Body? {
      return [ConnectionApology];
    }
    var responseText := ReplyText(reply.response, reply.message);
    var words := Split(responseText, ' ');
    chunks := SpaceWords(words);
    ConcatSpaced(words);
    JoinSplit(responseText, ' ');
  }

  /** The loop of `streamChatMessage` over the words: each is sent with one space after it. */
  method SpaceWords(words: seq<string>) returns (chunks: seq<string>)
    ensures chunks == Spaced(words)
  {
    chunks := [];
    for i := 0 to |words|
      invariant chunks == Spaced(words[..i])
    {
      chunks := chunks + [words[i] + " "];
    }
    assert words[..|words|] == words;
  }
}
