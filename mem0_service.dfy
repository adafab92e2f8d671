/**
 * The memory layer of the back end (backend/mem0_service.py): a service
 * object that holds a client of the external memory store, or nothing when
 * no API key is configured or the client could not be created; guarded
 * pass-throughs to the store; the context paragraph built from the memories
 * a chat message recalls; and the lazily created process-wide instance.
 *
 * The store itself is not modelled: each call into it is a request the
 * service issues (`StoreRequest`) and an outcome supplied by the caller
 * (`Call`), which either raised an exception or returned a value.
 */
module Mem0Service {
  import opened Wrappers
  import opened Text

  // ---------------------------------------------------------------------
  // The store client and the calls into it
  // ---------------------------------------------------------------------

  /** The vector-store configuration handed to `Memory.from_config`. */
  datatype StoreConfig = StoreConfig(provider: string, collectionName: string, path: string)

  const ChromaConfig := StoreConfig("chroma", "portfolio_memories", "./chroma_db")

  /** A client of the memory store, created from its configuration. */
  datatype MemoryClient = MemoryClient(config: StoreConfig)

  /** One message of a stored conversation: its role and its content. */
  datatype ChatTurn = ChatTurn(role: string, content: string)

  /** A call the service makes into the store, with the arguments it passes. */
  datatype StoreRequest =
    | Add(messages: seq<ChatTurn>, userId: string, metadata: map<string, string>)
    | Search(query: string, userId: string, limit: int)
    | GetAll(userId: string)
    | Delete(memoryId: string)
    | DeleteAll(userId: string)

  /** The outcome of a call into the store: an exception with its message, or a returned value. */
  datatype Call<T> = Raised(error: string) | Returned(value: T)

  /** A memory as the store returns it: a dictionary whose `memory` entry may be missing. */
  datatype MemoryEntry = MemoryEntry(memory: Option<string>)

  /** `mem.get('memory', '')`. */
  function MemoryText(m: MemoryEntry): string {
    m.memory.GetOr("")
  }

  /** The dictionary `add_conversation` returns. */
  datatype AddResult<R> = AddResult(success: bool, result: Option<R>, message: Option<string>)

  const NotAvailableMessage := "Memory service not available"

  /** The number of memories `search_memories` asks for by default. */
  const DefaultSearchLimit: int := 5

  /** The number of memories `get_context_for_chat` asks for by default. */
  const DefaultContextLimit: int := 3

  /**
   * `results.get('results', [])` after a call that may raise: the listed
   * memories, or none when the call raised or the key is missing.
   */
  function ResultsOf(call: Call<Option<seq<MemoryEntry>>>): (r: seq<MemoryEntry>)
    ensures call.Raised? ==> r == []
    ensures call.Returned? ==> r == call.value.GetOr([])
  {
    match call
    case Raised(_) => []
    case Returned(answer) => answer.GetOr([])
  }

  // ---------------------------------------------------------------------
  // The context paragraph
  // ---------------------------------------------------------------------

  const ContextHeader := "Based on what I remember about you:"

  /** The line for the memory at 1-based position `i`, or none when its text is empty. */
  function LineFor(i: nat, m: MemoryEntry): seq<string> {
    if MemoryText(m) != "" then [NatToString(i) + ". " + MemoryText(m)] else []
  }

  /**
   * The numbered lines of `ms`: one "i. text" line per memory with a
   * non-empty text, numbered by the memory's 1-based position, in order.
   */
  function NumberedLines(ms: seq<MemoryEntry>): seq<string>
    decreases |ms|
  {
    if ms == [] then [] else NumberedLines(ms[..|ms| - 1]) + LineFor(|ms|, ms[|ms| - 1])
  }

  /**
   * A line is listed exactly when some memory at position `j` (0-based) has
   * a non-empty text and the line reads `j + 1`, ". " and that text. Empty
   * memories are skipped without renumbering the others.
   */
  lemma {:induction false} NumberedLinesMembers(ms: seq<MemoryEntry>, l: string)
    ensures l in NumberedLines(ms) <==>
              exists j :: 0 <= j < |ms| && MemoryText(ms[j]) != "" && l == NatToString(j + 1) + ". " + MemoryText(ms[j])
    decreases |ms|
  {
    if ms != [] {
      var init := ms[..|ms| - 1];
      NumberedLinesMembers(init, l);
      if l in NumberedLines(ms) && l !in NumberedLines(init) {
        var j := |ms| - 1;
        assert MemoryText(ms[j]) != "" && l == NatToString(j + 1) + ". " + MemoryText(ms[j]);
      }
      if exists j :: 0 <= j < |ms| && MemoryText(ms[j]) != "" && l == NatToString(j + 1) + ". " + MemoryText(ms[j]) {
        var j :| 0 <= j < |ms| && MemoryText(ms[j]) != "" && l == NatToString(j + 1) + ". " + MemoryText(ms[j]);
        if j < |ms| - 1 {
          assert init[j] == ms[j];
        }
      }
    }
  }

  /** There are no lines exactly when every memory's text is empty. */
  lemma {:induction false} NoLinesIffAllEmpty(ms: seq<MemoryEntry>)
    ensures NumberedLines(ms) == [] <==> forall j :: 0 <= j < |ms| ==> MemoryText(ms[j]) == ""
    decreases |ms|
  {
    if ms != [] {
      var init := ms[..|ms| - 1];
      NoLinesIffAllEmpty(init);
      if NumberedLines(ms) == [] {
        forall j | 0 <= j < |ms| ensures MemoryText(ms[j]) == "" {
          if j < |ms| - 1 {
            assert init[j] == ms[j];
          }
        }
      }
    }
  }

  /** `"\n".join(parts)` is the first part followed by every other part, each after a newline. */
  lemma {:induction false} JoinNewlines(first: string, rest: seq<string>)
    ensures Join([first] + rest, "\n") == first + ConcatAll(Prefixed("\n", rest))
    decreases |rest|
  {
    if rest != [] {
      JoinNewlines(rest[0], rest[1..]);
      assert ([first] + rest)[1..] == [rest[0]] + rest[1..];
      assert Prefixed("\n", rest)[1..] == Prefixed("\n", rest[1..]);
    }
  }

  /** Each part preceded by `sep`. */
  function Prefixed(sep: string, parts: seq<string>): (r: seq<string>)
    ensures |r| == |parts|
    ensures forall k :: 0 <= k < |parts| ==> r[k] == sep + parts[k]
  {
    seq(|parts|, k requires 0 <= k < |parts| => sep + parts[k])
  }

  /**
   * The context for a list of recalled memories: nothing when no memory has
   * any text; otherwise the header and then each numbered line on a line of
   * its own.
   */
  function FormatContext(ms: seq<MemoryEntry>): (context: string)
    ensures context == "" <==> forall j :: 0 <= j < |ms| ==> MemoryText(ms[j]) == ""
    ensures context != "" ==> context == ContextHeader + ConcatAll(Prefixed("\n", NumberedLines(ms)))
  {
    NoLinesIffAllEmpty(ms);
    var lines := NumberedLines(ms);
    JoinNewlines(ContextHeader, lines);
    if lines == [] then "" else Join([ContextHeader] + lines, "\n")
  }

  /**
   * The formatting loop of `get_context_for_chat`: `context_parts` starts
   * with the header, gains one line per memory with text, and is joined by
   * newlines when it holds more than the header.
   */
  method BuildContext(memories: seq<MemoryEntry>) returns (context: string)
    ensures context == FormatContext(memories)
  {
    var contextParts := [ContextHeader];
    for i := 0 to |memories|
      invariant contextParts == [ContextHeader] + NumberedLines(memories[..i])
    {
      assert memories[..i + 1][..i] == memories[..i];
      var memoryText := MemoryText(memories[i]);
      if memoryText != "" {
        contextParts := contextParts + [NatToString(i + 1) + ". " + memoryText];
      }
    }
    assert memories[..|memories|] == memories;
    context := if |contextParts| > 1 then Join(contextParts, "\n") else "";
  }

  // ---------------------------------------------------------------------
  // The service
  // ---------------------------------------------------------------------

  class Mem0Service {
    /** The store client, or nothing when the service is unavailable. */
    var memory: Option<MemoryClient>

    /**
     * `__init__`. The key is `GOOGLE_API_KEY`, or `GEMINI_API_KEY` when
     * that is unset or empty. Without a key, or when creating the client
     * fails (`initOk` false), there is no client; otherwise the client is
     * created from the Chroma configuration.
     */
    constructor(googleApiKey: Option<string>, geminiApiKey: Option<string>, initOk: bool)
      ensures memory.Some? <==> (Truthy(googleApiKey) || Truthy(geminiApiKey)) && initOk
      ensures memory.Some? ==> memory.value == MemoryClient(ChromaConfig)
    {
      var key := if Truthy(googleApiKey) then googleApiKey else geminiApiKey;
      if !Truthy(key) {
        memory := None;
      } else if initOk {
        memory := Some(MemoryClient(ChromaConfig));
      } else {
        memory := None;
      }
    }

    /** `is_available`. */
    predicate IsAvailable()
      reads this
    {
      memory.Some?
    }

    /**
     * `add_conversation`: unavailable, nothing is stored and the result
     * says so; otherwise the conversation is added under `userId` with the
     * metadata (an empty dictionary when there is none) and the result
     * reports the store's answer or the exception's message.
     */
    method AddConversation<R>(messages: seq<ChatTurn>, userId: string, metadata: Option<map<string, string>>,
                              call: Call<R>) returns (request: Option<StoreRequest>, result: AddResult<R>)
      ensures request.Some? <==> IsAvailable()
      ensures request.Some? ==> request.value == Add(messages, userId, metadata.GetOr(map[]))
      ensures !IsAvailable() ==> result == AddResult(false, None, Some(NotAvailableMessage))
      ensures IsAvailable() && call.Returned? ==> result == AddResult(true, Some(call.value), None)
      ensures IsAvailable() && call.Raised? ==> result == AddResult(false, None, Some(call.error))
      ensures result.success <==> IsAvailable() && call.Returned?
    {
      if !IsAvailable() {
        return None, AddResult(false, None, Some(NotAvailableMessage));
      }
      request := Some(Add(messages, userId, metadata.GetOr(map[])));
      match call
      case Returned(r) => result := AddResult(true, Some(r), None);
      case Raised(e) => result := AddResult(false, None, Some(e));
    }

    /** `search_memories`: the memories the store lists for the query, or none. */
    method SearchMemories(query: string, userId: string, limit: int, call: Call<Option<seq<MemoryEntry>>>)
      returns (request: Option<StoreRequest>, memories: seq<MemoryEntry>)
      ensures request.Some? <==> IsAvailable()
      ensures request.Some? ==> request.value == Search(query, userId, limit)
      ensures !IsAvailable() ==> memories == []
      ensures IsAvailable() ==> memories == ResultsOf(call)
    {
      if !IsAvailable() {
        return None, [];
      }
      request := Some(Search(query, userId, limit));
      memories := ResultsOf(call);
    }

    /** `get_all_memories`: every memory the store lists for the user, or none. */
    method GetAllMemories(userId: string, call: Call<Option<seq<MemoryEntry>>>)
      returns (request: Option<StoreRequest>, memories: seq<MemoryEntry>)
      ensures request.Some? <==> IsAvailable()
      ensures request.Some? ==> request.value == GetAll(userId)
      ensures !IsAvailable() ==> memories == []
      ensures IsAvailable() ==> memories == ResultsOf(call)
    {
      if !IsAvailable() {
        return None, [];
      }
      request := Some(GetAll(userId));
      memories := ResultsOf(call);
    }

    /** `delete_memory`: true exactly when the service is available and the store's delete returns. */
    method DeleteMemory(memoryId: string, call: Call<()>) returns (request: Option<StoreRequest>, ok: bool)
      ensures request.Some? <==> IsAvailable()
      ensures request.Some? ==> request.value == Delete(memoryId)
      ensures ok <==> IsAvailable() && call.Returned?
    {
      if !IsAvailable() {
        return None, false;
      }
      request := Some(Delete(memoryId));
      ok := call.Returned?;
    }

    /** `delete_all_memories`: true exactly when the service is available and the store's delete returns. */
    method DeleteAllMemories(userId: string, call: Call<()>) returns (request: Option<StoreRequest>, ok: bool)
      ensures request.Some? <==> IsAvailable()
      ensures request.Some? ==> request.value == DeleteAll(userId)
      ensures ok <==> IsAvailable() && call.Returned?
    {
      if !IsAvailable() {
        return None, false;
      }
      request := Some(DeleteAll(userId));
      ok := call.Returned?;
    }

    /**
     * `get_context_for_chat`: unavailable, or when the search recalls
     * nothing, the context is empty; otherwise it is the formatted context
     * of the recalled memories (empty when none of them has any text).
     */
    method GetContextForChat(userMessage: string, userId: string, limit: int, call: Call<Option<seq<MemoryEntry>>>)
      returns (request: Option<StoreRequest>, context: string)
      ensures request.Some? <==> IsAvailable()
      ensures request.Some? ==> request.value == Search(userMessage, userId, limit)
      ensures !IsAvailable() ==> context == ""
      ensures IsAvailable() ==> context == FormatContext(ResultsOf(call))
    {
      if !IsAvailable() {
        return None, "";
      }
      var memories;
      request, memories := SearchMemories(userMessage, userId, limit, call);
      if memories == [] {
        return request, "";
      }
      context := BuildContext(memories);
    }
  }

  // ---------------------------------------------------------------------
  // The process-wide instance
  // ---------------------------------------------------------------------

  /** The module-level `_mem0_service`. */
  class Registry {
    var service: Mem0Service?

    constructor()
      ensures service == null
    {
      service := null;
    }

    /**
     * `get_mem0_service`: the first call creates the service from the
     * environment (`googleApiKey`, `geminiApiKey`, `initOk`); every later
     * call returns that same object and ignores its arguments.
     */
    method GetMem0Service(googleApiKey: Option<string>, geminiApiKey: Option<string>, initOk: bool)
      returns (s: Mem0Service)
      modifies this
      ensures service == s
      ensures old(service) != null ==> s == old(service)
      ensures old(service) == null ==> fresh(s)
      ensures old(service) == null ==>
                (s.IsAvailable() <==> (Truthy(googleApiKey) || Truthy(geminiApiKey)) && initOk)
    {
      if service == null {
        service := new Mem0Service(googleApiKey, geminiApiKey, initOk);
      }
      s := service;
    }
  }
}
