/**
 * The two streaming chat handlers of the Gradio front end: `chat`, which takes
 * the conversation as (user, bot) pairs and yields the growing reply text, and
 * `respond`, which takes the conversation as role/content messages and yields
 * the whole updated conversation on every step.
 *
 * The OpenAI client call is replaced by its observable result: the sequence of
 * `choices[0].delta.content` values the stream delivered, and whether an
 * exception ended it (with the exception's text).
 */
module Chatbot {
  import opened Wrappers
  import opened Strings

  /** The server address shown in error messages (the default of the environment setting). */
  const VllmBaseUrl: string := "http://localhost:8009/v1"

  datatype Role = System | User | Assistant

  /** One entry of an OpenAI `messages` list: `{"role": ..., "content": ...}`. */
  datatype Message = Message(role: Role, content: string)

  /** One entry of the tuple-shaped history: the user's text and the bot's reply ("" when absent). */
  datatype Pair = Pair(user: string, bot: string)

  /**
   * What iterating the completion stream produced: the delta contents of the
   * chunks received, in order (`None` for a chunk whose delta has no content),
   * then `failure == Some(text)` if an exception with that text ended the
   * call (including one raised by the request itself, before any chunk).
   */
  datatype ChunkStream = ChunkStream(deltas: seq<Option<string>>, failure: Option<string>)

  // ---------------------------------------------------------------------------
  // Request messages

  /** `system_prompt and system_prompt.strip()`. */
  predicate HasSystemPrompt(systemPrompt: string) {
    systemPrompt != "" && Strip(systemPrompt) != ""
  }

  /** The optional leading system message; it carries the prompt as typed, not stripped. */
  function SystemMessages(systemPrompt: string): seq<Message> {
    if HasSystemPrompt(systemPrompt) then [Message(System, systemPrompt)] else []
  }

  /** The messages one history pair contributes: its user text, then its bot text, each only if non-empty. */
  function PairMessages(p: Pair): seq<Message> {
    (if p.user != "" then [Message(User, p.user)] else [])
    + (if p.bot != "" then [Message(Assistant, p.bot)] else [])
  }

  /** The messages the whole tuple history contributes, pair by pair. */
  function HistoryMessages(history: seq<Pair>): seq<Message> {
    if history == [] then []
    else HistoryMessages(history[..|history| - 1]) + PairMessages(history[|history| - 1])
  }

  /** The `messages` list `chat` sends. */
  function ChatRequest(systemPrompt: string, history: seq<Pair>, message: string): seq<Message> {
    SystemMessages(systemPrompt) + HistoryMessages(history) + [Message(User, message)]
  }

  /** The `messages` list `respond` sends: the dict-shaped history is passed through verbatim. */
  function RespondRequest(systemPrompt: string, history: seq<Message>, message: string): seq<Message> {
    SystemMessages(systemPrompt) + history + [Message(User, message)]
  }

  // ---------------------------------------------------------------------------
  // Streamed reply

  /** Python truthiness of a delta's content: present and non-empty. */
  predicate Truthy(delta: Option<string>) {
    delta.Some? && delta.value != ""
  }

  /** The non-empty delta contents, in stream order: the pieces appended to the reply. */
  function Pieces(deltas: seq<Option<string>>): seq<string> {
    if deltas == [] then []
    else
      var last := deltas[|deltas| - 1];
      Pieces(deltas[..|deltas| - 1]) + (if Truthy(last) then [last.value] else [])
  }

  /** The full reply text: every delta's content in order, a missing content counting as "". */
  function FullText(deltas: seq<Option<string>>): string {
    if deltas == [] then ""
    else FullText(deltas[..|deltas| - 1]) + deltas[|deltas| - 1].GetOr("")
  }

  /** The successive values of the accumulator in `response += piece; yield response`. */
  function Running(pieces: seq<string>): (r: seq<string>)
    ensures |r| == |pieces|
  {
    if pieces == [] then [] else Running(pieces[..|pieces| - 1]) + [Concat(pieces)]
  }

  /** The text `chat` yields after an exception whose text is `e`. */
  function ChatErrorMessage(e: string): string {
    "Error: " + e + "\n\nMake sure vLLM is running at " + VllmBaseUrl
  }

  /** Everything `chat` yields, in order. */
  function ChatYields(stream: ChunkStream): seq<string> {
    Running(Pieces(stream.deltas))
    + (if stream.failure.Some? then [ChatErrorMessage(stream.failure.value)] else [])
  }

  /** The text of the assistant message `respond` shows after an exception whose text is `e`. */
  function RespondErrorMessage(e: string): string {
    "Connection Error: " + e + "\n\nPlease check:\n1. vLLM is running: docker compose ps\n2. API endpoint: "
    + VllmBaseUrl
  }

  /** The conversation `respond` yields for one assistant reply text. */
  function Exchange(history: seq<Message>, message: string, reply: string): seq<Message> {
    history + [Message(User, message), Message(Assistant, reply)]
  }

  /** One yielded conversation per reply text, in order. */
  function Exchanges(history: seq<Message>, message: string, replies: seq<string>): (r: seq<seq<Message>>)
    ensures |r| == |replies|
  {
    if replies == [] then []
    else Exchanges(history, message, replies[..|replies| - 1]) + [Exchange(history, message, replies[|replies| - 1])]
  }

  /** Everything `respond` yields, in order. */
  function RespondYields(history: seq<Message>, message: string, stream: ChunkStream): seq<seq<Message>> {
    Exchanges(history, message, Running(Pieces(stream.deltas)))
    + (if stream.failure.Some? then [Exchange(history, message, RespondErrorMessage(stream.failure.value))] else [])
  }

  /** One more chunk adds its content to the pieces exactly when that content is non-empty. */
  lemma PiecesStep(deltas: seq<Option<string>>, j: nat)
    requires j < |deltas|
    ensures Pieces(deltas[..j + 1])
            == Pieces(deltas[..j]) + (if Truthy(deltas[j]) then [deltas[j].value] else [])
  {
    assert deltas[..j + 1][..j] == deltas[..j];
  }

  /** One more pair adds exactly that pair's messages. */
  lemma HistoryStep(history: seq<Pair>, i: nat)
    requires i < |history|
    ensures HistoryMessages(history[..i + 1]) == HistoryMessages(history[..i]) + PairMessages(history[i])
  {
    assert history[..i + 1][..i] == history[..i];
  }

  /** One more piece adds one accumulator value: the previous one extended by that piece. */
  lemma RunningStep(pieces: seq<string>, piece: string)
    ensures Concat(pieces + [piece]) == Concat(pieces) + piece
    ensures Running(pieces + [piece]) == Running(pieces) + [Concat(pieces) + piece]
  {
  }

  /** One more reply adds one conversation: the history, the user turn and that reply. */
  lemma ExchangesStep(history: seq<Message>, message: string, replies: seq<string>, reply: string)
    ensures Exchanges(history, message, replies + [reply])
            == Exchanges(history, message, replies) + [history + [Message(User, message)] + [Message(Assistant, reply)]]
  {
    assert (replies + [reply])[..|replies|] == replies;
    assert Exchange(history, message, reply) == history + [Message(User, message)] + [Message(Assistant, reply)];
  }

  // ---------------------------------------------------------------------------
  // The handlers

  /** The first half of `chat`: the request's `messages` list, built pair by pair. */
  method BuildChatRequest(systemPrompt: string, history: seq<Pair>, message: string)
    returns (messages: seq<Message>)
    ensures messages == ChatRequest(systemPrompt, history, message)
  {
    messages := [];
    if HasSystemPrompt(systemPrompt) {
      messages := messages + [Message(System, systemPrompt)];
    }
    for i := 0 to |history|
      invariant messages == SystemMessages(systemPrompt) + HistoryMessages(history[..i])
    {
      HistoryStep(history, i);
      var p := history[i];
      ghost var before := messages;
      if p.user != "" {
        messages := messages + [Message(User, p.user)];
      }
      if p.bot != "" {
        messages := messages + [Message(Assistant, p.bot)];
      }
      assert messages == before + PairMessages(p);
      AppendAssoc(SystemMessages(systemPrompt), HistoryMessages(history[..i]), PairMessages(p));
    }
    assert history[..|history|] == history;
    messages := messages + [Message(User, message)];
  }

  /**
   * `chat`: sends the request built by `BuildChatRequest`, then follows the
   * stream, yielding the reply so far on every chunk with non-empty content,
   * and one error text if the call raised.
   */
  method Chat(systemPrompt: string, history: seq<Pair>, message: string, stream: ChunkStream)
    returns (messages: seq<Message>, yielded: seq<string>)
    ensures messages == ChatRequest(systemPrompt, history, message)
    ensures yielded == ChatYields(stream)
  {
    messages := BuildChatRequest(systemPrompt, history, message);
    var deltas := stream.deltas;
    var response := "";
    yielded := [];
    for j := 0 to |deltas|
      invariant response == Concat(Pieces(deltas[..j]))
      invariant yielded == Running(Pieces(deltas[..j]))
    {
      var content := deltas[j];
      PiecesStep(deltas, j);
      if content.Some? && content.value != "" {
        RunningStep(Pieces(deltas[..j]), content.value);
        assert Pieces(deltas[..j + 1]) == Pieces(deltas[..j]) + [content.value];
        response := response + content.value;
        assert response == Concat(Pieces(deltas[..j + 1]));
        yielded := yielded + [response];
      } else {
        assert Pieces(deltas[..j + 1]) == Pieces(deltas[..j]);
      }
    }
    assert deltas[..|deltas|] == deltas;
    if stream.failure.Some? {
      yielded := yielded + [ChatErrorMessage(stream.failure.value)];
    }
  }

  /** The first half of `respond`: the request's `messages` list. */
  method BuildRespondRequest(systemPrompt: string, history: seq<Message>, message: string)
    returns (messages: seq<Message>)
    ensures messages == RespondRequest(systemPrompt, history, message)
  {
    messages := [];
    if HasSystemPrompt(systemPrompt) {
      messages := messages + [Message(System, systemPrompt)];
    }
    if history != [] {
      messages := messages + history;
    }
    messages := messages + [Message(User, message)];
  }

  /**
   * `respond`: builds the request from the system prompt, the message history
   * and the new message, then yields, on every chunk with non-empty content,
   * the history followed by the user turn and the reply so far; if the call
   * raised, one last conversation whose assistant turn is the error text.
   */
  method Respond(systemPrompt: string, history: seq<Message>, message: string, stream: ChunkStream)
    returns (messages: seq<Message>, yielded: seq<seq<Message>>)
    ensures messages == RespondRequest(systemPrompt, history, message)
    ensures yielded == RespondYields(history, message, stream)
  {
    messages := BuildRespondRequest(systemPrompt, history, message);
    var newHistory := history + [Message(User, message)];
    var deltas := stream.deltas;
    var response := "";
    yielded := [];
    for j := 0 to |deltas|
      invariant response == Concat(Pieces(deltas[..j]))
      invariant yielded == Exchanges(history, message, Running(Pieces(deltas[..j])))
    {
      var content := deltas[j];
      PiecesStep(deltas, j);
      if content.Some? && content.value != "" {
        RunningStep(Pieces(deltas[..j]), content.value);
        assert Pieces(deltas[..j + 1]) == Pieces(deltas[..j]) + [content.value];
        response := response + content.value;
        assert response == Concat(Pieces(deltas[..j + 1]));
        ghost var replies := Running(Pieces(deltas[..j + 1]));
        assert replies == Running(Pieces(deltas[..j])) + [response];
        assert replies[..|replies| - 1] == Running(Pieces(deltas[..j]));
        ExchangesStep(history, message, Running(Pieces(deltas[..j])), response);
        yielded := yielded + [newHistory + [Message(Assistant, response)]];
      } else {
        assert Pieces(deltas[..j + 1]) == Pieces(deltas[..j]);
      }
    }
    assert deltas[..|deltas|] == deltas;
    if stream.failure.Some? {
      assert Exchange(history, message, RespondErrorMessage(stream.failure.value))
          == newHistory + [Message(Assistant, RespondErrorMessage(stream.failure.value))];
      yielded := yielded + [newHistory + [Message(Assistant, RespondErrorMessage(stream.failure.value))]];
    }
  }

  // ---------------------------------------------------------------------------
  // Properties of the request

  /** The system message is sent exactly when the prompt has a non-whitespace character. */
  lemma SystemPromptPresentIff(systemPrompt: string)
    ensures HasSystemPrompt(systemPrompt) <==> exists i :: 0 <= i < |systemPrompt| && !IsSpace(systemPrompt[i])
  {
    StripEmptyIffAllSpace(systemPrompt);
  }

  /** The history is converted pair by pair, in history order. */
  lemma {:induction false} HistoryMessagesAppend(a: seq<Pair>, b: seq<Pair>)
    ensures HistoryMessages(a + b) == HistoryMessages(a) + HistoryMessages(b)
    decreases |b|
  {
    if b == [] {
      assert a + b == a;
    } else {
      var b' := b[..|b| - 1];
      assert (a + b)[..|a + b| - 1] == a + b';
      assert (a + b)[|a + b| - 1] == b[|b| - 1];
      HistoryMessagesAppend(a, b');
    }
  }

  /** At most two messages per pair, none of them a system message, none of them empty. */
  lemma {:induction false} HistoryMessagesWellFormed(history: seq<Pair>)
    ensures |HistoryMessages(history)| <= 2 * |history|
    ensures forall k :: 0 <= k < |HistoryMessages(history)| ==>
              HistoryMessages(history)[k].role != System && HistoryMessages(history)[k].content != ""
  {
    if history != [] {
      HistoryMessagesWellFormed(history[..|history| - 1]);
    }
  }

  /** When every pair has both texts, pair k becomes messages 2k (user) and 2k+1 (assistant). */
  lemma {:induction false} HistoryMessagesOfCompletePairs(history: seq<Pair>)
    requires forall k :: 0 <= k < |history| ==> history[k].user != "" && history[k].bot != ""
    ensures |HistoryMessages(history)| == 2 * |history|
    ensures forall k :: 0 <= k < |history| ==>
              HistoryMessages(history)[2 * k] == Message(User, history[k].user)
              && HistoryMessages(history)[2 * k + 1] == Message(Assistant, history[k].bot)
  {
    if history != [] {
      var prefix := history[..|history| - 1];
      HistoryMessagesOfCompletePairs(prefix);
      assert forall k :: 0 <= k < |prefix| ==> prefix[k] == history[k];
    }
  }

  /**
   * The request of `chat`: a system message first exactly when the prompt is
   * not blank (carrying the prompt unstripped), the new message last with role
   * user even when empty, and at most two messages per history pair.
   */
  lemma ChatRequestShape(systemPrompt: string, history: seq<Pair>, message: string)
    ensures var m := ChatRequest(systemPrompt, history, message);
            && 1 <= |m| <= 2 + 2 * |history|
            && m[|m| - 1] == Message(User, message)
            && (m[0].role == System <==> HasSystemPrompt(systemPrompt))
            && (HasSystemPrompt(systemPrompt) ==> m[0] == Message(System, systemPrompt))
  {
    HistoryMessagesWellFormed(history);
    var m := ChatRequest(systemPrompt, history, message);
    if !HasSystemPrompt(systemPrompt) && HistoryMessages(history) != [] {
      assert m[0] == HistoryMessages(history)[0];
    }
  }

  /**
   * The request of `respond`: the optional system message, then the history
   * exactly as given, then the new message as the last, user, entry.
   */
  lemma RespondRequestShape(systemPrompt: string, history: seq<Message>, message: string)
    ensures var m := RespondRequest(systemPrompt, history, message);
            var offset := if HasSystemPrompt(systemPrompt) then 1 else 0;
            && |m| == offset + |history| + 1
            && m[offset..offset + |history|] == history
            && m[|m| - 1] == Message(User, message)
            && (HasSystemPrompt(systemPrompt) ==> m[0] == Message(System, systemPrompt))
  {
  }

  // ---------------------------------------------------------------------------
  // Properties of the streamed reply

  /** The pieces are the non-empty contents; there are none exactly when no delta has content. */
  lemma {:induction false} PiecesNonEmpty(deltas: seq<Option<string>>)
    ensures |Pieces(deltas)| <= |deltas|
    ensures forall k :: 0 <= k < |Pieces(deltas)| ==> Pieces(deltas)[k] != ""
    ensures Pieces(deltas) == [] <==> forall k :: 0 <= k < |deltas| ==> !Truthy(deltas[k])
  {
    if deltas != [] {
      var prefix := deltas[..|deltas| - 1];
      PiecesNonEmpty(prefix);
      assert forall k :: 0 <= k < |prefix| ==> prefix[k] == deltas[k];
    }
  }

  /** Skipping the empty deltas loses no text: the pieces concatenate to the full reply. */
  lemma {:induction false} PiecesFullText(deltas: seq<Option<string>>)
    ensures Concat(Pieces(deltas)) == FullText(deltas)
  {
    if deltas != [] {
      var prefix := deltas[..|deltas| - 1];
      var last := deltas[|deltas| - 1];
      PiecesFullText(prefix);
      if Truthy(last) {
        RunningStep(Pieces(prefix), last.value);
      } else {
        assert Pieces(deltas) == Pieces(prefix);
      }
    }
  }

  /** The k-th accumulator value is the concatenation of the first k+1 pieces. */
  lemma {:induction false} RunningAt(pieces: seq<string>, k: nat)
    requires k < |pieces|
    ensures Running(pieces)[k] == Concat(pieces[..k + 1])
  {
    var prefix := pieces[..|pieces| - 1];
    if k == |pieces| - 1 {
      assert pieces[..k + 1] == pieces;
    } else {
      RunningAt(prefix, k);
      assert prefix[..k + 1] == pieces[..k + 1];
    }
  }

  /** Every yield of `chat` is the one before it (or "" for the first) extended by one non-empty piece. */
  lemma ChatYieldsExtend(stream: ChunkStream, k: nat)
    requires k < |Pieces(stream.deltas)|
    ensures var ys := ChatYields(stream);
            ys[k] == (if k == 0 then "" else ys[k - 1]) + Pieces(stream.deltas)[k]
            && (k > 0 ==> |ys[k - 1]| < |ys[k]|)
  {
    var pieces := Pieces(stream.deltas);
    PiecesNonEmpty(stream.deltas);
    RunningAt(pieces, k);
    assert pieces[..k + 1] == pieces[..k] + [pieces[k]];
    RunningStep(pieces[..k], pieces[k]);
    if k > 0 {
      RunningAt(pieces, k - 1);
    }
  }

  /** Each reply `chat` yields is a prefix of every later reply. */
  lemma ChatYieldsPrefix(stream: ChunkStream, i: nat, j: nat)
    requires i <= j < |Pieces(stream.deltas)|
    ensures ChatYields(stream)[i] <= ChatYields(stream)[j]
  {
    var pieces := Pieces(stream.deltas);
    RunningAt(pieces, i);
    RunningAt(pieces, j);
    assert pieces[..j + 1][..i + 1] == pieces[..i + 1];
    ConcatPrefix(pieces[..j + 1], i + 1);
  }

  /**
   * A stream that ends normally: `chat` yields nothing exactly when no delta
   * had content, and otherwise its last yield is the full reply text.
   */
  lemma ChatCompletedYields(stream: ChunkStream)
    requires stream.failure.None?
    ensures ChatYields(stream) == [] <==> forall k :: 0 <= k < |stream.deltas| ==> !Truthy(stream.deltas[k])
    ensures ChatYields(stream) != [] ==> ChatYields(stream)[|ChatYields(stream)| - 1] == FullText(stream.deltas)
  {
    var pieces := Pieces(stream.deltas);
    PiecesNonEmpty(stream.deltas);
    PiecesFullText(stream.deltas);
    if pieces != [] {
      RunningAt(pieces, |pieces| - 1);
      assert pieces[..|pieces|] == pieces;
    }
  }

  /**
   * A stream that raised: the partial replies already yielded stay as they
   * were, followed by exactly one error text that ends with the server URL.
   */
  lemma ChatFailedYields(stream: ChunkStream)
    requires stream.failure.Some?
    ensures var ys := ChatYields(stream);
            && |ys| == |Pieces(stream.deltas)| + 1
            && ys[..|ys| - 1] == Running(Pieces(stream.deltas))
            && ys[|ys| - 1] == ChatErrorMessage(stream.failure.value)
            && |VllmBaseUrl| <= |ys[|ys| - 1]|
            && ys[|ys| - 1][|ys[|ys| - 1]| - |VllmBaseUrl|..] == VllmBaseUrl
  {
  }

  /** The k-th conversation is the history, the user turn and the k-th reply. */
  lemma {:induction false} ExchangesAt(history: seq<Message>, message: string, replies: seq<string>, k: nat)
    requires k < |replies|
    ensures Exchanges(history, message, replies)[k] == Exchange(history, message, replies[k])
  {
    if k < |replies| - 1 {
      ExchangesAt(history, message, replies[..|replies| - 1], k);
    }
  }

  /**
   * `respond` yields, step for step, the conversations that show what `chat`
   * yields on the same stream; after an exception its last conversation shows
   * the error text in place of the partial reply.
   */
  lemma RespondMirrorsChat(history: seq<Message>, message: string, stream: ChunkStream)
    ensures |RespondYields(history, message, stream)| == |ChatYields(stream)|
    ensures forall k :: 0 <= k < |Pieces(stream.deltas)| ==>
              RespondYields(history, message, stream)[k] == Exchange(history, message, ChatYields(stream)[k])
    ensures stream.failure.Some? ==>
              RespondYields(history, message, stream)[|Pieces(stream.deltas)|]
              == Exchange(history, message, RespondErrorMessage(stream.failure.value))
  {
    var replies := Running(Pieces(stream.deltas));
    forall k | 0 <= k < |Pieces(stream.deltas)|
      ensures RespondYields(history, message, stream)[k] == Exchange(history, message, ChatYields(stream)[k])
    {
      ExchangesAt(history, message, replies, k);
    }
  }

  /**
   * Every conversation `respond` yields leaves the prior history untouched and
   * adds exactly the user turn and one assistant turn.
   */
  lemma RespondKeepsHistory(history: seq<Message>, message: string, stream: ChunkStream, k: nat)
    requires k < |RespondYields(history, message, stream)|
    ensures var y := RespondYields(history, message, stream)[k];
            && |y| == |history| + 2
            && y[..|history|] == history
            && y[|history|] == Message(User, message)
            && y[|history| + 1].role == Assistant
  {
    RespondMirrorsChat(history, message, stream);
  }
}
