/** The endpoint the delayed-task service calls once a conversation has gone
    quiet: drain the conversation's Redis buffer, combine the fragments into
    one turn, ask the Groq model, record the exchange, update the lead and
    send the reply through the Evolution API. The signature check that
    wraps the handler is not part of this model. */
module ProcessBuffer {
  import opened Wrappers
  import opened Text
  import opened Completion
  import opened Store
  import opened Turn
  import opened Script

  /** The Redis list of pending fragments. */
  function BufferKey(id: string): string {
    "buffer:" + id
  }

  /** The Redis key of the pending flush. */
  function ScheduleKey(id: string): string {
    "schedule:" + id
  }

  /** The two keys never collide, and each names one conversation. */
  lemma KeysDistinct(id: string, other: string)
    ensures BufferKey(id) != ScheduleKey(other)
    ensures BufferKey(id) == BufferKey(other) <==> id == other
    ensures ScheduleKey(id) == ScheduleKey(other) <==> id == other
  {
    assert BufferKey(id)[0] != ScheduleKey(other)[0];
    if BufferKey(id) == BufferKey(other) {
      assert id == BufferKey(id)[7..] == BufferKey(other)[7..] == other;
    }
    if ScheduleKey(id) == ScheduleKey(other) {
      assert id == ScheduleKey(id)[9..] == ScheduleKey(other)[9..] == other;
    }
  }

  /** What `messages.join('\n\n')` puts between fragments. */
  const Separator: string := "\n\n"

  /** The roles of the Groq chat API. */
  datatype ChatRole = User | Assistant

  datatype ChatMessage = ChatMessage(role: ChatRole, content: string)

  /** Stored role to Groq role: `'model'` is the assistant, anything else is
      the user. */
  function ChatRoleOf(stored: string): ChatRole {
    if stored == ModelRole then Assistant else User
  }

  /** `history.map(...)`: one message per row, in the same order. */
  function FormatHistory(rows: seq<MessageRow>): (ms: seq<ChatMessage>)
    ensures |ms| == |rows|
    ensures forall k :: 0 <= k < |rows| ==> ms[k] == ChatMessage(ChatRoleOf(rows[k].role), rows[k].content)
  {
    if rows == [] then []
    else [ChatMessage(ChatRoleOf(rows[0].role), rows[0].content)] + FormatHistory(rows[1..])
  }

  /** Formatting distributes over appending rows. */
  lemma FormatAppend(rows: seq<MessageRow>, more: seq<MessageRow>)
    ensures FormatHistory(rows + more) == FormatHistory(rows) + FormatHistory(more)
  {
    var l, r := FormatHistory(rows + more), FormatHistory(rows) + FormatHistory(more);
    assert |l| == |r|;
    forall k | 0 <= k < |l|
      ensures l[k] == r[k]
    {
      if k < |rows| {
        assert (rows + more)[k] == rows[k];
      } else {
        assert (rows + more)[k] == more[k - |rows|];
      }
    }
  }

  /** The `generateText` call: the system instruction (whose text is
      `Wording(system)`) and the messages. */
  datatype GroqRequest = GroqRequest(system: Instruction, messages: seq<ChatMessage>)

  /** The request for a turn: the formatted history, then the combined text
      as a user message. */
  function Prompt(history: seq<MessageRow>, combined: string): (q: GroqRequest)
    ensures q.system == GroqInterview
    ensures |q.messages| == |history| + 1
    ensures q.messages[..|history|] == FormatHistory(history)
    ensures q.messages[|history|] == ChatMessage(User, combined)
  {
    GroqRequest(GroqInterview, FormatHistory(history) + [ChatMessage(User, combined)])
  }

  /** Used as the reply when `generateText` throws. */
  const GroqFallback: string :=
    "Mensagem recebida, " + "porém com erro. " + "Nossa equipe " + "verificará em breve."

  /** The reply text: the model's text, or the fallback when the call threw
      (`None`). */
  function ReplyOf(answer: Option<string>): string {
    match answer
    case Some(text) => text
    case None => GroqFallback
  }

  /** The suffix the handler strips from the id before dispatch. */
  const WaSuffix: string := "@s.whatsapp.net"

  /** `whatsappId.replace('@s.whatsapp.net', '')`. */
  function Recipient(id: string): (number: string)
    ensures |number| <= |id|
    ensures !Contains(id, WaSuffix) ==> number == id
  {
    ReplaceFirst(id, WaSuffix, "")
  }

  /** A phone-number id with the WhatsApp suffix loses exactly the suffix. */
  lemma RecipientStripsSuffix(number: string)
    requires '@' !in number
    ensures Recipient(number + WaSuffix) == number
  {
    var id := number + WaSuffix;
    assert OccursAt(id, WaSuffix, |number|) by {
      assert id[|number|..|number| + |WaSuffix|] == WaSuffix;
    }
    forall j: nat | j < |number|
      ensures !OccursAt(id, WaSuffix, j)
    {
      assert id[j] == number[j] != '@' && WaSuffix[0] == '@';
    }
    ReplaceAtFirst(id, WaSuffix, "", |number|);
    assert id[..|number|] == number;
  }

  /** An id without the suffix is dispatched as it is. */
  lemma RecipientWithoutSuffix(id: string)
    requires !Contains(id, WaSuffix)
    ensures Recipient(id) == id
  {
    ReplaceAbsent(id, WaSuffix, "");
  }

  /** `evoBody.delay`. */
  const DispatchDelay: nat := 1200

  /** What the handler answers. */
  datatype Response =
    | Processed(count: nat)  // { ok: true, processed: count }
    | ConfigMissing          // 500 { error: 'Config missing' }
    | Failed                 // 500 from the outer catch: the `fetch` threw

  /** `config?.groq_api_key` is truthy. */
  predicate HasGroqKey(config: Option<Config>) {
    config.Some? && config.value.groqApiKey != ""
  }

  /** The whole request as a function of the state before it. `config` is the
      `configuracoes` row (`None` when there is none), `llm` answers a Groq
      request (`None` when it throws), `parse` is `JSON.parse`, `dispatch`
      how the `sendText` request ends. */
  function Handle(t: Tables, id: string, config: Option<Config>,
                  llm: GroqRequest -> Option<string>, parse: string -> Option<LeadFields>,
                  dispatch: DispatchOutcome): (Tables, Response)
  {
    var fragments := ListAt(t.redis, BufferKey(id));
    if fragments == [] then (t, Processed(0))
    else
      var combined := Join(fragments, Separator);
      var drained := t.(redis := t.redis - {BufferKey(id)} - {ScheduleKey(id)});
      if !HasGroqKey(config) then (drained, ConfigMissing)
      else
        var reply := ReplyOf(llm(Prompt(History(t.messages, id), combined)));
        var (after, responseText) := Record(drained, id, combined, reply, parse);
        var out := Outgoing(Recipient(id), OrReceived(responseText), Some(DispatchDelay));
        (after.(outbox := after.outbox + [out]),
         if dispatch == Unreachable then Failed else Processed(|fragments|))
  }

  /** The handler, step by step against the backend. */
  method Handler(b: Backend, id: string, config: Option<Config>,
                 llm: GroqRequest -> Option<string>, parse: string -> Option<LeadFields>,
                 dispatch: DispatchOutcome) returns (resp: Response)
    modifies b
    ensures (b.Snapshot(), resp) == Handle(old(b.Snapshot()), id, config, llm, parse, dispatch)
  {
    var messages := b.LRange(BufferKey(id));
    if messages == [] {
      return Processed(0);
    }
    var combinedMessage := Join(messages, Separator);
    ghost var before := b.Snapshot();
    b.Del(BufferKey(id));
    b.Del(ScheduleKey(id));
    ghost var drained := b.Snapshot();
    assert drained == before.(redis := before.redis - {BufferKey(id)} - {ScheduleKey(id)});
    if !HasGroqKey(config) {
      return ConfigMissing;
    }
    var history := b.SelectHistory(id);
    var aiResponseText := "";
    var answer := llm(Prompt(history, combinedMessage));
    if answer.Some? {
      aiResponseText := answer.value;
    } else {
      aiResponseText := GroqFallback;
    }
    assert aiResponseText == ReplyOf(llm(Prompt(History(before.messages, id), combinedMessage)));
    var responseText := RecordTurn(b, id, combinedMessage, aiResponseText, parse);
    var number := Recipient(id);
    b.Send(Outgoing(number, OrReceived(responseText), Some(DispatchDelay)));
    if dispatch == Unreachable {
      return Failed;
    }
    return Processed(|messages|);
  }

  /** An empty or missing buffer: `processed` is 0 and nothing at all changes
      (no message, no lead, no dispatch). */
  lemma EmptyBufferIsNoOp(t: Tables, id: string, config: Option<Config>,
                          llm: GroqRequest -> Option<string>, parse: string -> Option<LeadFields>,
                          dispatch: DispatchOutcome)
    requires ListAt(t.redis, BufferKey(id)) == []
    ensures Handle(t, id, config, llm, parse, dispatch) == (t, Processed(0))
  {
  }

  /** A non-empty buffer is drained whatever happens next: both keys are gone,
      every other Redis key is as it was, and the response never reports 0. */
  lemma BufferDrained(t: Tables, id: string, config: Option<Config>,
                      llm: GroqRequest -> Option<string>, parse: string -> Option<LeadFields>,
                      dispatch: DispatchOutcome)
    requires ListAt(t.redis, BufferKey(id)) != []
    ensures var (after, resp) := Handle(t, id, config, llm, parse, dispatch);
            && BufferKey(id) !in after.redis && ScheduleKey(id) !in after.redis
            && (forall k :: k != BufferKey(id) && k != ScheduleKey(id) ==>
                  (k in after.redis <==> k in t.redis))
            && (forall k :: k in after.redis ==> after.redis[k] == t.redis[k])
            && resp != Processed(0)
  {
    var combined := Join(ListAt(t.redis, BufferKey(id)), Separator);
    var drained := t.(redis := t.redis - {BufferKey(id)} - {ScheduleKey(id)});
    var reply := ReplyOf(llm(Prompt(History(t.messages, id), combined)));
    RecordFrame(drained, id, combined, reply, parse);
  }

  /** The buffer is cleared before the configuration is checked: without a
      Groq key the fragments are gone, the answer is the 500, and nothing is
      written to the tables or sent. */
  lemma ConfigMissingDropsFragments(t: Tables, id: string, config: Option<Config>,
                                    llm: GroqRequest -> Option<string>, parse: string -> Option<LeadFields>,
                                    dispatch: DispatchOutcome)
    requires ListAt(t.redis, BufferKey(id)) != []
    requires !HasGroqKey(config)
    ensures Handle(t, id, config, llm, parse, dispatch)
         == (t.(redis := t.redis - {BufferKey(id), ScheduleKey(id)}), ConfigMissing)
  {
    assert t.redis - {BufferKey(id)} - {ScheduleKey(id)} == t.redis - {BufferKey(id), ScheduleKey(id)};
  }

  /** A processed buffer: the model is asked with the history and the
      fragments joined by blank lines; the conversation's history then ends
      with that combined text as the user's row and the reply (the fallback
      if the model threw) as the model's row; the lead follows the
      extractor; one `sendText` request is issued to the id without its
      WhatsApp suffix; and
      `processed` is the fragment count unless the `fetch` threw. */
  lemma BufferProcessed(t: Tables, id: string, config: Option<Config>,
                        llm: GroqRequest -> Option<string>, parse: string -> Option<LeadFields>,
                        dispatch: DispatchOutcome)
    requires ListAt(t.redis, BufferKey(id)) != []
    requires HasGroqKey(config)
    ensures var fragments := ListAt(t.redis, BufferKey(id));
            var combined := Join(fragments, Separator);
            var reply := ReplyOf(llm(Prompt(History(t.messages, id), combined)));
            var d := Decide(reply, parse);
            var (after, resp) := Handle(t, id, config, llm, parse, dispatch);
            && History(after.messages, id) == History(t.messages, id) + TurnRows(id, combined, reply)
            && after.messages == t.messages + TurnRows(id, combined, reply)
            && after.leads == ApplyEffect(t.leads, id, d.effect)
            && after.outbox == t.outbox + [Outgoing(Recipient(id), OrReceived(d.responseText), Some(DispatchDelay))]
            && resp == (if dispatch == Unreachable then Failed else Processed(|fragments|))
  {
    var fragments := ListAt(t.redis, BufferKey(id));
    var combined := Join(fragments, Separator);
    var reply := ReplyOf(llm(Prompt(History(t.messages, id), combined)));
    var drained := t.(redis := t.redis - {BufferKey(id)} - {ScheduleKey(id)});
    RecordHistory(drained, id, combined, reply, parse);
  }

  /** The fallback has neither the marker nor a `{`, so it never triggers
      the extractor. */
  lemma FallbackUntriggered()
    ensures !Triggered(GroqFallback)
  {
    FallbackHasNoBracket();
    AbsentLead(GroqFallback, Sentinel);
    FallbackHasNoBrace();
  }

  /** The fallback has no `[`, the first character of the marker. */
  lemma FallbackHasNoBracket()
    ensures '[' !in GroqFallback
  {
  }

  /** The fallback has no `{`. */
  lemma FallbackHasNoBrace()
    ensures '{' !in GroqFallback
  {
  }

  /** When the model call throws, the model's row and the reply are the fixed
      fallback text, and the lead is only opened if the conversation has
      none. */
  lemma ModelFailureFallsBack(t: Tables, id: string, config: Option<Config>,
                              llm: GroqRequest -> Option<string>, parse: string -> Option<LeadFields>,
                              dispatch: DispatchOutcome)
    requires ListAt(t.redis, BufferKey(id)) != []
    requires HasGroqKey(config)
    requires llm(Prompt(History(t.messages, id), Join(ListAt(t.redis, BufferKey(id)), Separator))) == None
    ensures var after := Handle(t, id, config, llm, parse, dispatch).0;
            && after.messages == t.messages
                 + TurnRows(id, Join(ListAt(t.redis, BufferKey(id)), Separator), GroqFallback)
            && after.leads == InsertedIfAbsent(t.leads, id, Lead(EmAberto, None))
            && after.outbox == t.outbox + [Outgoing(Recipient(id), GroqFallback, Some(DispatchDelay))]
  {
    FallbackUntriggered();
    DecideUntriggered(GroqFallback, parse);
  }

  /** The next turn of the same conversation sends the exchange just recorded
      as a user message followed by an assistant message. */
  lemma NextPromptSeesExchange(t: Tables, id: string, userText: string, reply: string,
                               parse: string -> Option<LeadFields>, next: string)
    ensures var after := Record(t, id, userText, reply, parse).0;
            Prompt(History(after.messages, id), next).messages ==
              FormatHistory(History(t.messages, id))
              + [ChatMessage(User, userText), ChatMessage(Assistant, reply), ChatMessage(User, next)]
  {
    RecordHistory(t, id, userText, reply, parse);
    FormatExchange(History(t.messages, id), id, userText, reply);
  }

  /** The two rows of a turn format as a user message and an assistant
      message after the earlier history. */
  lemma FormatExchange(h: seq<MessageRow>, id: string, userText: string, reply: string)
    ensures FormatHistory(h + TurnRows(id, userText, reply))
         == FormatHistory(h) + [ChatMessage(User, userText), ChatMessage(Assistant, reply)]
  {
    var rows := TurnRows(id, userText, reply);
    FormatAppend(h, rows);
    assert ChatRoleOf(UserRole) == User by {
      assert UserRole[0] != ModelRole[0];
    }
    assert FormatHistory(rows) == [ChatMessage(User, userText), ChatMessage(Assistant, reply)];
  }

  /** Two buffered fragments become one turn with a blank line between
      them. */
  lemma TwoFragmentsCombine()
    ensures Join(["Hi", "My firm is X"], Separator) == "Hi\n\nMy firm is X"
  {
  }
}
