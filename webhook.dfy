/** The Evolution API webhook: filter the delivery down to an inbound text
    message, ask the Gemini model (through a retrying `fetch`) with the
    conversation so far, record the exchange, update the lead and answer
    through the Evolution API. */
module Webhook {
  import opened Wrappers
  import opened Completion
  import opened Store
  import opened Turn
  import opened Script

  /** How one `fetch` of the model ended: it threw, or it answered with a
      status (`ok`) and a body that `res.json()` could or could not read. */
  datatype HttpResult<T> = NetworkError | HttpResponse(ok: bool, json: Option<T>)

  /** An attempt succeeds with the parsed body when the status is ok and the
      body parses; a thrown `fetch`, a non-ok status and an unreadable body
      are all failures, caught and retried alike. */
  function Succeeded<T>(h: HttpResult<T>): Option<T> {
    if h.HttpResponse? && h.ok then h.json else None
  }

  /** What `fetchWithRetry` did: the body it returned (`None` when it
      rethrew), how many requests it made and the delays between them. */
  datatype Retried<T> = Retried(value: Option<T>, attempts: nat, delays: seq<int>)

  /** The number of requests `fetchWithRetry` may make. */
  function Budget(retries: int): nat {
    if retries <= 0 then 1 else retries + 1
  }

  function Pow2(k: nat): nat {
    if k == 0 then 1 else 2 * Pow2(k - 1)
  }

  function Sum(xs: seq<int>): int {
    if xs == [] then 0 else xs[0] + Sum(xs[1..])
  }

  /** Prepending `backoff` to a schedule that starts at `2 * backoff` gives
      the schedule that starts at `backoff`. */
  lemma DelaysDouble(backoff: int, rest: seq<int>)
    requires forall d :: 0 <= d < |rest| ==> rest[d] == backoff * 2 * Pow2(d)
    ensures forall d :: 0 <= d < |rest| + 1 ==> ([backoff] + rest)[d] == backoff * Pow2(d)
  {
    forall d | 0 <= d < |rest| + 1
      ensures ([backoff] + rest)[d] == backoff * Pow2(d)
    {
      if d > 0 {
        assert ([backoff] + rest)[d] == rest[d - 1];
        assert backoff * 2 * Pow2(d - 1) == backoff * (2 * Pow2(d - 1));
      }
    }
  }

  /** `fetchWithRetry(url, options, retries, backoff)` from the request with
      number `k` on, where `outcome(k)` is how request `k` ends. At most
      `Budget(retries)` requests are made; delay `d` is `backoff * 2^d`;
      every request before the last failed; the result is the body of the
      last one, and it is missing only when the budget is used up. */
  function FetchFrom<T>(outcome: nat -> HttpResult<T>, k: nat, retries: int, backoff: int): (r: Retried<T>)
    decreases if retries <= 0 then 0 else retries
    ensures 1 <= r.attempts <= Budget(retries)
    ensures |r.delays| == r.attempts - 1
    ensures forall d :: 0 <= d < |r.delays| ==> r.delays[d] == backoff * Pow2(d)
    ensures forall a: nat :: k <= a < k + r.attempts - 1 ==> Succeeded(outcome(a)).None?
    ensures r.value == Succeeded(outcome(k + r.attempts - 1))
    ensures r.value.None? ==> r.attempts == Budget(retries)
  {
    match Succeeded(outcome(k))
    case Some(body) => Retried(Some(body), 1, [])
    case None =>
      if retries <= 0 then Retried(None, 1, [])
      else
        var rest := FetchFrom(outcome, k + 1, retries - 1, backoff * 2);
        DelaysDouble(backoff, rest.delays);
        Retried(rest.value, rest.attempts + 1, [backoff] + rest.delays)
  }

  /** `fetchWithRetry` from the first request. */
  function FetchWithRetry<T>(outcome: nat -> HttpResult<T>, retries: int, backoff: int): Retried<T> {
    FetchFrom(outcome, 0, retries, backoff)
  }

  /** The first request that succeeds within the budget is the last one made,
      and its body is the result. */
  lemma FirstSuccessWins<T>(outcome: nat -> HttpResult<T>, retries: int, backoff: int, a: nat)
    requires a < Budget(retries)
    requires Succeeded(outcome(a)).Some?
    requires forall j :: 0 <= j < a ==> Succeeded(outcome(j)).None?
    ensures FetchWithRetry(outcome, retries, backoff).attempts == a + 1
    ensures FetchWithRetry(outcome, retries, backoff).value == Succeeded(outcome(a))
  {
  }

  /** The defaults of `fetchWithRetry`. */
  const DefaultRetries: int := 5
  const DefaultBackoff: int := 1000

  /** With the defaults and each of the six requests failing: six requests, waits of 1,
      2, 4, 8 and 16 seconds (31 in all), then the error is rethrown. */
  lemma DefaultScheduleAllFail<T>(outcome: nat -> HttpResult<T>)
    requires forall a: nat :: a < Budget(DefaultRetries) ==> Succeeded(outcome(a)).None?
    ensures var r := FetchWithRetry(outcome, DefaultRetries, DefaultBackoff);
            && r.value == None && r.attempts == 6
            && r.delays == [1000, 2000, 4000, 8000, 16000]
            && Sum(r.delays) == 31000
  {
    var r := FetchWithRetry(outcome, DefaultRetries, DefaultBackoff);
    assert r.value == Succeeded(outcome(r.attempts - 1));
    assert Pow2(1) == 2 && Pow2(2) == 4 && Pow2(3) == 8 && Pow2(4) == 16;
    assert r.delays == [1000, 2000, 4000, 8000, 16000];
    assert Sum([16000]) == 16000;
    assert Sum([8000, 16000]) == 24000;
    assert Sum([4000, 8000, 16000]) == 28000;
    assert Sum([2000, 4000, 8000, 16000]) == 30000;
  }

  /** `messages[0]` of a delivery, with the fields the handler reads; an
      absent JavaScript value is `None`. */
  datatype WaMessage = WaMessage(
    fromMe: bool,
    remoteJid: string,
    conversation: Option<string>,
    extendedText: Option<string>)

  /** A delivery: `body.event` and `body.data.messages`. */
  datatype Payload = Payload(event: string, messages: seq<WaMessage>)

  /** A present, non-empty string. */
  predicate Truthy(o: Option<string>) {
    o.Some? && o.value != ""
  }

  /** `message?.conversation || message?.extendedTextMessage?.text`, with
      `None` when neither is truthy. */
  function UserText(m: WaMessage): (r: Option<string>)
    ensures r.Some? ==> r.value != ""
    ensures r.None? <==> !Truthy(m.conversation) && !Truthy(m.extendedText)
    ensures Truthy(m.conversation) ==> r == m.conversation
    ensures !Truthy(m.conversation) && Truthy(m.extendedText) ==> r == m.extendedText
  {
    if Truthy(m.conversation) then m.conversation
    else if Truthy(m.extendedText) then m.extendedText
    else None
  }

  /** What the filter chain makes of a delivery. */
  datatype Inbound =
    | Ignored                            // answered { ok: true } at once
    | Malformed                          // `messages[0].key` throws: 500
    | Accepted(id: string, text: string) // processed as a turn

  /** The early returns of `POST`. */
  function Classify(p: Payload): (c: Inbound)
    ensures c.Accepted? ==> c.text != [] && |p.messages| > 0 && c.id == p.messages[0].remoteJid
  {
    if p.event != "messages.upsert" then Ignored
    else if |p.messages| == 0 then Malformed
    else if p.messages[0].fromMe then Ignored
    else match UserText(p.messages[0])
      case None => Ignored
      case Some(text) => Accepted(p.messages[0].remoteJid, text)
  }

  /** A delivery is processed exactly when it is a `messages.upsert` whose
      first message is not the bot's own and carries text. */
  lemma AcceptedIff(p: Payload, id: string, text: string)
    ensures Classify(p) == Accepted(id, text) <==>
              && p.event == "messages.upsert" && |p.messages| > 0
              && !p.messages[0].fromMe
              && id == p.messages[0].remoteJid
              && UserText(p.messages[0]) == Some(text)
  {
  }

  /** The single part of an entry of `contents`: a text, or the instruction
      (a part whose text is `Wording(script)`). */
  datatype Part = Said(text: string) | Instructed(script: Instruction)

  /** One entry of `contents`: the role and its single part. */
  datatype GeminiTurn = GeminiTurn(role: string, part: Part)

  /** `history.map(m => ({ role: m.role, parts: [{ text: m.content }] }))`:
      the stored role is passed through unchanged. */
  function PassThrough(history: seq<MessageRow>): (ts: seq<GeminiTurn>)
    ensures |ts| == |history|
    ensures forall k :: 0 <= k < |history| ==> ts[k] == GeminiTurn(history[k].role, Said(history[k].content))
  {
    if history == [] then []
    else [GeminiTurn(history[0].role, Said(history[0].content))] + PassThrough(history[1..])
  }

  /** `contents`: the instruction as a user turn, the history as stored, and
      the new message as a user turn. */
  function Contents(history: seq<MessageRow>, userMessage: string): (c: seq<GeminiTurn>)
    ensures |c| == |history| + 2
    ensures c[0] == GeminiTurn(UserRole, Instructed(GeminiInterview))
    ensures forall k :: 0 <= k < |history| ==> c[k + 1] == GeminiTurn(history[k].role, Said(history[k].content))
    ensures c[|history| + 1] == GeminiTurn(UserRole, Said(userMessage))
  {
    [GeminiTurn(UserRole, Instructed(GeminiInterview))] + PassThrough(history) + [GeminiTurn(UserRole, Said(userMessage))]
  }

  /** The part of a model answer the handler reads:
      `candidates?.[0]?.content?.parts?.[0]?.text`. */
  datatype Candidate = Candidate(parts: seq<Option<string>>)
  datatype GeminiBody = GeminiBody(candidates: seq<Candidate>)

  function FirstText(body: GeminiBody): Option<string> {
    if |body.candidates| > 0 && |body.candidates[0].parts| > 0
    then body.candidates[0].parts[0] else None
  }

  /** Used when the answer has no text. */
  const GeminiFallback: string := "Desculpe, não entendi. Pode repetir?"

  /** `aiText`: the first candidate's text, or the fallback; never empty. */
  function AiText(body: GeminiBody): (r: string)
    ensures r != []
    ensures Truthy(FirstText(body)) ==> r == FirstText(body).value
    ensures !Truthy(FirstText(body)) ==> r == GeminiFallback
  {
    if Truthy(FirstText(body)) then FirstText(body).value else GeminiFallback
  }

  /** The model call of `POST`, with the default retry policy. */
  function AskGemini(gemini: seq<GeminiTurn> -> nat -> HttpResult<GeminiBody>,
                     contents: seq<GeminiTurn>): Retried<GeminiBody>
  {
    FetchWithRetry(gemini(contents), DefaultRetries, DefaultBackoff)
  }

  /** What `POST` answers. */
  datatype Response =
    | Ack            // { ok: true }
    | Success        // { success: true }
    | InternalError  // 500 { error: "Internal Error" }

  /** The whole request as a function of the state before it. `gemini`
      says how request number `k` with the given contents ends, `parse` is
      `JSON.parse`, `dispatch` how the `sendText` request ends. */
  function Post(t: Tables, p: Payload,
                gemini: seq<GeminiTurn> -> nat -> HttpResult<GeminiBody>,
                parse: string -> Option<LeadFields>, dispatch: DispatchOutcome): (Tables, Response)
  {
    match Classify(p)
    case Ignored => (t, Ack)
    case Malformed => (t, InternalError)
    case Accepted(id, text) =>
      var contents := Contents(History(t.messages, id), text);
      match AskGemini(gemini, contents).value
      case None => (t, InternalError)
      case Some(body) =>
        var aiText := AiText(body);
        var (after, responseText) := Record(t, id, text, aiText, parse);
        (after.(outbox := after.outbox + [Outgoing(id, OrReceived(responseText), None)]),
         if dispatch == Unreachable then InternalError else Success)
  }

  /** `POST`, step by step against the backend. */
  method Handler(b: Backend, p: Payload,
                 gemini: seq<GeminiTurn> -> nat -> HttpResult<GeminiBody>,
                 parse: string -> Option<LeadFields>, dispatch: DispatchOutcome) returns (resp: Response)
    modifies b
    ensures (b.Snapshot(), resp) == Post(old(b.Snapshot()), p, gemini, parse, dispatch)
  {
    if p.event != "messages.upsert" {
      return Ack;
    }
    if |p.messages| == 0 {
      return InternalError;
    }
    var messageData := p.messages[0];
    if messageData.fromMe {
      return Ack;
    }
    var whatsappId := messageData.remoteJid;
    var userMessage := UserText(messageData);
    if userMessage.None? {
      return Ack;
    }
    assert Classify(p) == Accepted(whatsappId, userMessage.value);
    ghost var before := b.Snapshot();
    var history := b.SelectHistory(whatsappId);
    var contents := Contents(history, userMessage.value);
    var geminiResponse := AskGemini(gemini, contents);
    if geminiResponse.value.None? {
      return InternalError;
    }
    var aiText := AiText(geminiResponse.value.value);
    var responseText := RecordTurn(b, whatsappId, userMessage.value, aiText, parse);
    ghost var recorded := b.Snapshot();
    assert (recorded, responseText) == Record(before, whatsappId, userMessage.value, aiText, parse);
    b.Send(Outgoing(whatsappId, OrReceived(responseText), None));
    if dispatch == Unreachable {
      return InternalError;
    }
    return Success;
  }

  /** A delivery that is not `messages.upsert`, is the bot's own message or
      carries no text is acknowledged and nothing is read, written or sent. */
  lemma IgnoredIsNoOp(t: Tables, p: Payload,
                      gemini: seq<GeminiTurn> -> nat -> HttpResult<GeminiBody>,
                      parse: string -> Option<LeadFields>, dispatch: DispatchOutcome)
    requires || p.event != "messages.upsert"
             || (|p.messages| > 0 && p.messages[0].fromMe)
             || (|p.messages| > 0 && !Truthy(p.messages[0].conversation) && !Truthy(p.messages[0].extendedText))
    ensures Post(t, p, gemini, parse, dispatch) == (t, Ack)
  {
  }

  /** When every request to the model fails, `fetchWithRetry` rethrows and
      the request ends in a 500 with nothing written and nothing sent. */
  lemma ModelUnreachableWritesNothing(t: Tables, p: Payload,
                                      gemini: seq<GeminiTurn> -> nat -> HttpResult<GeminiBody>,
                                      parse: string -> Option<LeadFields>, dispatch: DispatchOutcome)
    requires Classify(p).Accepted?
    requires forall k: nat :: k < Budget(DefaultRetries) ==> Succeeded(gemini(Contents(History(t.messages, Classify(p).id), Classify(p).text))(k)).None?
    ensures Post(t, p, gemini, parse, dispatch) == (t, InternalError)
  {
    var contents := Contents(History(t.messages, Classify(p).id), Classify(p).text);
    DefaultScheduleAllFail(gemini(contents));
  }

  /** An accepted delivery the model answered: the history gains the user's
      text then the model's text, and the table only gains those two rows; the
      lead follows the extractor; one `sendText` request is issued to the raw
      `remoteJid` with `responseText`, which is never empty,
      so the `"Recebido."` fallback is never used here. */
  lemma AcceptedProcessed(t: Tables, p: Payload,
                          gemini: seq<GeminiTurn> -> nat -> HttpResult<GeminiBody>,
                          parse: string -> Option<LeadFields>, dispatch: DispatchOutcome)
    requires Classify(p).Accepted?
    requires AskGemini(gemini, Contents(History(t.messages, Classify(p).id), Classify(p).text)).value.Some?
    ensures var Accepted(id, text) := Classify(p);
            var body := AskGemini(gemini, Contents(History(t.messages, id), text)).value.value;
            var d := Decide(AiText(body), parse);
            var (after, resp) := Post(t, p, gemini, parse, dispatch);
            && id == p.messages[0].remoteJid
            && History(after.messages, id) == History(t.messages, id) + TurnRows(id, text, AiText(body))
            && after.messages == t.messages + TurnRows(id, text, AiText(body))
            && after.leads == ApplyEffect(t.leads, id, d.effect)
            && after.redis == t.redis
            && after.outbox == t.outbox + [Outgoing(id, d.responseText, None)]
            && resp == (if dispatch == Unreachable then InternalError else Success)
  {
    var Accepted(id, text) := Classify(p);
    var body := AskGemini(gemini, Contents(History(t.messages, id), text)).value.value;
    RecordHistory(t, id, text, AiText(body), parse);
    RecordResponseNonEmpty(t, id, text, AiText(body), parse);
  }
}
