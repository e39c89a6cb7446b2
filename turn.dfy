/** The part of a turn both handlers run the same way once they have the
    user's text and the model's reply: append the exchange to `mensagens`,
    run the completion extractor, write the lead, and leave `responseText`
    for dispatch. */
module Turn {
  import opened Wrappers
  import opened Text
  import opened Completion
  import opened Store

  /** `responseText || "Recebido."`. */
  function OrReceived(text: string): (r: string)
    ensures r != []
    ensures text != [] ==> r == text
  {
    if text == "" then "Recebido." else text
  }

  /** The two rows a turn inserts: the user's text, then the model's reply. */
  function TurnRows(id: string, userText: string, reply: string): seq<MessageRow> {
    [MessageRow(id, UserRole, userText), MessageRow(id, ModelRole, reply)]
  }

  /** What the decided effect does to `leads`. */
  function ApplyEffect(leads: map<string, Lead>, id: string, e: LeadEffect): map<string, Lead> {
    match e
    case Complete(f) => Upserted(leads, id, Lead(BriefingConcluido, Some(f)))
    case OpenIfAbsent => InsertedIfAbsent(leads, id, Lead(EmAberto, None))
    case Untouched => leads
  }

  /** The state and `responseText` after the exchange is recorded. */
  function Record(t: Tables, id: string, userText: string, reply: string,
                  parse: string -> Option<LeadFields>): (Tables, string)
  {
    var d := Decide(reply, parse);
    (t.(messages := t.messages + TurnRows(id, userText, reply),
        leads := ApplyEffect(t.leads, id, d.effect)),
     d.responseText)
  }

  /** Lines "salvar histórico" to the end of the extraction block, step by
      step as the handlers run them. */
  method RecordTurn(b: Backend, id: string, userText: string, reply: string,
                    parse: string -> Option<LeadFields>) returns (responseText: string)
    modifies b
    ensures (b.Snapshot(), responseText) == Record(old(b.Snapshot()), id, userText, reply, parse)
  {
    b.InsertMessages(TurnRows(id, userText, reply));
    responseText := reply;
    if Triggered(reply) {
      var jsonMatch := JsonMatch(reply);
      if jsonMatch.Some? {
        var leadData := parse(jsonMatch.value);
        if leadData.Some? {
          b.UpsertLead(id, Lead(BriefingConcluido, Some(leadData.value)));
          responseText := Clean(reply, jsonMatch.value);
          assert Decide(reply, parse) == Decision(Complete(leadData.value), responseText);
        } else {
          assert Decide(reply, parse) == Decision(Untouched, reply);
        }
      } else {
        assert Decide(reply, parse) == Decision(Untouched, reply);
      }
    } else {
      b.InsertLeadIfAbsent(id, Lead(EmAberto, None));
      assert Decide(reply, parse) == Decision(OpenIfAbsent, reply);
    }
  }

  /** Messages are append-only: the turn adds exactly its two rows, user
      first, and touches neither Redis nor the outbox; rows of other
      conversations of `leads` stay as they were. */
  lemma RecordFrame(t: Tables, id: string, userText: string, reply: string,
                    parse: string -> Option<LeadFields>)
    ensures var (after, _) := Record(t, id, userText, reply, parse);
            && after.messages == t.messages + TurnRows(id, userText, reply)
            && after.redis == t.redis && after.outbox == t.outbox
            && (forall k :: k != id ==> (k in after.leads <==> k in t.leads))
            && (forall k :: k != id && k in t.leads ==> after.leads[k] == t.leads[k])
  {
  }

  /** Re-reading the conversation after a turn yields the earlier history
      followed by the user's text and then the model's reply. */
  lemma RecordHistory(t: Tables, id: string, userText: string, reply: string,
                      parse: string -> Option<LeadFields>)
    ensures History(Record(t, id, userText, reply, parse).0.messages, id)
         == History(t.messages, id) + TurnRows(id, userText, reply)
  {
    var rows := TurnRows(id, userText, reply);
    HistoryAppend(t.messages, rows, id);
    assert History(rows, id) == rows by {
      assert rows[1..] == [MessageRow(id, ModelRole, reply)];
      assert rows[1..][1..] == [];
    }
  }

  /** No marker and no `{`: an open lead is inserted only when the
      conversation has none; an existing row is left exactly as it was. */
  lemma RecordLeadsUntriggered(t: Tables, id: string, userText: string, reply: string,
                               parse: string -> Option<LeadFields>)
    requires !Triggered(reply)
    ensures var leads := Record(t, id, userText, reply, parse).0.leads;
            leads == if id in t.leads then t.leads else t.leads[id := Lead(EmAberto, None)]
  {
    DecideUntriggered(reply, parse);
  }

  /** Triggered, but the JSON did not match or did not parse: `leads` is
      unchanged and the reply goes out as it came. */
  lemma RecordLeadsParseFailure(t: Tables, id: string, userText: string, reply: string,
                                parse: string -> Option<LeadFields>)
    requires Triggered(reply)
    requires JsonMatch(reply).None? || parse(JsonMatch(reply).value).None?
    ensures Record(t, id, userText, reply, parse).0.leads == t.leads
    ensures Record(t, id, userText, reply, parse).1 == reply
  {
    DecideParseFailure(reply, parse);
  }

  /** Triggered and parsed: the lead row is overwritten with the completed
      status and the four parsed fields. */
  lemma RecordLeadsCompleted(t: Tables, id: string, userText: string, reply: string,
                             parse: string -> Option<LeadFields>, fields: LeadFields)
    requires Triggered(reply) && JsonMatch(reply).Some?
    requires parse(JsonMatch(reply).value) == Some(fields)
    ensures Record(t, id, userText, reply, parse).0.leads
         == t.leads[id := Lead(BriefingConcluido, Some(fields))]
  {
    assert Decide(reply, parse).effect == Complete(fields);
  }

  /** A non-empty reply always leaves a non-empty `responseText`, so the
      `"Recebido."` fallback only replaces an empty reply. */
  lemma RecordResponseNonEmpty(t: Tables, id: string, userText: string, reply: string,
                               parse: string -> Option<LeadFields>)
    ensures var text := Record(t, id, userText, reply, parse).1;
            (reply != [] ==> OrReceived(text) == text)
            && (reply == [] ==> OrReceived(text) == "Recebido.")
  {
    var d := Decide(reply, parse);
    if reply == [] {
      assert !Contains(reply, Sentinel) by {
        assert !OccursAt(reply, Sentinel, 0);
      }
      assert d.effect.OpenIfAbsent?;
    }
  }
}
