/** The external state the handlers read and write: the Redis keys of the
    debounce buffer, the `mensagens` and `leads` tables, and the outgoing
    Evolution API requests. `Backend` holds them as fields; its methods are
    the individual client calls the handlers make, each with its effect on
    the state stated outright. */
module Store {
  import opened Wrappers
  import opened Completion

  /** A row of `mensagens`: conversation id, stored role, content. The model
      keeps rows in insertion order and reads that as `created_at` order;
      the two rows of one insert may share a timestamp, which the query
      does not order. */
  datatype MessageRow = MessageRow(whatsappId: string, role: string, content: string)

  /** The role values the handlers store. */
  const UserRole: string := "user"
  const ModelRole: string := "model"

  /** `leads.status`. */
  datatype LeadStatus = EmAberto | BriefingConcluido

  /** The text stored in the `status` column. */
  function StatusText(s: LeadStatus): string {
    match s
    case EmAberto => "Em Aberto"
    case BriefingConcluido => "Briefing Concluído"
  }

  /** The two statuses are stored as different texts, so reading the column
      back recovers the status. */
  lemma StatusTextInjective(s: LeadStatus, u: LeadStatus)
    ensures StatusText(s) == StatusText(u) <==> s == u
  {
    if s != u {
      assert StatusText(s)[0] != StatusText(u)[0];
    }
  }

  /** The columns of a `leads` row that these handlers write; `briefing` is
      `None` while the row has only been opened. */
  datatype Lead = Lead(status: LeadStatus, briefing: Option<LeadFields>)

  /** One request to the Evolution API `sendText` endpoint. */
  datatype Outgoing = Outgoing(number: string, text: string, delay: Option<nat>)

  /** The row of `configuracoes` as the buffer handler tests it; an absent or
      empty key is falsy. */
  datatype Config = Config(groqApiKey: string)

  /** How the `sendText` request ended: delivered, answered with a non-ok
      status (logged only), or thrown by `fetch`. */
  datatype DispatchOutcome = Delivered | Rejected | Unreachable

  /** All of the state, as a value. */
  datatype Tables = Tables(
    redis: map<string, seq<string>>,
    messages: seq<MessageRow>,
    leads: map<string, Lead>,
    outbox: seq<Outgoing>)

  /** `LRANGE key 0 -1`: the stored list, and the empty list for a missing
      key. */
  function ListAt(redis: map<string, seq<string>>, key: string): seq<string>
  {
    if key in redis then redis[key] else []
  }

  /** The conversation's rows of `mensagens`, oldest first (the
      `.eq('whatsapp_id', id).order('created_at')` query). */
  function History(rows: seq<MessageRow>, id: string): (h: seq<MessageRow>)
    ensures |h| <= |rows|
    ensures forall r :: r in h <==> r in rows && r.whatsappId == id
  {
    if rows == [] then []
    else if rows[0].whatsappId == id then [rows[0]] + History(rows[1..], id)
    else History(rows[1..], id)
  }

  /** The conversation's history after appending rows is its old history
      followed by the appended rows that belong to it. */
  lemma {:induction false} HistoryAppend(rows: seq<MessageRow>, more: seq<MessageRow>, id: string)
    ensures History(rows + more, id) == History(rows, id) + History(more, id)
  {
    if rows != [] {
      assert (rows + more)[1..] == rows[1..] + more;
      HistoryAppend(rows[1..], more, id);
    } else {
      assert rows + more == more;
    }
  }

  /** A full upsert on `whatsapp_id`: the row for `id` is replaced and no
      other row changes. */
  function Upserted(leads: map<string, Lead>, id: string, lead: Lead): (m: map<string, Lead>)
    ensures id in m && m[id] == lead
    ensures forall k :: k != id ==> (k in m <==> k in leads)
    ensures forall k :: k in leads && k != id ==> m[k] == leads[k]
  {
    leads[id := lead]
  }

  /** An upsert with `ignoreDuplicates`: the row is inserted only when `id`
      has none; an existing row stays exactly as it was. */
  function InsertedIfAbsent(leads: map<string, Lead>, id: string, lead: Lead): (m: map<string, Lead>)
    ensures m.Keys == leads.Keys + {id}
    ensures id in leads ==> m == leads
    ensures id !in leads ==> m[id] == lead
    ensures forall k :: k in leads ==> m[k] == leads[k]
  {
    if id in leads then leads else leads[id := lead]
  }

  class Backend {
    var redis: map<string, seq<string>>
    var messages: seq<MessageRow>
    var leads: map<string, Lead>
    var outbox: seq<Outgoing>

    function Snapshot(): Tables
      reads this
    {
      Tables(redis, messages, leads, outbox)
    }

    constructor (t: Tables)
      ensures Snapshot() == t
    {
      redis, messages, leads, outbox := t.redis, t.messages, t.leads, t.outbox;
    }

    /** `redis.lrange(key, 0, -1)`. */
    method LRange(key: string) returns (items: seq<string>)
      ensures items == ListAt(redis, key)
    {
      if key in redis {
        items := redis[key];
      } else {
        items := [];
      }
    }

    /** `redis.del(key)`. */
    method Del(key: string)
      modifies this
      ensures Snapshot() == old(Snapshot()).(redis := old(redis) - {key})
    {
      redis := redis - {key};
    }

    /** The `mensagens` history query. */
    method SelectHistory(id: string) returns (rows: seq<MessageRow>)
      ensures rows == History(messages, id)
    {
      rows := History(messages, id);
    }

    /** `supabase.from('mensagens').insert(rows)`: appended, in order. */
    method InsertMessages(rows: seq<MessageRow>)
      modifies this
      ensures Snapshot() == old(Snapshot()).(messages := old(messages) + rows)
    {
      messages := messages + rows;
    }

    /** `upsert(..., { onConflict: 'whatsapp_id' })`. */
    method UpsertLead(id: string, lead: Lead)
      modifies this
      ensures Snapshot() == old(Snapshot()).(leads := Upserted(old(leads), id, lead))
    {
      leads := leads[id := lead];
    }

    /** `upsert(..., { onConflict: 'whatsapp_id', ignoreDuplicates: true })`. */
    method InsertLeadIfAbsent(id: string, lead: Lead)
      modifies this
      ensures Snapshot() == old(Snapshot()).(leads := InsertedIfAbsent(old(leads), id, lead))
    {
      if id !in leads {
        leads := leads[id := lead];
      }
    }

    /** The `fetch` to the Evolution API: the request is issued. */
    method Send(o: Outgoing)
      modifies this
      ensures Snapshot() == old(Snapshot()).(outbox := old(outbox) + [o])
    {
      outbox := outbox + [o];
    }
  }
}
