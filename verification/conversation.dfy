/** The conversation around a lead: the per-chat row of the `user_state`
    table, the `leads` table, the `/consult` command, and the turn the
    catch-all message handler takes. The rows and the leads are the bot's
    state; the map the language model extracted from a message is an input. */
module Conversation {
  import opened Values
  import opened Fields
  import opened Validation
  import opened ValidationFacts

  /** The three states a chat row holds. */
  datatype State = Greeting | Collecting | Completed

  /** A row of `user_state`: the chat's state and the fields collected so far. */
  datatype Row = Row(state: State, data: Dict)

  /** `user_state`, keyed by chat id. */
  type Table = map<int, Row>

  /** A row of `leads`. */
  datatype Lead = Lead(chat: int, payload: Dict)

  /** Both tables at one moment. */
  datatype World = World(rows: Table, leads: seq<Lead>)

  /** What the handler sends back. `Ask` carries the key whose question is
      sent; `NoReply` is the handler raising before it answers. */
  datatype Reply =
    | Confirmation(payload: Dict)
    | Ask(key: string)
    | ErrorList(errors: seq<ValidationError>)
    | ChatReply
    | NoReply

  /** `get_state`: the stored row, or `("greeting", {})` for an unknown chat. */
  function Load(t: Table, chat: int): Row {
    if chat in t then t[chat] else Row(Greeting, map[])
  }

  /** `set_state`: the upsert overwrites only the state; a new row starts
      with no data. */
  function SetStateIn(t: Table, chat: int, s: State): (t': Table)
    ensures chat in t'
    ensures Load(t', chat) == Row(s, Load(t, chat).data)
    ensures forall c :: c != chat ==> (c in t' <==> c in t) && Load(t', c) == Load(t, c)
  {
    if chat in t then t[chat := Row(s, t[chat].data)] else t[chat := Row(s, map[])]
  }

  /** `update_data`: the upsert overwrites only the data; a new row starts in
      the collecting state. */
  function UpdateDataIn(t: Table, chat: int, d: Dict): (t': Table)
    ensures chat in t'
    ensures Load(t', chat) == Row(if chat in t then t[chat].state else Collecting, d)
    ensures forall c :: c != chat ==> (c in t' <==> c in t) && Load(t', c) == Load(t, c)
  {
    if chat in t then t[chat := Row(t[chat].state, d)] else t[chat := Row(Collecting, d)]
  }

  /** `{**stored, **extracted}`: every extracted key takes the extracted value,
      even an empty one; every other stored key keeps its value. */
  function Merge(stored: Dict, extracted: Dict): (m: Dict)
    ensures forall k :: k in m <==> k in stored || k in extracted
    ensures forall k :: k in extracted ==> m[k] == extracted[k]
    ensures forall k :: k in stored && k !in extracted ==> m[k] == stored[k]
  {
    stored + extracted
  }

  /** A stored, valid phone number is overwritten when the extraction returns
      the key with an empty value. */
  lemma MergeOverwritesWithEmpty()
    ensures var stored := map["phone" := Str("+380501234567")];
            var extracted := map["phone" := Str("")];
            Get(stored, "phone") != Str("")
            && Get(Merge(stored, extracted), "phone") == Str("")
  {
    var stored := map["phone" := Str("+380501234567")];
    var extracted := map["phone" := Str("")];
    assert "phone" in extracted;
  }

  /** What the collecting branch does once normalisation returned `n`: store
      the cleaned map, then finalise, ask, list the errors or fall through to a
      chat reply. */
  function Finish(w: World, chat: int, n: Normalized): (World, Reply) {
    var rows := UpdateDataIn(w.rows, chat, n.data);
    if IsComplete(n.data) && n.errors == [] then
      (World(SetStateIn(rows, chat, Completed), w.leads + [Lead(chat, n.data)]), Confirmation(n.data))
    else
      var i := FirstUnfilled(n.data, RequiredFields);
      if i < |RequiredFields| then (World(rows, w.leads), Ask(RequiredFields[i]))
      else if n.errors != [] then (World(rows, w.leads), ErrorList(n.errors))
      else (World(rows, w.leads), ChatReply)
  }

  /** The collecting branch of the handler on the stored `data`: merge,
      normalise, and finish unless normalising raised. */
  function CollectingTurn(w: World, chat: int, data: Dict, extracted: Dict): (World, Reply) {
    match Normalize(Merge(data, extracted))
    case Raised => (w, NoReply)
    case Returned(n) => Finish(w, chat, n)
  }

  /** One turn of the catch-all handler for `chat`, given the map extracted
      from the message. */
  function Turn(w: World, chat: int, extracted: Dict): (World, Reply) {
    var row := Load(w.rows, chat);
    if row.state == Collecting then CollectingTurn(w, chat, row.data, extracted)
    else (w, ChatReply)
  }

  /** The cleaned map a collecting turn works on. */
  function CleanedMerge(w: World, chat: int, extracted: Dict): Outcome<Normalized> {
    Normalize(Merge(Load(w.rows, chat).data, extracted))
  }

  /** Outside the collecting state a turn answers from the language model and
      changes neither table. */
  lemma TurnOutsideCollecting(w: World, chat: int, extracted: Dict)
    requires Load(w.rows, chat).state != Collecting
    ensures Turn(w, chat, extracted) == (w, ChatReply)
  {
  }

  /** When the merged map's weight cannot be read, normalising raises and
      the handler stops before writing anything. */
  lemma TurnCrashChangesNothing(w: World, chat: int, extracted: Dict)
    requires Load(w.rows, chat).state == Collecting
    requires WeightUnreadable(Merge(Load(w.rows, chat).data, extracted))
    ensures Turn(w, chat, extracted) == (w, NoReply)
  {
    NormalizeClosed(Merge(Load(w.rows, chat).data, extracted));
  }

  /** Otherwise normalising returns, and the turn is `Finish` on the cleaned
      map. */
  lemma TurnFinishes(w: World, chat: int, extracted: Dict)
    requires Load(w.rows, chat).state == Collecting
    requires !WeightUnreadable(Merge(Load(w.rows, chat).data, extracted))
    ensures CleanedMerge(w, chat, extracted).Returned?
    ensures Turn(w, chat, extracted) == Finish(w, chat, CleanedMerge(w, chat, extracted).value)
  {
    NormalizeReturns(Merge(Load(w.rows, chat).data, extracted));
  }

  /** Finishing confirms exactly when the map is complete and drew no
      complaint: it then appends one lead holding the map and moves the chat
      to `completed`; otherwise it adds no lead and the chat keeps its state.
      Either way the map is stored and no other chat changes. */
  lemma FinishOutcome(w: World, chat: int, n: Normalized)
    requires Load(w.rows, chat).state == Collecting
    ensures var (w', reply) := Finish(w, chat, n);
            && (reply.Confirmation? <==> IsComplete(n.data) && n.errors == [])
            && (reply.Confirmation? ==>
                  && reply.payload == n.data
                  && w'.leads == w.leads + [Lead(chat, n.data)]
                  && Load(w'.rows, chat) == Row(Completed, n.data))
            && (!reply.Confirmation? ==>
                  && w'.leads == w.leads
                  && Load(w'.rows, chat) == Row(Collecting, n.data))
            && (forall c :: c != chat ==> Load(w'.rows, c) == Load(w.rows, c))
  {
    var rows := UpdateDataIn(w.rows, chat, n.data);
    assert Load(rows, chat) == Row(Collecting, n.data);
  }

  /** When complaints always leave the map incomplete, finishing without
      confirming asks for the first required key that is missing or empty. */
  lemma FinishAsks(w: World, chat: int, n: Normalized)
    requires n.errors != [] ==> !IsComplete(n.data)
    requires !(IsComplete(n.data) && n.errors == [])
    ensures var i := FirstUnfilled(n.data, RequiredFields);
            && i < |RequiredFields|
            && Finish(w, chat, n).1 == Ask(RequiredFields[i])
            && !Truthy(Get(n.data, RequiredFields[i]))
            && (forall j :: 0 <= j < i ==> Truthy(Get(n.data, RequiredFields[j])))
  {
    CompleteIffNoQuestion(n.data);
  }

  /** A collecting turn with a readable weight finalises exactly when the
      cleaned map is complete and drew no complaint, and then files that map
      as a lead and moves the chat to `completed`. */
  lemma TurnFinalises(w: World, chat: int, extracted: Dict)
    requires Load(w.rows, chat).state == Collecting
    requires !WeightUnreadable(Merge(Load(w.rows, chat).data, extracted))
    ensures CleanedMerge(w, chat, extracted).Returned?
    ensures var n := CleanedMerge(w, chat, extracted).value;
            var (w', reply) := Turn(w, chat, extracted);
            && (reply.Confirmation? <==> IsComplete(n.data) && n.errors == [])
            && (reply.Confirmation? ==>
                  && reply.payload == n.data
                  && w'.leads == w.leads + [Lead(chat, n.data)]
                  && Load(w'.rows, chat) == Row(Completed, n.data))
  {
    TurnFinishes(w, chat, extracted);
    FinishOutcome(w, chat, CleanedMerge(w, chat, extracted).value);
  }

  /** Otherwise the turn asks for the first required key that is missing or
      empty, keeps the chat collecting with the cleaned map stored, and adds no
      lead. */
  lemma TurnAsks(w: World, chat: int, extracted: Dict)
    requires Load(w.rows, chat).state == Collecting
    requires !WeightUnreadable(Merge(Load(w.rows, chat).data, extracted))
    ensures CleanedMerge(w, chat, extracted).Returned?
    ensures var n := CleanedMerge(w, chat, extracted).value;
            var i := FirstUnfilled(n.data, RequiredFields);
            var (w', reply) := Turn(w, chat, extracted);
            !(IsComplete(n.data) && n.errors == []) ==>
              && i < |RequiredFields|
              && reply == Ask(RequiredFields[i])
              && !Truthy(Get(n.data, RequiredFields[i]))
              && (forall j :: 0 <= j < i ==> Truthy(Get(n.data, RequiredFields[j])))
              && w'.leads == w.leads
              && Load(w'.rows, chat) == Row(Collecting, n.data)
  {
    TurnFinishes(w, chat, extracted);
    var n := CleanedMerge(w, chat, extracted).value;
    if !(IsComplete(n.data) && n.errors == []) {
      NormalizeErrors(Merge(Load(w.rows, chat).data, extracted));
      FinishOutcome(w, chat, n);
      FinishAsks(w, chat, n);
    }
  }

  /** The reply of a collecting turn is a confirmation, a question, or none at
      all when the handler raised: never the error list, never a chat reply. */
  lemma CollectingReplies(w: World, chat: int, extracted: Dict)
    requires Load(w.rows, chat).state == Collecting
    ensures var reply := Turn(w, chat, extracted).1;
            reply.Confirmation? || reply.Ask? || reply.NoReply?
  {
    var m := Merge(Load(w.rows, chat).data, extracted);
    NormalizeClosed(m);
    if !WeightUnreadable(m) {
      TurnFinalises(w, chat, extracted);
      TurnAsks(w, chat, extracted);
    }
  }

  /** The leads a turn writes: the confirmed map, appended after the earlier
      leads, and nothing when there is no confirmation. */
  lemma TurnAppendsOnlyConfirmed(w: World, chat: int, extracted: Dict)
    ensures var (w', reply) := Turn(w, chat, extracted);
            w'.leads == if reply.Confirmation? then w.leads + [Lead(chat, reply.payload)] else w.leads
  {
    var m := Merge(Load(w.rows, chat).data, extracted);
    NormalizeClosed(m);
    if Load(w.rows, chat).state == Collecting && !WeightUnreadable(m) {
      TurnFinishes(w, chat, extracted);
      FinishOutcome(w, chat, CleanedMerge(w, chat, extracted).value);
    }
  }

  /** A confirmation comes from a collecting turn whose weight was readable,
      and carries its cleaned map, complete and without complaints. */
  lemma ConfirmedPayload(w: World, chat: int, extracted: Dict)
    ensures Turn(w, chat, extracted).1.Confirmation? ==>
              && Load(w.rows, chat).state == Collecting
              && !WeightUnreadable(Merge(Load(w.rows, chat).data, extracted))
              && CleanedMerge(w, chat, extracted).Returned?
              && Turn(w, chat, extracted).1.payload == CleanedMerge(w, chat, extracted).value.data
              && IsComplete(CleanedMerge(w, chat, extracted).value.data)
              && CleanedMerge(w, chat, extracted).value.errors == []
  {
    var m := Merge(Load(w.rows, chat).data, extracted);
    NormalizeClosed(m);
    if Load(w.rows, chat).state == Collecting && !WeightUnreadable(m) {
      TurnFinalises(w, chat, extracted);
    }
  }

  /** A lead the bot files is complete, names two allowed countries, and
      passes the validator again unchanged and without complaint. */
  lemma LeadIsClean(w: World, chat: int, extracted: Dict)
    ensures var reply := Turn(w, chat, extracted).1;
            reply.Confirmation? ==>
              && IsComplete(reply.payload)
              && Get(reply.payload, "from_country").Str?
              && Get(reply.payload, "from_country").s in AllowedCountries
              && Get(reply.payload, "to_country").Str?
              && Get(reply.payload, "to_country").s in AllowedCountries
              && Normalize(reply.payload) == Returned(Normalized(reply.payload, []))
  {
    ConfirmedPayload(w, chat, extracted);
    if Turn(w, chat, extracted).1.Confirmation? {
      var m := Merge(Load(w.rows, chat).data, extracted);
      NormalizeIdempotent(m);
      NormalizeCountry(m, "from_country");
      NormalizeCountry(m, "to_country");
      CleanedFieldsRequired();
    }
  }

  /** Merging an empty extraction changes nothing. */
  lemma MergeNothing(d: Dict)
    ensures Merge(d, map[]) == d
  {
    assert Merge(d, map[]).Keys == d.Keys;
  }

  /** `/consult` after a turn that filed a lead: the stored data survives, so
      the next turn whose extraction is empty files the same lead a second
      time. */
  lemma ConsultResubmits(w0: World, chat: int, extracted: Dict)
    ensures var (w, reply) := Turn(w0, chat, extracted);
            var w1 := World(SetStateIn(w.rows, chat, Collecting), w.leads);
            var (w2, reply2) := Turn(w1, chat, map[]);
            reply.Confirmation? ==>
              && Load(w1.rows, chat) == Row(Collecting, reply.payload)
              && reply2 == reply
              && w2.leads == w.leads + [Lead(chat, reply.payload)]
  {
    var (w, reply) := Turn(w0, chat, extracted);
    if reply.Confirmation? {
      var d := reply.payload;
      ConfirmedPayload(w0, chat, extracted);
      TurnFinalises(w0, chat, extracted);
      LeadIsClean(w0, chat, extracted);
      var w1 := World(SetStateIn(w.rows, chat, Collecting), w.leads);
      assert Load(w1.rows, chat) == Row(Collecting, d);
      MergeNothing(d);
      assert CleanedMerge(w1, chat, map[]) == Returned(Normalized(d, []));
      NormalizeClosed(d);
      TurnFinishes(w1, chat, map[]);
      FinishOutcome(w1, chat, Normalized(d, []));
    }
  }

  /** The bot's view of its database: the `user_state` rows and the `leads`
      rows, updated in place by the handlers. */
  class Bot {
    var rows: Table
    var leads: seq<Lead>

    constructor ()
      ensures rows == map[] && leads == []
    {
      rows := map[];
      leads := [];
    }

    /** Both tables as a value. */
    function Snapshot(): World
      reads this
    {
      World(rows, leads)
    }

    /** `get_state(chat_id)`. */
    method GetState(chat: int) returns (row: Row)
      ensures row == Load(rows, chat)
      ensures chat in rows ==> row == rows[chat]
      ensures chat !in rows ==> row == Row(Greeting, map[])
    {
      if chat in rows {
        row := rows[chat];
      } else {
        row := Row(Greeting, map[]);
      }
    }

    /** `set_state(chat_id, state)`. */
    method SetState(chat: int, s: State)
      modifies this
      ensures rows == SetStateIn(old(rows), chat, s) && leads == old(leads)
    {
      if chat in rows {
        rows := rows[chat := Row(s, rows[chat].data)];
      } else {
        rows := rows[chat := Row(s, map[])];
      }
    }

    /** `update_data(chat_id, new_data)`. */
    method UpdateData(chat: int, d: Dict)
      modifies this
      ensures rows == UpdateDataIn(old(rows), chat, d) && leads == old(leads)
    {
      if chat in rows {
        rows := rows[chat := Row(rows[chat].state, d)];
      } else {
        rows := rows[chat := Row(Collecting, d)];
      }
    }

    /** `INSERT INTO leads (chat_id, payload)`. */
    method InsertLead(chat: int, payload: Dict)
      modifies this
      ensures leads == old(leads) + [Lead(chat, payload)] && rows == old(rows)
    {
      leads := leads + [Lead(chat, payload)];
    }

    /** The `/consult` command: the chat goes back to collecting, and whatever
        data it had is kept. */
    method Consult(chat: int)
      modifies this
      ensures rows == SetStateIn(old(rows), chat, Collecting) && leads == old(leads)
      ensures Load(rows, chat) == Row(Collecting, Load(old(rows), chat).data)
    {
      SetState(chat, Collecting);
    }

    /** The catch-all handler, given the map extracted from the message. */
    method Fallback(chat: int, extracted: Dict) returns (reply: Reply)
      modifies this
      ensures (Snapshot(), reply) == Turn(old(Snapshot()), chat, extracted)
    {
      var row := GetState(chat);
      if row.state != Collecting {
        return ChatReply;
      }
      reply := Collect(chat, row.data, extracted);
    }

    /** The collecting branch of the handler. */
    method Collect(chat: int, data: Dict, extracted: Dict) returns (reply: Reply)
      modifies this
      ensures (Snapshot(), reply) == CollectingTurn(old(Snapshot()), chat, data, extracted)
    {
      var lead := new LeadDict(Merge(data, extracted));
      var errors, raised := lead.NormalizeAndValidate();
      if raised {
        return NoReply;
      }
      var merged := lead.entries;
      UpdateData(chat, merged);
      if IsComplete(merged) && errors == [] {
        InsertLead(chat, merged);
        SetState(chat, Completed);
        return Confirmation(merged);
      }
      reply := NextQuestion(merged, errors);
    }

    /** The scan for the next question, and what follows it when every
        required key is filled. */
    static method NextQuestion(merged: Dict, errors: seq<ValidationError>) returns (reply: Reply)
      ensures var i := FirstUnfilled(merged, RequiredFields);
              reply == if i < |RequiredFields| then Ask(RequiredFields[i])
                       else if errors != [] then ErrorList(errors)
                       else ChatReply
    {
      for i := 0 to |RequiredFields|
        invariant forall j :: 0 <= j < i ==> Truthy(Get(merged, RequiredFields[j]))
      {
        if !Truthy(Get(merged, RequiredFields[i])) {
          return Ask(RequiredFields[i]);
        }
      }
      if errors != [] {
        return ErrorList(errors);
      }
      return ChatReply;
    }
  }
}
