/** The `/webhook` handler over the process-wide store `CONVERSAS_ATIVAS`,
    which it changes in place: it inserts a key, appends to a transcript twice
    and deletes the key when the conversation closes. */
module Server {
  import opened TurnPrompt
  import opened Conversation
  import Transcript

  class Webhook {
    /** `CONVERSAS_ATIVAS`: the active conversations, by sender id. */
    var conversas: Store

    /** The customer and assistant lines each transcript was built from. */
    ghost var lines: Transcript.Lines

    /** Every transcript is the text of its alternating lines, and no entry
        has collected data. */
    ghost predicate Valid()
      reads this
    {
      Transcript.Tracks(lines, conversas)
    }

    /** The store starts empty when the process starts. */
    constructor ()
      ensures Valid()
      ensures conversas == map[] && lines == map[]
    {
      conversas := map[];
      lines := map[];
    }

    /** One POST to `/webhook` with form fields `From` and `Body`. `generate`
        stands for the generation call on the prompt, `send` for the gateway
        call on the outgoing message. Returns the HTTP status, the lead logged
        for the CRM (if the turn closed the conversation) and the message handed
        to the gateway (if any). */
    method HandleTurn(from: string, body: string,
                      generate: string -> GenOutcome, send: Outgoing -> SendOutcome)
      returns (status: int, lead: Option<Lead>, sent: Option<Outgoing>)
      requires Valid()
      modifies this
      ensures Valid()
      ensures var t := Turn(old(conversas), from, body, generate, send);
        && conversas == t.store
        && status == t.status
        && lead == t.lead
        && sent == t.dispatched
      ensures lines == Transcript.TurnLines(old(lines), old(conversas), from, body, generate, send)
      ensures from in conversas ==>
        var prior := Transcript.PriorLines(old(lines), from);
        && prior <= lines[from]
        && Transcript.CountCustomer(lines[from]) == Transcript.CountCustomer(prior) + 1
        && Transcript.CountAssistant(lines[from]) <= Transcript.CountAssistant(prior) + 1
        && Transcript.CountAssistant(lines[from]) <= Transcript.CountCustomer(lines[from])
    {
      Established(lines, conversas, from, body, generate, send);
      status, lead, sent := Respond(from, body, generate, send);
    }

    /** The handler's steps in the source's order: record the customer line,
        generate, record the assistant line, dispatch, and close the
        conversation if the reply says so. */
    method Respond(from: string, body: string,
                   generate: string -> GenOutcome, send: Outgoing -> SendOutcome)
      returns (status: int, lead: Option<Lead>, sent: Option<Outgoing>)
      modifies this
      ensures var t := Turn(old(conversas), from, body, generate, send);
        && conversas == t.store
        && status == t.status
        && lead == t.lead
        && sent == t.dispatched
      ensures lines == Transcript.TurnLines(old(lines), old(conversas), from, body, generate, send)
    {
      ghost var lines0, conversas0 := lines, conversas;
      ghost var prior := Transcript.PriorLines(lines, from);
      AppendCustomer(from, body);
      var historico := conversas[from].historico;
      var prompt := Prompt(historico);
      var outcome := generate(prompt);
      if outcome.GenerationFailed? {
        FailedPath(lines0, conversas0, from, body, generate, send);
        return StatusError, None, None;
      }
      var reply := outcome.text;
      // The assistant line is recorded before the reply is dispatched.
      AppendAssistant(from, reply);
      assert prior + [Transcript.Customer(body)] + [Transcript.Assistant(reply)]
          == prior + [Transcript.Customer(body), Transcript.Assistant(reply)];
      var msg := Outgoing(reply, SandboxSender, from);
      sent := Some(msg);
      var delivery := send(msg);
      AnsweredPath(lines0, conversas0, from, body, generate, send, reply);
      if delivery.DeliveryFailed? {
        return StatusError, None, sent;
      }
      lead := None;
      if IsClosing(reply) {
        lead := Some(MakeLead(from, conversas[from].historico));
        RemoveAfterUpdate(lines0, from, prior + [Transcript.Customer(body), Transcript.Assistant(reply)]);
        Evict(from);
      }
      status := StatusOk;
    }

    /** Creates the sender's entry with the customer line, or appends the
        customer line to it. */
    method AppendCustomer(from: string, body: string)
      modifies this
      ensures conversas == Record(old(conversas), from, body)
      ensures lines == old(lines)[from := Transcript.PriorLines(old(lines), from) + [Transcript.Customer(body)]]
    {
      lines := lines[from := Transcript.PriorLines(lines, from) + [Transcript.Customer(body)]];
      if from !in conversas {
        conversas := conversas[from := Entry(CustomerLine(body), NothingCollected)];
      } else {
        conversas := conversas[from := conversas[from].(historico := conversas[from].historico + CustomerLine(body))];
      }
    }

    /** Appends the assistant line to the sender's entry. */
    method AppendAssistant(from: string, reply: string)
      requires from in conversas && from in lines
      modifies this
      ensures conversas == old(conversas)[from := old(conversas)[from].(historico := old(conversas)[from].historico + AssistantLine(reply))]
      ensures lines == old(lines)[from := old(lines)[from] + [Transcript.Assistant(reply)]]
    {
      lines := lines[from := lines[from] + [Transcript.Assistant(reply)]];
      conversas := conversas[from := conversas[from].(historico := conversas[from].historico + AssistantLine(reply))];
    }

    /** Deletes the sender's entry. */
    method Evict(from: string)
      modifies this
      ensures conversas == old(conversas) - {from}
      ensures lines == old(lines) - {from}
    {
      conversas := conversas - {from};
      lines := lines - {from};
    }
  }

  /** Deleting a key forgets what was last stored under it. */
  lemma RemoveAfterUpdate<V>(m: map<string, V>, k: string, v: V)
    ensures m[k := v] - {k} == m - {k}
  {
  }

  /** A turn whose generation fails leaves the recorded store and the prior
      lines plus the customer line. */
  lemma FailedPath(lines: Transcript.Lines, store: Store, from: string, body: string,
                   generate: string -> GenOutcome, send: Outgoing -> SendOutcome)
    requires generate(Prompt(PriorHistory(store, from) + CustomerLine(body))) == GenerationFailed
    ensures Turn(store, from, body, generate, send)
      == TurnResult(Record(store, from, body), Prompt(PriorHistory(store, from) + CustomerLine(body)),
                    StatusError, None, None)
    ensures Transcript.TurnLines(lines, store, from, body, generate, send)
      == lines[from := Transcript.PriorLines(lines, from) + [Transcript.Customer(body)]]
  {
  }

  /** A turn whose generation yields `reply`: the store and lines after the
      assistant line was appended, then unchanged, or without the sender
      when the turn evicts. */
  lemma AnsweredPath(lines: Transcript.Lines, store: Store, from: string, body: string,
                     generate: string -> GenOutcome, send: Outgoing -> SendOutcome, reply: string)
    requires generate(Prompt(PriorHistory(store, from) + CustomerLine(body))) == Generated(reply)
    ensures var h := PriorHistory(store, from) + CustomerLine(body);
      var recorded := Record(store, from, body);
      var answered := recorded[from := recorded[from].(historico := h + AssistantLine(reply))];
      var answeredLines := lines[from := Transcript.PriorLines(lines, from) + [Transcript.Customer(body), Transcript.Assistant(reply)]];
      var msg := Outgoing(reply, SandboxSender, from);
      var t := Turn(store, from, body, generate, send);
      var after := Transcript.TurnLines(lines, store, from, body, generate, send);
      && t.prompt == Prompt(h)
      && t.dispatched == Some(msg)
      && (send(msg) == DeliveryFailed ==>
            t.store == answered && t.status == StatusError && t.lead == None && after == answeredLines)
      && (send(msg) == Delivered && IsClosing(reply) ==>
            && t.store == answered - {from} && t.status == StatusOk
            && t.lead == Some(MakeLead(from, answered[from].historico)) && after == lines - {from})
      && (send(msg) == Delivered && !IsClosing(reply) ==>
            t.store == answered && t.status == StatusOk && t.lead == None && after == answeredLines)
  {
  }

  /** What the turn establishes about the lines of a tracked store. */
  lemma Established(lines: Transcript.Lines, store: Store, from: string, body: string,
                    generate: string -> GenOutcome, send: Outgoing -> SendOutcome)
    requires Transcript.Tracks(lines, store)
    ensures Transcript.Tracks(Transcript.TurnLines(lines, store, from, body, generate, send),
                              Turn(store, from, body, generate, send).store)
    ensures var after := Transcript.TurnLines(lines, store, from, body, generate, send);
      var prior := Transcript.PriorLines(lines, from);
      from in after ==>
        && prior <= after[from]
        && Transcript.CountCustomer(after[from]) == Transcript.CountCustomer(prior) + 1
        && Transcript.CountAssistant(after[from]) <= Transcript.CountAssistant(prior) + 1
        && Transcript.CountAssistant(after[from]) <= Transcript.CountCustomer(after[from])
  {
    Transcript.TurnKeepsTracks(lines, store, from, body, generate, send);
    Transcript.TrackedTurnCounts(lines, store, from, body, generate, send);
  }
}
