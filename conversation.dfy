/** The per-sender conversation store of the `/webhook` handler and one turn
    of it as a pure function of the store before the turn. The two remote
    calls (text generation and message dispatch) are parameters: any function
    from their request to an outcome. */
module Conversation {
  import opened Text
  import opened TurnPrompt

  datatype Option<T> = None | Some(value: T)

  /** `dadosColetados`: the customer data the entry was created with. */
  datatype Collected = Collected(nome: Option<string>, email: Option<string>, interesse: Option<string>)

  /** One entry of `CONVERSAS_ATIVAS`. */
  datatype Entry = Entry(historico: string, dadosColetados: Collected)

  /** `CONVERSAS_ATIVAS`, keyed by the sender id (`From`). */
  type Store = map<string, Entry>

  /** The record logged for the CRM when a conversation closes. */
  datatype Lead = Lead(nome: string, email: string, interesse: string,
                       telefone: string, historicoCompleto: string)

  /** Result of `model.generateContent(prompt)` followed by
      `result.response.text()`: a reply, or an exception from either. */
  datatype GenOutcome = Generated(text: string) | GenerationFailed

  /** The message handed to the messaging gateway. */
  datatype Outgoing = Outgoing(body: string, from: string, to: string)

  /** Result of `twilioClient.messages.create(...)`. */
  datatype SendOutcome = Delivered | DeliveryFailed

  /** What one request does: the store afterwards, the prompt sent for
      generation, the HTTP status, the lead produced (if the turn closed the
      conversation) and the message dispatched (if generation succeeded). */
  datatype TurnResult = TurnResult(store: Store, prompt: string, status: int,
                                   lead: Option<Lead>, dispatched: Option<Outgoing>)

  const NothingCollected: Collected := Collected(None, None, None)

  /** The sandbox number replies are sent from. */
  const SandboxSender: string := "whatsapp:+14155238886"

  const StatusOk: int := 200
  const StatusError: int := 500

  /** The phrase whose presence in a lower-cased reply closes the conversation. */
  const Marker: string := "especialista entrará em contato"

  /** Placeholder values the handler writes into every lead. */
  const SimulatedNome: string := "Extraído da Conversa (Simulado)"
  const SimulatedEmail: string := "extraido@email.com (Simulado)"
  const SimulatedInteresse: string := "Torres do Atlântico (Simulado)"

  /** The line recorded for a customer message. */
  function CustomerLine(body: string): string { "Cliente: " + body + "\n" }

  /** The line recorded for a generated reply. */
  function AssistantLine(reply: string): string { "Heloísa: " + reply + "\n" }

  /** The transcript a sender has before a turn: empty for an unseen sender. */
  function PriorHistory(store: Store, from: string): string {
    if from in store then store[from].historico else ""
  }

  /** The customer data a sender has before a turn: nothing for an unseen sender. */
  function PriorCollected(store: Store, from: string): Collected {
    if from in store then store[from].dadosColetados else NothingCollected
  }

  /** `respostaBot.toLowerCase().includes(Marker)`: only a reply at least as
      long as the marker can close the conversation. */
  predicate IsClosing(reply: string)
    ensures IsClosing(reply) ==> |reply| >= |Marker|
  {
    Contains(Lower(reply), Marker)
  }

  /** The lead built from the transcript at the moment of closing. */
  function MakeLead(from: string, historico: string): Lead {
    Lead(SimulatedNome, SimulatedEmail, SimulatedInteresse, from, historico)
  }

  /** Step 1 of a turn: create the entry or append the customer line. */
  function Record(store: Store, from: string, body: string): (r: Store)
    ensures from in r
    ensures r[from].historico == PriorHistory(store, from) + CustomerLine(body)
    ensures r[from].dadosColetados == PriorCollected(store, from)
    ensures forall k :: k != from ==> (k in r <==> k in store)
    ensures forall k :: k != from && k in store ==> r[k] == store[k]
  {
    if from !in store then
      assert "" + CustomerLine(body) == CustomerLine(body);
      store[from := Entry(CustomerLine(body), NothingCollected)]
    else store[from := store[from].(historico := store[from].historico + CustomerLine(body))]
  }

  /** One request to the webhook, steps 1 to 7, on the store as it was before. */
  function Turn(store: Store, from: string, body: string,
                generate: string -> GenOutcome, send: Outgoing -> SendOutcome): (r: TurnResult)
    ensures r.status == StatusOk || r.status == StatusError
    ensures forall k :: k != from ==> (k in r.store <==> k in store)
    ensures forall k :: k != from && k in store ==> r.store[k] == store[k]
  {
    var recorded := Record(store, from, body);
    var h := recorded[from].historico;
    var prompt := Prompt(h);
    match generate(prompt)
    case GenerationFailed => TurnResult(recorded, prompt, StatusError, None, None)
    case Generated(reply) =>
      var answered := recorded[from := recorded[from].(historico := h + AssistantLine(reply))];
      var msg := Outgoing(reply, SandboxSender, from);
      if send(msg) == DeliveryFailed then
        TurnResult(answered, prompt, StatusError, None, Some(msg))
      else if IsClosing(reply) then
        TurnResult(answered - {from}, prompt, StatusOk,
                   Some(MakeLead(from, answered[from].historico)), Some(msg))
      else
        TurnResult(answered, prompt, StatusOk, None, Some(msg))
  }

  // ---------------------------------------------------------------------------
  // Step 1: the customer line

  /** A first message creates the entry with exactly one customer line and no
      collected data. */
  lemma FirstMessageCreatesEntry(store: Store, from: string, body: string)
    requires from !in store
    ensures from in Record(store, from, body)
    ensures Record(store, from, body)[from] == Entry("Cliente: " + body + "\n", Collected(None, None, None))
  {
  }

  /** A later message keeps the old transcript as a prefix and appends exactly
      one customer line, leaving the collected data alone. */
  lemma KnownSenderAppends(store: Store, from: string, body: string)
    requires from in store
    ensures from in Record(store, from, body)
    ensures Record(store, from, body)[from].historico == store[from].historico + "Cliente: " + body + "\n"
    ensures store[from].historico <= Record(store, from, body)[from].historico
    ensures Record(store, from, body)[from].dadosColetados == store[from].dadosColetados
  {
  }

  // ---------------------------------------------------------------------------
  // Step 2: the prompt

  /** The prompt is rendered from the transcript after the customer line was
      appended, so it contains that line. */
  lemma PromptHasCustomerLine(store: Store, from: string, body: string,
                              generate: string -> GenOutcome, send: Outgoing -> SendOutcome)
    ensures Turn(store, from, body, generate, send).prompt == Prompt(PriorHistory(store, from) + CustomerLine(body))
    ensures Contains(Turn(store, from, body, generate, send).prompt, CustomerLine(body))
  {
    PromptContainsLine(PriorHistory(store, from), CustomerLine(body), "");
    assert PriorHistory(store, from) + CustomerLine(body) + "" == PriorHistory(store, from) + CustomerLine(body);
  }

  // ---------------------------------------------------------------------------
  // Steps 3 to 7: the reply

  /** When generation fails the request answers 500, nothing is dispatched, no
      lead is produced and the entry keeps the customer line but gets no
      assistant line. */
  lemma GenerationFailureKeepsCustomerLine(store: Store, from: string, body: string,
                                           generate: string -> GenOutcome, send: Outgoing -> SendOutcome)
    requires generate(Prompt(PriorHistory(store, from) + CustomerLine(body))) == GenerationFailed
    ensures var r := Turn(store, from, body, generate, send);
      && r.status == StatusError
      && r.dispatched == None
      && r.lead == None
      && from in r.store
      && r.store[from].historico == PriorHistory(store, from) + CustomerLine(body)
  {
  }

  /** When generation succeeds the reply is dispatched from the sandbox number
      to the sender, and the assistant line follows the customer line. */
  lemma ReplyAppendedAndDispatched(store: Store, from: string, body: string,
                                   generate: string -> GenOutcome, send: Outgoing -> SendOutcome, reply: string)
    requires generate(Prompt(PriorHistory(store, from) + CustomerLine(body))) == Generated(reply)
    ensures var r := Turn(store, from, body, generate, send);
      && r.dispatched == Some(Outgoing(reply, "whatsapp:+14155238886", from))
      && (from in r.store ==>
            r.store[from].historico
              == PriorHistory(store, from) + CustomerLine(body) + AssistantLine(reply))
  {
  }

  /** When dispatch fails the request answers 500; the assistant line was
      already appended and the entry is not evicted. */
  lemma DispatchFailureKeepsAssistantLine(store: Store, from: string, body: string,
                                          generate: string -> GenOutcome, send: Outgoing -> SendOutcome, reply: string)
    requires generate(Prompt(PriorHistory(store, from) + CustomerLine(body))) == Generated(reply)
    requires send(Outgoing(reply, SandboxSender, from)) == DeliveryFailed
    ensures var r := Turn(store, from, body, generate, send);
      && r.status == StatusError
      && r.lead == None
      && from in r.store
      && r.store[from].historico == PriorHistory(store, from) + CustomerLine(body) + AssistantLine(reply)
  {
  }

  /** After a delivered reply the request answers 200, and the entry is
      evicted exactly when the lower-cased reply contains the marker. */
  lemma EvictedIffClosing(store: Store, from: string, body: string,
                          generate: string -> GenOutcome, send: Outgoing -> SendOutcome, reply: string)
    requires generate(Prompt(PriorHistory(store, from) + CustomerLine(body))) == Generated(reply)
    requires send(Outgoing(reply, SandboxSender, from)) == Delivered
    ensures var r := Turn(store, from, body, generate, send);
      && r.status == StatusOk
      && (from !in r.store <==> Contains(Lower(reply), "especialista entrará em contato"))
      && (r.lead.Some? <==> from !in r.store)
  {
  }

  /** The lead carries the sender as `telefone`, the placeholder fields, and the
      full transcript including the closing assistant line. */
  lemma LeadRecordsFullTranscript(store: Store, from: string, body: string,
                                  generate: string -> GenOutcome, send: Outgoing -> SendOutcome, reply: string)
    requires generate(Prompt(PriorHistory(store, from) + CustomerLine(body))) == Generated(reply)
    requires send(Outgoing(reply, SandboxSender, from)) == Delivered
    requires IsClosing(reply)
    ensures var r := Turn(store, from, body, generate, send);
      r.lead == Some(Lead(SimulatedNome, SimulatedEmail, SimulatedInteresse, from,
                          PriorHistory(store, from) + CustomerLine(body) + AssistantLine(reply)))
  {
  }

  /** Only a delivered closing reply produces a lead. */
  lemma LeadOnlyWhenClosed(store: Store, from: string, body: string,
                           generate: string -> GenOutcome, send: Outgoing -> SendOutcome)
    ensures var r := Turn(store, from, body, generate, send);
      r.lead.Some? <==> (r.status == StatusOk && from !in r.store)
  {
  }

  /** The request answers 200 exactly when both remote calls succeed. */
  lemma StatusReflectsRemoteCalls(store: Store, from: string, body: string,
                                  generate: string -> GenOutcome, send: Outgoing -> SendOutcome)
    ensures var r := Turn(store, from, body, generate, send);
      r.status == StatusOk <==> (r.dispatched.Some? && send(r.dispatched.value) == Delivered)
  {
  }

  // ---------------------------------------------------------------------------
  // What a turn does not touch

  /** A turn touches only the sender's key; the collected data of every entry
      that is still there is the data it was created with. */
  lemma TurnTouchesOnlySender(store: Store, from: string, body: string,
                              generate: string -> GenOutcome, send: Outgoing -> SendOutcome)
    ensures var r := Turn(store, from, body, generate, send);
      && (forall k :: k != from ==> (k in r.store <==> k in store))
      && (forall k :: k != from && k in store ==> r.store[k] == store[k])
      && (from in r.store ==> r.store[from].dadosColetados == PriorCollected(store, from))
  {
  }

  /** After a conversation was evicted, the next message from the same sender
      starts afresh: the generator sees a transcript holding only that
      message. */
  lemma FreshAfterEviction(store: Store, from: string, body: string,
                           generate: string -> GenOutcome, send: Outgoing -> SendOutcome,
                           body2: string, generate2: string -> GenOutcome, send2: Outgoing -> SendOutcome)
    requires from !in Turn(store, from, body, generate, send).store
    ensures var r1 := Turn(store, from, body, generate, send);
      var r2 := Turn(r1.store, from, body2, generate2, send2);
      && r2.prompt == Prompt("Cliente: " + body2 + "\n")
      && (from in r2.store ==> r2.store[from].dadosColetados == Collected(None, None, None))
  {
  }

  // ---------------------------------------------------------------------------
  // The closing test

  /** The marker has no capitals, so lower-casing it changes nothing. */
  lemma MarkerIsLowerCase()
    ensures IsLowerCase(Marker)
  {
  }

  /** A reply that spells the marker in lower case closes the conversation. */
  lemma LiteralMarkerCloses(reply: string)
    requires Contains(reply, Marker)
    ensures IsClosing(reply)
  {
    MarkerIsLowerCase();
    LowerKeepsContained(reply, Marker);
  }

  /** The test ignores case: lower-casing the reply first changes nothing. */
  lemma ClosingIgnoresCase(reply: string)
    ensures IsClosing(Lower(reply)) <==> IsClosing(reply)
  {
    LowerIdempotent(reply);
  }

  /** The marker written in any mixture of capitals and small letters, and
      surrounded by any text, closes the conversation. */
  lemma AnyCasingOfMarkerCloses(pre: string, spelled: string, post: string)
    requires Lower(spelled) == Marker
    ensures IsClosing(pre + spelled + post)
  {
    LowerAppend(pre, spelled);
    LowerAppend(pre + spelled, post);
    ContainsInside(Lower(pre), Marker, Lower(post));
  }

  /** The marker in capitals, accented letters included ("ESPECIALISTA
      ENTRARÁ EM CONTATO"), inside any text, closes the conversation. */
  lemma CapitalisedMarkerCloses(pre: string, post: string)
    ensures IsClosing(pre + Upper(Marker) + post)
  {
    LowerOfUpper(Marker);
    MarkerIsLowerCase();
    LowerOfLowerCase(Marker);
    AnyCasingOfMarkerCloses(pre, Upper(Marker), post);
  }
}
