/** The line structure of the transcripts. Besides the `historico` string,
    the model keeps, for every entry, the sequence of customer and assistant
    lines the handler appended to build it. Every turn appends exactly one
    customer line, plus one assistant line when generation succeeded, so each
    assistant line answers the customer line right before it, and the entry's
    collected data stays all null. */
module Transcript {
  import opened Conversation
  import opened TurnPrompt

  datatype Line = Customer(text: string) | Assistant(text: string)

  function RenderLine(l: Line): string {
    match l
    case Customer(t) => CustomerLine(t)
    case Assistant(t) => AssistantLine(t)
  }

  /** The text of a sequence of lines, first line first. */
  function Render(ls: seq<Line>): string {
    if ls == [] then "" else RenderLine(ls[0]) + Render(ls[1..])
  }

  /** Each assistant line directly follows a customer line. */
  predicate Alternates(ls: seq<Line>) {
    forall i :: 0 <= i < |ls| && ls[i].Assistant? ==> 0 < i && ls[i - 1].Customer?
  }

  /** The lines of every active conversation, by sender id. */
  type Lines = map<string, seq<Line>>

  /** `ls` are the lines of entry `e`: a non-empty alternating sequence whose
      text is the entry's transcript; and the entry has no collected data. */
  predicate LinesOf(ls: seq<Line>, e: Entry) {
    && ls != []
    && Alternates(ls)
    && Render(ls) == e.historico
    && e.dadosColetados == NothingCollected
  }

  /** `lines` holds the lines of every entry of `store`, and nothing else. */
  predicate Tracks(lines: Lines, store: Store) {
    && (forall k :: k in lines ==> k in store)
    && (forall k :: k in store ==> k in lines && LinesOf(lines[k], store[k]))
  }

  /** The lines a sender has before a turn: none for an unseen sender. */
  function PriorLines(lines: Lines, from: string): seq<Line> {
    if from in lines then lines[from] else []
  }

  /** The lines one turn appends: the customer line, then the assistant line
      when generation succeeded. */
  function Added(body: string, outcome: GenOutcome): seq<Line> {
    match outcome
    case GenerationFailed => [Customer(body)]
    case Generated(reply) => [Customer(body), Assistant(reply)]
  }

  /** A turn with these outcomes deletes the sender's entry: the reply was
      generated, delivered, and is a closing reply. */
  predicate Evicts(from: string, outcome: GenOutcome, send: Outgoing -> SendOutcome) {
    && outcome.Generated?
    && send(Outgoing(outcome.text, SandboxSender, from)) == Delivered
    && IsClosing(outcome.text)
  }

  /** The lines after one turn. */
  function TurnLines(lines: Lines, store: Store, from: string, body: string,
                     generate: string -> GenOutcome, send: Outgoing -> SendOutcome): Lines {
    var outcome := generate(Prompt(PriorHistory(store, from) + CustomerLine(body)));
    if Evicts(from, outcome, send) then lines - {from}
    else lines[from := PriorLines(lines, from) + Added(body, outcome)]
  }

  function CountCustomer(ls: seq<Line>): nat {
    if ls == [] then 0 else (if ls[0].Customer? then 1 else 0) + CountCustomer(ls[1..])
  }

  function CountAssistant(ls: seq<Line>): nat {
    if ls == [] then 0 else (if ls[0].Assistant? then 1 else 0) + CountAssistant(ls[1..])
  }

  /** Appending a line appends its text. */
  lemma {:induction false} RenderSnoc(ls: seq<Line>, l: Line)
    ensures Render(ls + [l]) == Render(ls) + RenderLine(l)
    decreases |ls|
  {
    if ls == [] {
      assert [] + [l] == [l];
      assert Render([l]) == RenderLine(l) + Render([]);
    } else {
      assert (ls + [l])[1..] == ls[1..] + [l];
      RenderSnoc(ls[1..], l);
    }
  }

  /** In an alternating transcript that starts with a customer line, assistant
      lines never outnumber customer lines: a failed turn leaves a customer line
      without an answer, and no turn answers twice. */
  lemma {:induction false} AssistantsAtMostCustomers(ls: seq<Line>)
    requires Alternates(ls)
    ensures CountAssistant(ls) <= CountCustomer(ls)
    decreases |ls|
  {
    if |ls| >= 2 && ls[1].Assistant? {
      assert ls[0].Customer?;
      var rest := ls[2..];
      assert ls[1..][1..] == rest;
      assert Alternates(rest) by {
        forall i | 0 <= i < |rest| && rest[i].Assistant?
          ensures 0 < i && rest[i - 1].Customer?
        {
          assert ls[i + 2] == rest[i];
          assert ls[i + 1] == rest[i - 1];
        }
      }
      AssistantsAtMostCustomers(rest);
    } else if ls != [] {
      assert ls[0].Customer?;
      var rest := ls[1..];
      assert Alternates(rest) by {
        forall i | 0 <= i < |rest| && rest[i].Assistant?
          ensures 0 < i && rest[i - 1].Customer?
        {
          assert ls[i + 1] == rest[i];
          assert i != 0;
          assert ls[i] == rest[i - 1];
        }
      }
      AssistantsAtMostCustomers(rest);
    }
  }

  /** Counting distributes over concatenation. */
  lemma {:induction false} CountAppend(a: seq<Line>, b: seq<Line>)
    ensures CountCustomer(a + b) == CountCustomer(a) + CountCustomer(b)
    ensures CountAssistant(a + b) == CountAssistant(a) + CountAssistant(b)
    decreases |a|
  {
    if a == [] {
      assert [] + b == b;
    } else {
      assert (a + b)[1..] == a[1..] + b;
      CountAppend(a[1..], b);
    }
  }

  /** The text of the lines a turn appends is the customer line, then the
      assistant line when generation succeeded. */
  lemma RenderAdded(ls: seq<Line>, body: string, outcome: GenOutcome)
    ensures Render(ls + Added(body, outcome))
      == Render(ls) + CustomerLine(body)
         + (if outcome.Generated? then AssistantLine(outcome.text) else "")
  {
    RenderSnoc(ls, Customer(body));
    if outcome.Generated? {
      RenderSnoc(ls + [Customer(body)], Assistant(outcome.text));
      assert ls + [Customer(body)] + [Assistant(outcome.text)] == ls + Added(body, outcome);
    } else {
      assert Render(ls) + CustomerLine(body) + "" == Render(ls) + CustomerLine(body);
    }
  }

  /** Appending a turn's lines keeps the lines alternating. */
  lemma AlternatesAdded(ls: seq<Line>, body: string, outcome: GenOutcome)
    requires Alternates(ls)
    ensures Alternates(ls + Added(body, outcome))
  {
    var ls' := ls + Added(body, outcome);
    forall i | 0 <= i < |ls'| && ls'[i].Assistant? ensures 0 < i && ls'[i - 1].Customer? {
      if i < |ls| {
        assert ls'[i] == ls[i];
        if 0 < i { assert ls'[i - 1] == ls[i - 1]; }
      } else {
        assert i == |ls| + 1 && ls'[i - 1] == Customer(body);
      }
    }
  }

  /** One turn appends to the sender's lines exactly one customer line, and
      one assistant line exactly when generation succeeded; the sender's lines
      are gone exactly when the turn evicts; no other sender's lines change. */
  lemma TurnLinesCounts(lines: Lines, store: Store, from: string, body: string,
                        generate: string -> GenOutcome, send: Outgoing -> SendOutcome)
    ensures var outcome := generate(Prompt(PriorHistory(store, from) + CustomerLine(body)));
      var after := TurnLines(lines, store, from, body, generate, send);
      var prior := PriorLines(lines, from);
      && (from in after <==> !Evicts(from, outcome, send))
      && (from in after ==>
            && prior <= after[from]
            && CountCustomer(after[from]) == CountCustomer(prior) + 1
            && CountAssistant(after[from]) == CountAssistant(prior) + (if outcome.Generated? then 1 else 0))
      && (forall k :: k != from ==> (k in after <==> k in lines))
      && (forall k :: k != from && k in lines ==> after[k] == lines[k])
  {
    var outcome := generate(Prompt(PriorHistory(store, from) + CustomerLine(body)));
    var prior := PriorLines(lines, from);
    CountAppend(prior, Added(body, outcome));
    AddedCounts(body, outcome);
    assert prior <= prior + Added(body, outcome);
  }

  /** A turn appends one customer line and at most one assistant line. */
  lemma AddedCounts(body: string, outcome: GenOutcome)
    ensures CountCustomer(Added(body, outcome)) == 1
    ensures CountAssistant(Added(body, outcome)) == if outcome.Generated? then 1 else 0
  {
    match outcome
    case GenerationFailed =>
      assert [Customer(body)][1..] == [];
    case Generated(reply) =>
      var b := [Assistant(reply)];
      assert b[1..] == [];
      assert CountAssistant(b) == 1 && CountCustomer(b) == 0;
      assert [Customer(body), Assistant(reply)][1..] == b;
  }

  /** The sender's entry after a turn: gone exactly when the turn evicts, and
      otherwise its prior transcript followed by the text of the appended
      lines, with its collected data unchanged. */
  lemma SenderAfterTurn(store: Store, from: string, body: string,
                        generate: string -> GenOutcome, send: Outgoing -> SendOutcome)
    ensures var r := Turn(store, from, body, generate, send);
      var outcome := generate(Prompt(PriorHistory(store, from) + CustomerLine(body)));
      && (from in r.store <==> !Evicts(from, outcome, send))
      && (from in r.store ==>
            && r.store[from].historico == PriorHistory(store, from) + CustomerLine(body)
                 + (if outcome.Generated? then AssistantLine(outcome.text) else "")
            && r.store[from].dadosColetados == PriorCollected(store, from))
  {
    var h := PriorHistory(store, from) + CustomerLine(body);
    TurnTouchesOnlySender(store, from, body, generate, send);
    match generate(Prompt(h))
    case GenerationFailed =>
      GenerationFailureKeepsCustomerLine(store, from, body, generate, send);
      assert h + "" == h;
    case Generated(reply) =>
      ReplyAppendedAndDispatched(store, from, body, generate, send, reply);
      if send(Outgoing(reply, SandboxSender, from)) == Delivered {
        EvictedIffClosing(store, from, body, generate, send, reply);
      } else {
        DispatchFailureKeepsAssistantLine(store, from, body, generate, send, reply);
      }
  }

  /** Every turn keeps the lines in step with the transcripts: the sender's
      entry, when it survives, is the text of its prior lines followed by the
      lines the turn appended. */
  lemma TurnKeepsTracks(lines: Lines, store: Store, from: string, body: string,
                        generate: string -> GenOutcome, send: Outgoing -> SendOutcome)
    requires Tracks(lines, store)
    ensures Tracks(TurnLines(lines, store, from, body, generate, send),
                   Turn(store, from, body, generate, send).store)
  {
    var r := Turn(store, from, body, generate, send);
    var after := TurnLines(lines, store, from, body, generate, send);
    if from in r.store {
      SenderLinesAfterTurn(lines, store, from, body, generate, send);
    }
    forall k | k in r.store && k != from
      ensures k in after && LinesOf(after[k], r.store[k])
    {
      assert after[k] == lines[k] && r.store[k] == store[k];
    }
  }

  /** The sender's entry, when it survives a turn, is tracked by its prior
      lines followed by the lines the turn appended. */
  lemma SenderLinesAfterTurn(lines: Lines, store: Store, from: string, body: string,
                             generate: string -> GenOutcome, send: Outgoing -> SendOutcome)
    requires Tracks(lines, store)
    requires from in Turn(store, from, body, generate, send).store
    ensures from in TurnLines(lines, store, from, body, generate, send)
    ensures LinesOf(TurnLines(lines, store, from, body, generate, send)[from],
                    Turn(store, from, body, generate, send).store[from])
  {
    var outcome := generate(Prompt(PriorHistory(store, from) + CustomerLine(body)));
    var prior := PriorLines(lines, from);
    assert Render(prior) == PriorHistory(store, from);
    assert PriorCollected(store, from) == NothingCollected;
    SenderAfterTurn(store, from, body, generate, send);
    RenderAdded(prior, body, outcome);
    if prior != [] {
      AlternatesAdded(prior, body, outcome);
    } else {
      assert prior + Added(body, outcome) == Added(body, outcome);
    }
  }

  /** In every tracked transcript, assistant lines never outnumber customer
      lines and the first line is a customer line. */
  lemma TrackedCounts(lines: Lines, store: Store, k: string)
    requires Tracks(lines, store)
    requires k in store
    ensures k in lines
    ensures CountAssistant(lines[k]) <= CountCustomer(lines[k])
    ensures lines[k][0].Customer?
  {
    AssistantsAtMostCustomers(lines[k]);
  }

  /** After a turn on a tracked store, the sender's lines, when they survive,
      extend the prior ones by one customer line and at most one assistant
      line, and hold no more assistant lines than customer lines. */
  lemma TrackedTurnCounts(lines: Lines, store: Store, from: string, body: string,
                          generate: string -> GenOutcome, send: Outgoing -> SendOutcome)
    requires Tracks(lines, store)
    ensures var after := TurnLines(lines, store, from, body, generate, send);
      var prior := PriorLines(lines, from);
      from in after ==>
        && prior <= after[from]
        && CountCustomer(after[from]) == CountCustomer(prior) + 1
        && CountAssistant(after[from]) <= CountAssistant(prior) + 1
        && CountAssistant(after[from]) <= CountCustomer(after[from])
  {
    var after := TurnLines(lines, store, from, body, generate, send);
    TurnLinesCounts(lines, store, from, body, generate, send);
    TurnKeepsTracks(lines, store, from, body, generate, send);
    if from in after {
      TrackedCounts(after, Turn(store, from, body, generate, send).store, from);
    }
  }

  // ---------------------------------------------------------------------------
  // A run of several messages from one sender

  /** One inbound message with the outcomes of its two remote calls. */
  datatype Inbound = Inbound(body: string, generate: string -> GenOutcome, send: Outgoing -> SendOutcome)

  /** The store together with the lines of its transcripts. */
  datatype State = State(store: Store, lines: Lines)

  function Step(s: State, from: string, m: Inbound): State {
    State(Turn(s.store, from, m.body, m.generate, m.send).store,
          TurnLines(s.lines, s.store, from, m.body, m.generate, m.send))
  }

  /** One step keeps the lines in step with the store, and adds to the
      sender's lines one customer line and at most one assistant line. */
  lemma StepCounts(t: State, from: string, m: Inbound)
    requires Tracks(t.lines, t.store)
    ensures Tracks(Step(t, from, m).lines, Step(t, from, m).store)
    ensures from in Step(t, from, m).store ==>
      && from in Step(t, from, m).lines
      && CountCustomer(Step(t, from, m).lines[from]) == CountCustomer(PriorLines(t.lines, from)) + 1
      && CountAssistant(Step(t, from, m).lines[from]) <= CountAssistant(PriorLines(t.lines, from)) + 1
  {
    TurnKeepsTracks(t.lines, t.store, from, m.body, m.generate, m.send);
    TurnLinesCounts(t.lines, t.store, from, m.body, m.generate, m.send);
  }

  /** The state after the messages `msgs` from `from`, handled one at a time. */
  function Run(s: State, from: string, msgs: seq<Inbound>): State
    decreases |msgs|
  {
    if msgs == [] then s else Step(Run(s, from, msgs[..|msgs| - 1]), from, msgs[|msgs| - 1])
  }

  /** After N messages from a sender that had no entry, and no eviction along
      the way, the transcript holds exactly N customer lines and at most N
      assistant lines, alternating. */
  lemma {:induction false} RunCounts(s: State, from: string, msgs: seq<Inbound>)
    requires Tracks(s.lines, s.store)
    requires from !in s.store
    requires forall j :: 0 < j <= |msgs| ==> from in Run(s, from, msgs[..j]).store
    ensures Tracks(Run(s, from, msgs).lines, Run(s, from, msgs).store)
    ensures |msgs| > 0 ==>
      && from in Run(s, from, msgs).lines
      && CountCustomer(Run(s, from, msgs).lines[from]) == |msgs|
      && CountAssistant(Run(s, from, msgs).lines[from]) <= |msgs|
    decreases |msgs|
  {
    if msgs != [] {
      var p := msgs[..|msgs| - 1];
      var m := msgs[|msgs| - 1];
      forall j | 0 < j <= |p| ensures from in Run(s, from, p[..j]).store {
        assert p[..j] == msgs[..j];
      }
      RunCounts(s, from, p);
      var t := Run(s, from, p);
      assert Run(s, from, msgs) == Step(t, from, m);
      StepCounts(t, from, m);
      assert msgs[..|msgs|] == msgs;
      if p == [] {
        assert PriorLines(t.lines, from) == [];
      } else {
        assert PriorLines(t.lines, from) == t.lines[from];
      }
    }
  }
}
