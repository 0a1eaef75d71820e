/** Requests of browser clients to workers and the workers' responses, matched by one message id counter. */
module Communicator {
  import opened Wrappers

  type Client = nat
  type Worker = nat

  datatype SocketMessage = StateRequest(cid: string) | Request(payload: string)

  /** What a worker reports; coverage maps and session records leave the correlation alone. */
  datatype WorkerMessage =
    | CustomCommand(cid: string, command: string)
    | Response(id: nat, payload: string)
    | Unrelated

  datatype Sent =
    | StateReply(client: Client, commands: set<string>)
    | Reply(client: Client, id: nat, payload: string)
    | Forward(worker: Worker, id: nat, message: SocketMessage)

  /** One handler call. Any interleaving of clients and workers is a sequence of these. */
  datatype Event = Browser(client: Client, worker: Worker, message: SocketMessage) | FromWorker(report: WorkerMessage)

  datatype State = State(msgId: nat, customCommands: map<string, set<string>>, pending: map<nat, Client>,
                         sent: seq<Sent>)

  const INIT := State(0, map[], map[], [])

  function CommandsOf(m: map<string, set<string>>, cid: string): set<string> {
    if cid in m then m[cid] else {}
  }

  function AfterBrowserEvent(s: State, client: Client, worker: Worker, message: SocketMessage): State {
    if message.StateRequest? then
      s.(sent := s.sent + [StateReply(client, CommandsOf(s.customCommands, message.cid))])
    else
      s.(msgId := s.msgId + 1, pending := s.pending[s.msgId := client],
         sent := s.sent + [Forward(worker, s.msgId, message)])
  }

  function AfterWorkerMessage(s: State, report: WorkerMessage): State {
    match report
    case CustomCommand(cid, command) =>
      s.(customCommands := s.customCommands[cid := CommandsOf(s.customCommands, cid) + {command}])
    case Response(id, payload) =>
      if id in s.pending
      then s.(pending := s.pending - {id}, sent := s.sent + [Reply(s.pending[id], id, payload)])
      else s
    case Unrelated => s
  }

  function Handle(s: State, e: Event): State {
    match e
    case Browser(client, worker, message) => AfterBrowserEvent(s, client, worker, message)
    case FromWorker(report) => AfterWorkerMessage(s, report)
  }

  class ServerWorkerCommunicator {
    var msgId: nat
    var customCommands: map<string, set<string>>
    var pendingMessages: map<nat, Client>
    var sent: seq<Sent>

    ghost function View(): State
      reads this
    {
      State(msgId, customCommands, pendingMessages, sent)
    }

    constructor ()
      ensures View() == INIT
    {
      msgId, customCommands, pendingMessages, sent := 0, map[], map[], [];
    }

    method OnBrowserEvent(message: SocketMessage, client: Client, worker: Worker)
      modifies this
      ensures View() == AfterBrowserEvent(old(View()), client, worker, message)
    {
      if message.StateRequest? {
        var commands := if message.cid in customCommands then customCommands[message.cid] else {};
        sent := sent + [StateReply(client, commands)];
        return;
      }
      var id := msgId;
      msgId := msgId + 1;
      pendingMessages := pendingMessages[id := client];
      sent := sent + [Forward(worker, id, message)];
    }

    method OnWorkerMessage(report: WorkerMessage)
      modifies this
      ensures View() == AfterWorkerMessage(old(View()), report)
    {
      match report
      case CustomCommand(cid, command) =>
        if cid !in customCommands {
          customCommands := customCommands[cid := {}];
        }
        customCommands := customCommands[cid := customCommands[cid] + {command}];
      case Response(id, payload) =>
        if id !in pendingMessages {
          return;
        }
        var client := pendingMessages[id];
        pendingMessages := pendingMessages - {id};
        sent := sent + [Reply(client, id, payload)];
      case Unrelated =>
    }
  }

  // ----- What a history of events says on its own

  function Run(es: seq<Event>): State {
    if es == [] then INIT else Handle(Run(es[..|es| - 1]), es[|es| - 1])
  }

  datatype Issue = Issue(client: Client, worker: Worker, message: SocketMessage)

  predicate IsRequest(e: Event) {
    e.Browser? && !e.message.StateRequest?
  }

  /** The requests passed on to workers, in order; the one at position k carries id k. */
  function Issued(es: seq<Event>): seq<Issue> {
    if es == [] then []
    else
      var e := es[|es| - 1];
      Issued(es[..|es| - 1]) + if IsRequest(e) then [Issue(e.client, e.worker, e.message)] else []
  }

  /** Event `j` is a response to a request issued before it. */
  ghost predicate Responds(es: seq<Event>, j: nat, id: nat) {
    j < |es| && es[j].FromWorker? && es[j].report.Response? && es[j].report.id == id && id < |Issued(es[..j])|
  }

  /** It is the first one. */
  ghost predicate Answers(es: seq<Event>, j: nat, id: nat) {
    Responds(es, j, id) && forall i :: 0 <= i < j ==> !Responds(es, i, id)
  }

  ghost predicate IsAnswered(es: seq<Event>, id: nat) {
    exists j: nat :: Responds(es, j, id)
  }

  /** The commands registered for a session. */
  ghost predicate IsRegistered(es: seq<Event>, cid: string, command: string) {
    FromWorker(CustomCommand(cid, command)) in es
  }

  lemma RespondsPrefix(es: seq<Event>, e: Event, j: nat, id: nat)
    requires j < |es|
    ensures Responds(es + [e], j, id) <==> Responds(es, j, id)
  {
    assert (es + [e])[..j] == es[..j];
  }

  lemma AnsweredStep(es: seq<Event>, e: Event, id: nat)
    ensures IsAnswered(es + [e], id) <==>
            IsAnswered(es, id) || (e.FromWorker? && e.report.Response? && e.report.id == id && id < |Issued(es)|)
  {
    var all := es + [e];
    assert all[..|es|] == es;
    if IsAnswered(es, id) {
      var j: nat :| Responds(es, j, id);
      RespondsPrefix(es, e, j, id);
    }
    if IsAnswered(all, id) {
      var j: nat :| Responds(all, j, id);
      if j < |es| {
        RespondsPrefix(es, e, j, id);
      }
    }
    assert Responds(all, |es|, id) <==> e.FromWorker? && e.report.Response? && e.report.id == id && id < |Issued(es)|;
  }

  /**
    Pending entries are exactly the issued ids without an answer, each with the client that issued it; all are below
    the counter, which counts the requests; and the commands known for a session are those registered for it.
   */
  ghost predicate Correlated(es: seq<Event>, s: State) {
    && s.msgId == |Issued(es)|
    && (forall id: nat :: id in s.pending <==> id < s.msgId && !IsAnswered(es, id))
    && (forall id: nat :: id in s.pending ==> id < |Issued(es)| && s.pending[id] == Issued(es)[id].client)
    && (forall cid, c :: c in CommandsOf(s.customCommands, cid) <==> IsRegistered(es, cid, c))
  }

  lemma CommandsStep(es: seq<Event>, e: Event, s: State)
    requires forall cid, c :: c in CommandsOf(s.customCommands, cid) <==> IsRegistered(es, cid, c)
    ensures forall cid, c :: c in CommandsOf(Handle(s, e).customCommands, cid) <==> IsRegistered(es + [e], cid, c)
  {
    forall cid, c
      ensures c in CommandsOf(Handle(s, e).customCommands, cid) <==> IsRegistered(es + [e], cid, c)
    {
      assert IsRegistered(es + [e], cid, c) <==> IsRegistered(es, cid, c) || e == FromWorker(CustomCommand(cid, c));
    }
  }

  lemma NotIssuedNotAnswered(es: seq<Event>, id: nat)
    requires id >= |Issued(es)|
    ensures !IsAnswered(es, id)
  {
    forall j: nat
      ensures !Responds(es, j, id)
    {
      if j < |es| {
        IssuedGrows(es, j);
      }
    }
  }

  lemma {:induction false} IssuedGrows(es: seq<Event>, j: nat)
    requires j <= |es|
    ensures Issued(es[..j]) <= Issued(es)
    decreases |es|
  {
    if j < |es| {
      IssuedGrows(es[..|es| - 1], j);
      assert es[..|es| - 1][..j] == es[..j];
    } else {
      assert es[..j] == es;
    }
  }

  lemma {:induction false} PendingAreUnanswered(es: seq<Event>)
    ensures Correlated(es, Run(es))
  {
    if es == [] {
      forall cid, c
        ensures c in CommandsOf(Run(es).customCommands, cid) <==> IsRegistered(es, cid, c)
      {
      }
    } else {
      var before, e := es[..|es| - 1], es[|es| - 1];
      assert es == before + [e];
      PendingAreUnanswered(before);
      CommandsStep(before, e, Run(before));
      PendingStep(before, e, Run(before));
    }
  }

  lemma PendingStep(es: seq<Event>, e: Event, s: State)
    requires Correlated(es, s)
    ensures Handle(s, e).msgId == |Issued(es + [e])|
    ensures forall id: nat :: id in Handle(s, e).pending <==> id < Handle(s, e).msgId && !IsAnswered(es + [e], id)
    ensures forall id: nat :: id in Handle(s, e).pending ==>
              id < |Issued(es + [e])| && Handle(s, e).pending[id] == Issued(es + [e])[id].client
  {
    hide IsAnswered;
    var all := es + [e];
    assert all[|all| - 1] == e && all[..|all| - 1] == es;
    NotIssuedNotAnswered(es, |Issued(es)|);
    forall id: nat
      ensures IsAnswered(all, id) <==>
              IsAnswered(es, id) || (e.FromWorker? && e.report.Response? && e.report.id == id && id < |Issued(es)|)
    {
      AnsweredStep(es, e, id);
    }
  }

  /** A new id never falls on a pending entry: nothing waiting for a response is overwritten. */
  lemma NextIdIsFree(es: seq<Event>)
    ensures Run(es).msgId !in Run(es).pending
  {
    PendingAreUnanswered(es);
  }

  // ----- Responses

  datatype Delivery = Delivery(client: Client, id: nat, payload: string)

  function Deliveries(sent: seq<Sent>): seq<Delivery> {
    if sent == [] then []
    else
      Deliveries(sent[..|sent| - 1]) +
      match sent[|sent| - 1]
      case Reply(client, id, payload) => [Delivery(client, id, payload)]
      case _ => []
  }

  /** The delivery is the first response to its id, with that response's payload, to the client that issued the id. */
  ghost predicate IsAnswer(es: seq<Event>, d: Delivery) {
    d.id < |Issued(es)| && d.client == Issued(es)[d.id].client &&
    exists j: nat :: Answers(es, j, d.id) && es[j].report.payload == d.payload
  }

  /** What was delivered against the history: every delivery answers its id, no id twice, no answered id left out. */
  ghost predicate DeliveredRightly(es: seq<Event>, ds: seq<Delivery>) {
    && (forall i :: 0 <= i < |ds| ==> IsAnswer(es, ds[i]))
    && (forall i, k :: 0 <= i < k < |ds| ==> ds[i].id != ds[k].id)
    && (forall id: nat :: IsAnswered(es, id) ==> exists i :: 0 <= i < |ds| && ds[i].id == id)
  }

  lemma AnswerStays(es: seq<Event>, e: Event, d: Delivery)
    requires IsAnswer(es, d)
    ensures IsAnswer(es + [e], d)
  {
    var j: nat :| Answers(es, j, d.id) && es[j].report.payload == d.payload;
    var all := es + [e];
    assert all[..|all| - 1] == es;
    RespondsPrefix(es, e, j, d.id);
    forall i | 0 <= i < j
      ensures !Responds(all, i, d.id)
    {
      RespondsPrefix(es, e, i, d.id);
    }
    assert Answers(all, j, d.id) && all[j].report.payload == d.payload;
  }

  lemma {:induction false} NewAnswer(es: seq<Event>, id: nat, payload: string)
    requires id < |Issued(es)| && !IsAnswered(es, id)
    ensures IsAnswer(es + [FromWorker(Response(id, payload))], Delivery(Issued(es)[id].client, id, payload))
  {
    var e := FromWorker(Response(id, payload));
    var all := es + [e];
    assert all[..|es|] == es && all[..|all| - 1] == es;
    forall i | 0 <= i < |es|
      ensures !Responds(all, i, id)
    {
      RespondsPrefix(es, e, i, id);
    }
    assert Answers(all, |es|, id) && all[|es|].report.payload == payload;
  }

  /**
    Over every interleaving of browser events and worker messages: each response reaches the client that issued its
    id, the first response to an id is delivered and no other one, and none is lost.
   */
  lemma {:induction false} ResponsesReachTheirClients(es: seq<Event>)
    ensures DeliveredRightly(es, Deliveries(Run(es).sent))
  {
    if es != [] {
      var before, e := es[..|es| - 1], es[|es| - 1];
      assert es == before + [e];
      ResponsesReachTheirClients(before);
      PendingAreUnanswered(before);
      DeliveryStep(before, e, Run(before));
    }
  }

  lemma DeliveryStep(es: seq<Event>, e: Event, s: State)
    requires Correlated(es, s) && DeliveredRightly(es, Deliveries(s.sent))
    ensures DeliveredRightly(es + [e], Deliveries(Handle(s, e).sent))
  {
    hide IsAnswer, IsAnswered;
    var ds, ds', all := Deliveries(s.sent), Deliveries(Handle(s, e).sent), es + [e];
    SentStep(s, e);
    forall i | 0 <= i < |ds|
      ensures IsAnswer(all, ds[i])
    {
      AnswerStays(es, e, ds[i]);
    }
    forall id: nat
      ensures IsAnswered(all, id) <==>
              IsAnswered(es, id) || (e.FromWorker? && e.report.Response? && e.report.id == id && id < |Issued(es)|)
    {
      AnsweredStep(es, e, id);
    }
    if Delivers(s, e) {
      var id := e.report.id;
      NewAnswer(es, id, e.report.payload);
      forall i | 0 <= i < |ds|
        ensures ds[i].id != id
      {
        DeliveredIsAnswered(es, ds[i]);
      }
      assert ds'[|ds|].id == id;
    }
    assert forall i :: 0 <= i < |ds| ==> ds'[i] == ds[i];
    forall id: nat | IsAnswered(all, id)
      ensures exists i :: 0 <= i < |ds'| && ds'[i].id == id
    {
      if IsAnswered(es, id) {
        var i :| 0 <= i < |ds| && ds[i].id == id;
        assert ds'[i].id == id;
      } else {
        assert id in s.pending;
        assert ds'[|ds|].id == id;
      }
    }
  }

  predicate Delivers(s: State, e: Event) {
    e.FromWorker? && e.report.Response? && e.report.id in s.pending
  }

  lemma SentStep(s: State, e: Event)
    ensures Deliveries(Handle(s, e).sent) ==
            Deliveries(s.sent) +
            if Delivers(s, e) then [Delivery(s.pending[e.report.id], e.report.id, e.report.payload)] else []
  {
    var t := Handle(s, e).sent;
    if t != s.sent {
      assert t[..|t| - 1] == s.sent;
    }
  }

  lemma DeliveredIsAnswered(es: seq<Event>, d: Delivery)
    requires IsAnswer(es, d)
    ensures IsAnswered(es, d.id)
  {
  }

  // ----- Requests

  function Forwards(sent: seq<Sent>): seq<Sent> {
    if sent == [] then []
    else Forwards(sent[..|sent| - 1]) + if sent[|sent| - 1].Forward? then [sent[|sent| - 1]] else []
  }

  lemma CounterCountsRequests(es: seq<Event>)
    ensures Run(es).msgId == |Issued(es)|
  {
    PendingAreUnanswered(es);
  }

  /** Every request goes to its worker once, in order, under its own id. */
  lemma {:induction false} RequestsAreForwarded(es: seq<Event>)
    ensures
      var fs, issued := Forwards(Run(es).sent), Issued(es);
      && |fs| == |issued|
      && forall k :: 0 <= k < |fs| ==> fs[k] == Forward(issued[k].worker, k, issued[k].message)
  {
    if es != [] {
      var before, e := es[..|es| - 1], es[|es| - 1];
      hide Correlated, Handle, Forwards;
      RequestsAreForwarded(before);
      CounterCountsRequests(before);
      ForwardStep(Run(before), e);
    } else {
      assert Forwards([]) == [] by { NoneForwarded(); }
    }
  }

  lemma NoneForwarded()
    ensures Forwards([]) == []
  {
  }

  /** An event forwards one message, under the counter's id, if it is a request, and none otherwise. */
  lemma ForwardStep(s: State, e: Event)
    ensures Forwards(Handle(s, e).sent) ==
            Forwards(s.sent) + if IsRequest(e) then [Forward(e.worker, s.msgId, e.message)] else []
  {
    var t := Handle(s, e).sent;
    if t != s.sent {
      assert t[..|t| - 1] == s.sent;
    }
  }

  /** A browser that asks for the state of its session gets exactly the commands registered for it so far. */
  lemma StateRequestsSeeCommands(es: seq<Event>, client: Client, worker: Worker, cid: string)
    ensures
      var sent := Run(es + [Browser(client, worker, StateRequest(cid))]).sent;
      && sent != [] && sent[|sent| - 1].StateReply? && sent[|sent| - 1].client == client
      && forall c :: c in sent[|sent| - 1].commands <==> IsRegistered(es, cid, c)
  {
    var e := Browser(client, worker, StateRequest(cid));
    assert (es + [e])[..|es + [e]| - 1] == es;
    PendingAreUnanswered(es);
  }

  // ----- Everything that is sent

  ghost function Registered(es: seq<Event>, cid: string): set<string> {
    set i | 0 <= i < |es| && es[i].FromWorker? && es[i].report.CustomCommand? && es[i].report.cid == cid ::
      es[i].report.command
  }

  /** What an event makes the server send after a history: one reply to a state request, one forwarded request, one
      delivery for the first response to an id, and nothing else. */
  ghost function Sends(es: seq<Event>, e: Event): seq<Sent> {
    match e
    case Browser(client, worker, StateRequest(cid)) => [StateReply(client, Registered(es, cid))]
    case Browser(client, worker, Request(payload)) => [Forward(worker, |Issued(es)|, Request(payload))]
    case FromWorker(Response(id, payload)) =>
      if id < |Issued(es)| && !IsAnswered(es, id) then [Reply(Issued(es)[id].client, id, payload)] else []
    case FromWorker(_) => []
  }

  ghost function History(es: seq<Event>): seq<Sent> {
    if es == [] then [] else History(es[..|es| - 1]) + Sends(es[..|es| - 1], es[|es| - 1])
  }

  lemma RegisteredExactly(es: seq<Event>, cid: string, command: string)
    ensures command in Registered(es, cid) <==> IsRegistered(es, cid, command)
  {
    if IsRegistered(es, cid, command) {
      var i :| 0 <= i < |es| && es[i] == FromWorker(CustomCommand(cid, command));
      assert es[i].report.command in Registered(es, cid);
    }
  }

  lemma {:induction false} EventSends(es: seq<Event>, e: Event, s: State)
    requires Correlated(es, s)
    ensures Handle(s, e).sent == s.sent + Sends(es, e)
  {
    hide IsAnswered, IsRegistered, Issued;
    assert s.sent + [] == s.sent;
    if e.Browser? && e.message.StateRequest? {
      var cid := e.message.cid;
      forall c
        ensures c in CommandsOf(s.customCommands, cid) <==> c in Registered(es, cid)
      {
        RegisteredExactly(es, cid, c);
      }
      assert CommandsOf(s.customCommands, cid) == Registered(es, cid);
    }
  }

  /** Over every interleaving the messages sent are exactly those the history calls for, in order. */
  lemma {:induction false} SentIsHistory(es: seq<Event>)
    ensures Run(es).sent == History(es)
  {
    hide Handle, Sends, Correlated;
    if es != [] {
      var before, e := es[..|es| - 1], es[|es| - 1];
      SentIsHistory(before);
      PendingAreUnanswered(before);
      EventSends(before, e, Run(before));
    }
  }
}
