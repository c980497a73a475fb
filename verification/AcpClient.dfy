/**
 The turn protocol of the Agent Client Protocol client
 (rust/crates/acp/src/client.rs). Prompting threads, the reader thread and the
 disconnect path take locks separately, so each lock section is one step here.
 */
module AcpClient {
  import opened Common

  datatype Error = Disconnected | Rpc(code: int)

  datatype Event =
    | Text(text: string)
    | Thought(text: string)
    | ToolCall(id: string)
    | Done(stop: string)
    | Failed(error: Error)

  predicate Terminal(e: Event) {
    e.Done? || e.Failed?
  }

  /** How far a prompting thread has come. */
  datatype Stage = Allocated | Refused | Registered | Enlisted | Returned | Failing | Withdrawn | GaveUp

  datatype Call = Call(session: nat, stage: Stage)

  datatype Pending = ForTurn(session: nat) | ForReply

  /** `Holding`: the reader has taken a response's pending entry, not yet its turn. */
  datatype Reader =
    | Idle
    | Holding(id: nat, session: nat, event: Event)
    | Flagged
    | Leaving(todo: map<nat, nat>)
    | Gone

  /** History: the response to `response` ended the turn of prompt `turn`. */
  datatype Ending = Ending(response: nat, turn: nat)

  /**
   `turns` maps a session to the prompt whose channel's only sender is stored
   there; `channels` holds what each prompt's channel was sent. `answered` and
   `log` are history.
   */
  datatype Client = Client(
    disconnected: bool,
    nextId: nat,
    calls: map<nat, Call>,
    pending: map<nat, Pending>,
    turns: map<nat, nat>,
    channels: map<nat, seq<Event>>,
    reader: Reader,
    answered: set<nat>,
    log: seq<Ending>)

  datatype Action =
    | Begin(session: nat)
    | Register(id: nat)
    | Enlist(id: nat)
    | Write(id: nat, ok: bool)
    | Withdraw(id: nat)
    | Unregister(id: nat)
    | Ask
    | Forget(id: nat)
    | Update(session: nat, event: Event)
    | Respond(id: nat, event: Event)
    | Finish
    | Hangup
    | TakePending
    | FailOne(id: nat)
    | ClearTurns

  function Init(): Client {
    Client(false, 0, map[], map[], map[], map[], Idle, {}, [])
  }

  predicate At(s: Client, id: nat, stage: Stage) {
    id in s.calls && s.calls[id].stage == stage
  }

  function Move(s: Client, id: nat, stage: Stage): Client
    requires id in s.calls
  {
    s.(calls := s.calls[id := s.calls[id].(stage := stage)])
  }

  function Send(s: Client, id: nat, e: Event): Client {
    if id in s.channels then s.(channels := s.channels[id := s.channels[id] + [e]]) else s
  }

  /** Remove the session's turn, if any, and send it its last event. */
  function EndTurn(s: Client, session: nat, e: Event): Client {
    if session in s.turns then Send(s, s.turns[session], e).(turns := s.turns - {session}) else s
  }

  // ---- The prompting thread ----------------------------------------------

  function StepRegister(s: Client, id: nat): Client
    requires id in s.calls
  {
    var session := s.calls[id].session;
    if session in s.turns then Move(s, id, Refused)
    else Move(s, id, Registered).(turns := s.turns[session := id], channels := s.channels[id := []])
  }

  function StepEnlist(s: Client, id: nat): Client
    requires id in s.calls
  {
    Move(s, id, Enlisted).(pending := s.pending[id := ForTurn(s.calls[id].session)])
  }

  /** The clean-up after a failed write removes whatever turn the session has. */
  function StepUnregister(s: Client, id: nat): Client
    requires id in s.calls
  {
    Move(s, id, GaveUp).(turns := s.turns - {s.calls[id].session})
  }

  // ---- The reader thread -------------------------------------------------

  function StepRespond(s: Client, id: nat, e: Event): Client
    requires id in s.pending
  {
    var t := s.(pending := s.pending - {id});
    match s.pending[id]
    case ForReply => t
    case ForTurn(session) => t.(reader := Holding(id, session, e), answered := s.answered + {id})
  }

  function StepFinish(s: Client): Client
    requires s.reader.Holding?
  {
    var h := s.reader;
    var t := EndTurn(s, h.session, h.event).(reader := Idle);
    if h.session in s.turns then t.(log := s.log + [Ending(h.id, s.turns[h.session])]) else t
  }

  function Sessions(pending: map<nat, Pending>): map<nat, nat> {
    map i | i in pending && pending[i].ForTurn? :: pending[i].session
  }

  function Step(s: Client, a: Action): Client {
    match a
    case Begin(session) =>
      if s.disconnected then s
      else s.(nextId := s.nextId + 1, calls := s.calls[s.nextId := Call(session, Allocated)])
    case Register(id) => if At(s, id, Allocated) then StepRegister(s, id) else s
    case Enlist(id) => if At(s, id, Registered) then StepEnlist(s, id) else s
    case Write(id, ok) => if At(s, id, Enlisted) then Move(s, id, if ok then Returned else Failing) else s
    case Withdraw(id) => if At(s, id, Failing) then Move(s, id, Withdrawn).(pending := s.pending - {id}) else s
    case Unregister(id) => if At(s, id, Withdrawn) then StepUnregister(s, id) else s
    case Ask =>
      if s.disconnected then s else s.(nextId := s.nextId + 1, pending := s.pending[s.nextId := ForReply])
    case Forget(id) => if id in s.pending && s.pending[id].ForReply? then s.(pending := s.pending - {id}) else s
    case Update(session, e) =>
      if s.reader == Idle && !Terminal(e) && session in s.turns then Send(s, s.turns[session], e) else s
    case Respond(id, e) =>
      if s.reader == Idle && Terminal(e) && id in s.pending then StepRespond(s, id, e) else s
    case Finish => if s.reader.Holding? then StepFinish(s) else s
    case Hangup => if s.reader == Idle then s.(reader := Flagged, disconnected := true) else s
    case TakePending =>
      if s.reader == Flagged then s.(reader := Leaving(Sessions(s.pending)), pending := map[]) else s
    case FailOne(id) =>
      if s.reader.Leaving? && id in s.reader.todo
      then EndTurn(s, s.reader.todo[id], Failed(Disconnected)).(reader := Leaving(s.reader.todo - {id})) else s
    case ClearTurns =>
      if s.reader == Leaving(map[]) then s.(reader := Gone, turns := map[]) else s
  }

  function Exec(s: Client, actions: seq<Action>): Client
    decreases |actions|
  {
    if actions == [] then s else Exec(Step(s, actions[0]), actions[1..])
  }

  // ---- What every run keeps ----------------------------------------------

  predicate NoTerminal(es: seq<Event>) {
    forall k :: 0 <= k < |es| ==> !Terminal(es[k])
  }

  /** Non-terminal events, then at most one terminal event, last. */
  predicate Shaped(es: seq<Event>) {
    forall k :: 0 <= k < |es| - 1 ==> !Terminal(es[k])
  }

  predicate HasChannel(calls: map<nat, Call>, j: nat) {
    j in calls && calls[j].stage != Allocated && calls[j].stage != Refused
  }

  ghost predicate IdsOk(nextId: nat, calls: map<nat, Call>, pending: map<nat, Pending>, channels: map<nat, seq<Event>>) {
    && (forall i :: i in calls ==> i < nextId)
    && (forall i :: i in pending ==> i < nextId)
    && (forall j :: j in channels ==> HasChannel(calls, j))
    && (forall j: nat :: HasChannel(calls, j) ==> j in channels)
  }

  /** A stored sender belongs to a prompt of that very session, and its channel is still open. */
  predicate TurnsOk(calls: map<nat, Call>, turns: map<nat, nat>, channels: map<nat, seq<Event>>) {
    forall ses :: ses in turns ==>
      && HasChannel(calls, turns[ses]) && calls[turns[ses]].session == ses
      && turns[ses] in channels && NoTerminal(channels[turns[ses]])
  }

  predicate ChannelsOk(channels: map<nat, seq<Event>>) {
    forall j :: j in channels ==> Shaped(channels[j])
  }

  predicate ReaderOk(reader: Reader) {
    reader.Holding? ==> Terminal(reader.event)
  }

  ghost predicate Inv(s: Client) {
    && IdsOk(s.nextId, s.calls, s.pending, s.channels)
    && TurnsOk(s.calls, s.turns, s.channels)
    && ChannelsOk(s.channels) && ReaderOk(s.reader)
  }

  lemma KeepSend(s: Client, session: nat, e: Event)
    requires Inv(s) && session in s.turns && !Terminal(e)
    ensures Inv(Send(s, s.turns[session], e))
  {
  }

  lemma KeepEnd(s: Client, session: nat, e: Event)
    requires Inv(s) && Terminal(e)
    ensures Inv(EndTurn(s, session, e))
  {
    if session in s.turns {
      var j, t := s.turns[session], EndTurn(s, session, e);
      forall ses | ses in t.turns ensures t.turns[ses] != j {
        assert s.calls[s.turns[ses]].session == ses;
      }
    }
  }

  lemma KeepRegister(s: Client, id: nat)
    requires Inv(s) && At(s, id, Allocated)
    ensures Inv(StepRegister(s, id))
  {
    var t := StepRegister(s, id);
    assert id !in s.channels;
    forall ses | ses in t.turns
      ensures HasChannel(t.calls, t.turns[ses]) && t.calls[t.turns[ses]].session == ses
      ensures t.turns[ses] in t.channels && NoTerminal(t.channels[t.turns[ses]])
    {
      if ses in s.turns { assert s.turns[ses] != id; }
    }
  }

  /** Moving on past registration changes neither ids, sessions nor channels. */
  lemma KeepMove(s: Client, id: nat, stage: Stage)
    requires Inv(s) && HasChannel(s.calls, id) && stage != Allocated && stage != Refused
    ensures Inv(Move(s, id, stage))
  {
  }

  lemma KeepBegin(s: Client, session: nat)
    requires Inv(s)
    ensures Inv(Step(s, Begin(session)))
  {
  }

  lemma KeepReader(s: Client, a: Action)
    requires Inv(s) && (a.Respond? || a.Hangup? || a.TakePending? || a.ClearTurns? || a.Ask? || a.Forget?)
    ensures Inv(Step(s, a))
  {
  }

  lemma KeepEnding(s: Client, a: Action)
    requires Inv(s) && (a.Finish? || a.FailOne?)
    ensures Inv(Step(s, a))
  {
    if a.Finish? && s.reader.Holding? {
      KeepEnd(s, s.reader.session, s.reader.event);
    } else if a.FailOne? && s.reader.Leaving? && a.id in s.reader.todo {
      KeepEnd(s, s.reader.todo[a.id], Failed(Disconnected));
    }
  }

  lemma KeepPrompt(s: Client, a: Action)
    requires Inv(s) && (a.Enlist? || a.Write? || a.Withdraw? || a.Unregister?)
    ensures Inv(Step(s, a))
  {
    match a
    case Enlist(id) => if At(s, id, Registered) { KeepMove(s, id, Enlisted); }
    case Write(id, ok) => if At(s, id, Enlisted) { KeepMove(s, id, if ok then Returned else Failing); }
    case Withdraw(id) => if At(s, id, Failing) { KeepMove(s, id, Withdrawn); }
    case Unregister(id) => if At(s, id, Withdrawn) { KeepMove(s, id, GaveUp); }
  }

  lemma KeepInv(s: Client, a: Action)
    requires Inv(s)
    ensures Inv(Step(s, a))
  {
    match a
    case Begin(session) => KeepBegin(s, session);
    case Register(id) => if At(s, id, Allocated) { KeepRegister(s, id); }
    case Update(session, e) => if session in s.turns && !Terminal(e) { KeepSend(s, session, e); }
    case Finish => KeepEnding(s, a);
    case FailOne(_) => KeepEnding(s, a);
    case Enlist(_) => KeepPrompt(s, a);
    case Write(_, _) => KeepPrompt(s, a);
    case Withdraw(_) => KeepPrompt(s, a);
    case Unregister(_) => KeepPrompt(s, a);
    case _ => KeepReader(s, a);
  }

  lemma {:induction false} EveryExec(s: Client, actions: seq<Action>)
    requires Inv(s)
    ensures Inv(Exec(s, actions))
    decreases |actions|
  {
    if actions != [] {
      KeepInv(s, actions[0]);
      EveryExec(Step(s, actions[0]), actions[1..]);
    }
  }

  /** In every run an update reaches exactly the open turn of its own session. */
  lemma UpdateReachesItsTurn(actions: seq<Action>, session: nat, e: Event)
    requires var s := Exec(Init(), actions); s.reader == Idle && session in s.turns && !Terminal(e)
    ensures var s := Exec(Init(), actions);
            var j := s.turns[session];
            && j in s.calls && s.calls[j].session == session && j in s.channels && NoTerminal(s.channels[j])
            && Step(s, Update(session, e)) == s.(channels := s.channels[j := s.channels[j] + [e]])
  {
    EveryExec(Init(), actions);
  }

  // ---- Reading a turn ----------------------------------------------------

  /** What iterating a closed channel yields: its events up to the first terminal one, or a failure. */
  function Drained(es: seq<Event>): seq<Event> {
    if es == [] then [Failed(Disconnected)]
    else if Terminal(es[0]) then [es[0]]
    else [es[0]] + Drained(es[1..])
  }

  /** Non-terminal events followed by exactly one terminal event. */
  predicate ProperTurn(es: seq<Event>) {
    es != [] && Terminal(es[|es| - 1]) && NoTerminal(es[..|es| - 1])
  }

  lemma {:induction false} DrainedProper(es: seq<Event>)
    ensures ProperTurn(Drained(es))
  {
    if es != [] && !Terminal(es[0]) {
      DrainedProper(es[1..]);
      var rest := Drained(es[1..]);
      assert Drained(es)[..|rest|] == [es[0]] + rest[..|rest| - 1];
    }
  }

  lemma {:induction false} DrainedOpen(es: seq<Event>)
    requires NoTerminal(es)
    ensures Drained(es) == es + [Failed(Disconnected)]
  {
    if es != [] {
      DrainedOpen(es[1..]);
      assert es == [es[0]] + es[1..];
    }
  }

  lemma {:induction false} DrainedEnded(es: seq<Event>, e: Event)
    requires NoTerminal(es) && Terminal(e)
    ensures Drained(es + [e]) == es + [e]
  {
    if es == [] {
      assert es + [e] == [e];
    } else {
      DrainedEnded(es[1..], e);
      assert (es + [e])[1..] == es[1..] + [e];
    }
  }

  lemma DrainedIsSent(es: seq<Event>)
    requires Shaped(es)
    ensures Drained(es) == if NoTerminal(es) then es + [Failed(Disconnected)] else es
  {
    if NoTerminal(es) {
      DrainedOpen(es);
    } else {
      var n := |es| - 1;
      assert es == es[..n] + [es[n]];
      DrainedEnded(es[..n], es[n]);
    }
  }

  /**
   In every run, a session has at most one open turn, a channel that has been sent
   its terminal event is no longer reachable, and a turn whose sender is gone reads
   as everything it was sent, ending in exactly one terminal event.
   */
  lemma EveryTurnEndsOnce(actions: seq<Action>, j: nat)
    requires j in Exec(Init(), actions).channels
    ensures var s := Exec(Init(), actions);
            && Shaped(s.channels[j])
            && (forall ses, other :: ses in s.turns && other in s.turns && s.turns[ses] == s.turns[other] ==> ses == other)
            && (!NoTerminal(s.channels[j]) ==> forall ses :: ses in s.turns ==> s.turns[ses] != j)
            && ProperTurn(Drained(s.channels[j]))
            && (NoTerminal(s.channels[j]) ==> Drained(s.channels[j]) == s.channels[j] + [Failed(Disconnected)])
            && (!NoTerminal(s.channels[j]) ==> Drained(s.channels[j]) == s.channels[j])
  {
    EveryExec(Init(), actions);
    DrainedProper(Exec(Init(), actions).channels[j]);
    DrainedIsSent(Exec(Init(), actions).channels[j]);
  }

  /** The receiving end of a turn whose sender is gone. */
  class Turn {
    var events: seq<Event>
    var done: bool

    constructor (channel: seq<Event>)
      ensures events == channel && !done
    {
      events, done := channel, false;
    }

    /** What is still to be read. */
    function Rest(): seq<Event>
      reads this
    {
      if done then [] else Drained(events)
    }

    method Next() returns (r: Option<Event>)
      modifies this
      ensures old(Rest()) == [] ==> r == None && Rest() == []
      ensures old(Rest()) != [] ==> r == Some(old(Rest())[0]) && Rest() == old(Rest())[1..]
    {
      if done {
        return None;
      }
      if events == [] {
        done := true;
        return Some(Failed(Disconnected));
      }
      var event := events[0];
      events := events[1..];
      done := Terminal(event);
      return Some(event);
    }

    /** Drains the turn, concatenating the assistant's text. */
    method CollectText() returns (text: string, last: Event)
      requires !done
      modifies this
      ensures Rest() == [] && Terminal(last)
      ensures text == TextOf(old(Rest())) && last == old(Rest())[|old(Rest())| - 1]
    {
      text := "";
      ghost var all := Rest();
      ghost var n := 0;
      DrainedProper(events);
      assert all[..0] == [];
      while true
        invariant 0 <= n < |all| && Rest() == all[n..] && text == TextOf(all[..n]) && ProperTurn(all)
        decreases |all| - n
      {
        var r := Next();
        var event := r.value;
        assert all[..n + 1][..n] == all[..n];
        assert event == all[n];
        assert n < |all| - 1 ==> all[..|all| - 1][n] == all[n];
        if Terminal(event) {
          assert all[..|all|] == all;
          return text, event;
        }
        if event.Text? {
          text := text + event.text;
        }
        n := n + 1;
      }
    }
  }

  function TextOf(es: seq<Event>): string {
    if es == [] then ""
    else TextOf(es[..|es| - 1]) + if es[|es| - 1].Text? then es[|es| - 1].text else ""
  }
}
