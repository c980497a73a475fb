/**
 The relay's fallback delivery (`BuzzDeliveryTracker` in rust/crates/acp/src/lib.rs):
 a running summary of the frames seen, proved against what the history says.
 */
module BuzzDelivery {
  import opened Common
  import opened UnicodeText

  datatype Destination = Destination(channel: string, replyTo: Option<string>)

  datatype ToolStatus = Completed | Failed | Other

  /**
   `Reply` is any agent frame that carries an id and is not a session update;
   `isRequest` says whether it is itself a request of the agent.
   */
  datatype Frame =
    | Prompt(id: nat, session: nat, destination: Option<Destination>)
    | Chunk(session: nat, text: string)
    | Tool(session: nat, call: nat, publishes: bool, status: ToolStatus)
    | Reply(id: nat, isRequest: bool, error: bool)

  datatype TurnState = TurnState(destination: Option<Destination>, text: string, calls: set<nat>, published: bool)

  datatype Tracker = Tracker(sessions: map<nat, nat>, turns: map<nat, TurnState>)

  datatype Delivery = Delivery(channel: string, replyTo: Option<string>, content: string)

  // ---- The tracker -------------------------------------------------------

  function ObserveToolCall(t: TurnState, call: nat, publishes: bool, status: ToolStatus): TurnState {
    var calls := if publishes then t.calls + {call} else t.calls;
    if status == Completed && (publishes || call in calls) then t.(calls := calls, published := true)
    else if status == Failed then t.(calls := calls - {call})
    else t.(calls := calls)
  }

  function Deliver(t: TurnState, error: bool): Option<Delivery> {
    if error || t.published || t.destination.None? || Trim(t.text) == "" then None
    else Some(Delivery(t.destination.value.channel, t.destination.value.replyTo, Trim(t.text)))
  }

  function Observe(t: Tracker, f: Frame): (Tracker, Option<Delivery>) {
    match f
    case Prompt(id, session, destination) =>
      (Tracker(t.sessions[id := session], t.turns[session := TurnState(destination, "", {}, false)]), None)
    case Chunk(session, text) =>
      if session !in t.turns then (t, None)
      else (t.(turns := t.turns[session := t.turns[session].(text := t.turns[session].text + text)]), None)
    case Tool(session, call, publishes, status) =>
      if session !in t.turns then (t, None)
      else (t.(turns := t.turns[session := ObserveToolCall(t.turns[session], call, publishes, status)]), None)
    case Reply(id, _, error) =>
      if id !in t.sessions then (t, None)
      else
        var session := t.sessions[id];
        var rest := t.(sessions := t.sessions - {id});
        if session !in t.turns then (rest, None)
        else (rest.(turns := t.turns - {session}), Deliver(t.turns[session], error))
  }

  function Track(h: seq<Frame>): Tracker {
    if h == [] then Tracker(map[], map[]) else Observe(Track(h[..|h| - 1]), h[|h| - 1]).0
  }

  // ---- What the history says ---------------------------------------------

  /** Outstanding prompts, by id, and where each was sent. */
  function Open(h: seq<Frame>): map<nat, nat> {
    if h == [] then map[]
    else
      var front, f := h[..|h| - 1], h[|h| - 1];
      match f
      case Prompt(id, _, _) => Open(front)[id := |front|]
      case Reply(id, _, _) => Open(front) - {id}
      case _ => Open(front)
  }

  /** Text sent to session `s` from place `p` on. */
  function TextSince(h: seq<Frame>, p: nat, s: nat): string {
    if |h| <= p then ""
    else
      var front, f := h[..|h| - 1], h[|h| - 1];
      TextSince(front, p, s) + if f.Chunk? && f.session == s then f.text else ""
  }

  predicate IsTool(h: seq<Frame>, i: nat, s: nat, call: nat) {
    i < |h| && h[i].Tool? && h[i].session == s && h[i].call == call
  }

  /** At `j` or later, before `i`, a tool call was seen to publish and has not failed since. */
  predicate Publishing(h: seq<Frame>, p: nat, i: nat, s: nat, call: nat) {
    exists j :: p <= j < i && IsTool(h, j, s, call) && h[j].publishes
                && forall m :: j <= m < i && IsTool(h, m, s, call) ==> h[m].status != Failed
  }

  /** Frame `i` reports the completion of a publishing call. */
  predicate CompletesPublish(h: seq<Frame>, p: nat, i: nat, s: nat) {
    && i < |h| && h[i].Tool? && h[i].session == s && h[i].status == Completed
    && (h[i].publishes || Publishing(h, p, i, s, h[i].call))
  }

  /** A publishing call completed on session `s` at `p` or later. */
  predicate PublishedSince(h: seq<Frame>, p: nat, s: nat) {
    exists i :: p <= i < |h| && CompletesPublish(h, p, i, s)
  }

  /** One outstanding prompt per session, and no outstanding id used twice. */
  predicate Orderly(h: seq<Frame>) {
    h == [] ||
    var front, f := h[..|h| - 1], h[|h| - 1];
    && Orderly(front)
    && (f.Prompt? ==>
          f.id !in Open(front)
          && forall q :: q in Open(front) ==> Open(front)[q] < |front| && front[Open(front)[q]].Prompt?
                                              && front[Open(front)[q]].session != f.session)
  }

  /** What a frame answering `id` should deliver after history `h`. */
  function Expected(h: seq<Frame>, id: nat, error: bool): Option<Delivery> {
    if id !in Open(h) || Open(h)[id] >= |h| || !h[Open(h)[id]].Prompt? then None
    else
      var prompt, p := h[Open(h)[id]], Open(h)[id] + 1;
      var content := Trim(TextSince(h, p, prompt.session));
      if error || prompt.destination.None? || PublishedSince(h, p, prompt.session) || content == "" then None
      else Some(Delivery(prompt.destination.value.channel, prompt.destination.value.replyTo, content))
  }

  // ---- The summary matches the history -----------------------------------

  lemma {:induction false} OpenArePrompts(h: seq<Frame>, id: nat)
    requires id in Open(h)
    ensures Open(h)[id] < |h| && h[Open(h)[id]].Prompt? && h[Open(h)[id]].id == id
  {
    var front, f := h[..|h| - 1], h[|h| - 1];
    if !(f.Prompt? && f.id == id) {
      OpenArePrompts(front, id);
    }
  }

  ghost predicate Summarises(h: seq<Frame>, p: nat, s: nat, t: TurnState) {
    && t.text == TextSince(h, p, s)
    && (forall call: nat :: call in t.calls <==> Publishing(h, p, |h|, s, call))
    && (t.published <==> PublishedSince(h, p, s))
  }

  /** Later frames do not change what was publishing at `i`. */
  lemma PublishingFrame(h: seq<Frame>, f: Frame, p: nat, i: nat, s: nat, call: nat)
    requires i <= |h|
    ensures Publishing(h + [f], p, i, s, call) <==> Publishing(h, p, i, s, call)
  {
    var g := h + [f];
    if Publishing(g, p, i, s, call) {
      var j :| p <= j < i && IsTool(g, j, s, call) && g[j].publishes
               && forall m :: j <= m < i && IsTool(g, m, s, call) ==> g[m].status != Failed;
      assert IsTool(h, j, s, call);
      forall m | j <= m < i && IsTool(h, m, s, call) ensures h[m].status != Failed { assert IsTool(g, m, s, call); }
    }
    if Publishing(h, p, i, s, call) {
      var j :| p <= j < i && IsTool(h, j, s, call) && h[j].publishes
               && forall m :: j <= m < i && IsTool(h, m, s, call) ==> h[m].status != Failed;
      assert IsTool(g, j, s, call);
      forall m | j <= m < i && IsTool(g, m, s, call) ensures g[m].status != Failed { assert IsTool(h, m, s, call); }
    }
  }

  lemma PublishingStep(h: seq<Frame>, f: Frame, p: nat, s: nat, call: nat)
    requires p <= |h|
    ensures var g := h + [f];
            Publishing(g, p, |g|, s, call) <==>
              if IsTool(g, |h|, s, call) then (f.publishes || Publishing(h, p, |h|, s, call)) && f.status != Failed
              else Publishing(h, p, |h|, s, call)
  {
    var g, n := h + [f], |h|;
    PublishingFrame(h, f, p, n, s, call);
    if Publishing(g, p, n + 1, s, call) {
      var j :| p <= j < n + 1 && IsTool(g, j, s, call) && g[j].publishes
               && forall m :: j <= m < n + 1 && IsTool(g, m, s, call) ==> g[m].status != Failed;
      assert j < n ==> Publishing(g, p, n, s, call);
    }
    if Publishing(g, p, n, s, call) && (IsTool(g, n, s, call) ==> f.status != Failed) {
      var j :| p <= j < n && IsTool(g, j, s, call) && g[j].publishes
               && forall m :: j <= m < n && IsTool(g, m, s, call) ==> g[m].status != Failed;
      assert Publishing(g, p, n + 1, s, call);
    }
    if IsTool(g, n, s, call) && f.publishes && f.status != Failed {
      assert g[n].publishes;
      assert Publishing(g, p, n + 1, s, call);
    }
  }

  lemma PublishedStep(h: seq<Frame>, f: Frame, p: nat, s: nat)
    requires p <= |h|
    ensures PublishedSince(h + [f], p, s) <==> PublishedSince(h, p, s) || CompletesPublish(h + [f], p, |h|, s)
  {
    var g := h + [f];
    if PublishedSince(g, p, s) {
      var i :| p <= i < |g| && CompletesPublish(g, p, i, s);
      if i < |h| {
        PublishingFrame(h, f, p, i, s, h[i].call);
        assert CompletesPublish(h, p, i, s);
      }
    }
    if PublishedSince(h, p, s) {
      var i :| p <= i < |h| && CompletesPublish(h, p, i, s);
      PublishingFrame(h, f, p, i, s, h[i].call);
      assert CompletesPublish(g, p, i, s);
    }
  }

  lemma TextStep(h: seq<Frame>, f: Frame, p: nat, s: nat)
    requires p <= |h|
    ensures TextSince(h + [f], p, s) == TextSince(h, p, s) + if f.Chunk? && f.session == s then f.text else ""
  {
    assert (h + [f])[..|h|] == h;
  }

  /** A frame that does not concern the session leaves its summary right. */
  lemma SummaryUntouched(h: seq<Frame>, f: Frame, p: nat, s: nat, t: TurnState)
    requires p <= |h| && Summarises(h, p, s, t)
    requires f.Prompt? || f.Reply? || f.session != s
    ensures Summarises(h + [f], p, s, t)
  {
    TextStep(h, f, p, s);
    PublishedStep(h, f, p, s);
    forall call: nat ensures Publishing(h + [f], p, |h| + 1, s, call) <==> Publishing(h, p, |h|, s, call) {
      PublishingStep(h, f, p, s, call);
    }
    assert t.text + "" == t.text;
  }

  lemma SummaryChunk(h: seq<Frame>, p: nat, s: nat, t: TurnState, text: string)
    requires p <= |h| && Summarises(h, p, s, t)
    ensures Summarises(h + [Chunk(s, text)], p, s, t.(text := t.text + text))
  {
    var f := Chunk(s, text);
    TextStep(h, f, p, s);
    PublishedStep(h, f, p, s);
    forall call: nat ensures Publishing(h + [f], p, |h| + 1, s, call) <==> Publishing(h, p, |h|, s, call) {
      PublishingStep(h, f, p, s, call);
    }
  }

  lemma SummaryTool(h: seq<Frame>, f: Frame, p: nat, t: TurnState)
    requires p <= |h| && f.Tool? && Summarises(h, p, f.session, t)
    ensures Summarises(h + [f], p, f.session, ObserveToolCall(t, f.call, f.publishes, f.status))
  {
    var s := f.session;
    TextStep(h, f, p, s);
    PublishedStep(h, f, p, s);
    PublishingFrame(h, f, p, |h|, s, f.call);
    var u := ObserveToolCall(t, f.call, f.publishes, f.status);
    forall call: nat ensures call in u.calls <==> Publishing(h + [f], p, |h| + 1, s, call) {
      PublishingStep(h, f, p, s, call);
    }
    assert t.text + "" == t.text;
  }

  lemma SummaryStart(h: seq<Frame>, s: nat, destination: Option<Destination>)
    ensures Summarises(h, |h|, s, TurnState(destination, "", {}, false))
  {
  }

  ghost predicate Tracks(h: seq<Frame>, id: nat, t: Tracker)
    requires id in Open(h)
  {
    && Open(h)[id] < |h| && h[Open(h)[id]].Prompt?
    && var prompt := h[Open(h)[id]];
       && id in t.sessions && t.sessions[id] == prompt.session
       && prompt.session in t.turns && t.turns[prompt.session].destination == prompt.destination
       && Summarises(h, Open(h)[id] + 1, prompt.session, t.turns[prompt.session])
  }

  ghost predicate Matches(h: seq<Frame>, t: Tracker) {
    && t.sessions.Keys == Open(h).Keys
    && (forall id :: id in Open(h) ==> Tracks(h, id, t))
    && (forall i, j :: i in t.sessions && j in t.sessions && t.sessions[i] == t.sessions[j] ==> i == j)
  }

  /** An open turn the frame does not concern is tracked as before. */
  lemma StillTracked(h: seq<Frame>, f: Frame, t: Tracker, u: Tracker, id: nat)
    requires id in Open(h) && Tracks(h, id, t) && id in Open(h + [f]) && Open(h + [f])[id] == Open(h)[id]
    requires var s := h[Open(h)[id]].session;
             && id in u.sessions && u.sessions[id] == t.sessions[id]
             && s in u.turns && u.turns[s] == t.turns[s] && (f.Prompt? || f.Reply? || f.session != s)
    ensures Tracks(h + [f], id, u)
  {
    var p, s := Open(h)[id] + 1, h[Open(h)[id]].session;
    SummaryUntouched(h, f, p, s, t.turns[s]);
    assert (h + [f])[Open(h)[id]] == h[Open(h)[id]];
  }

  lemma OpenPush(h: seq<Frame>, f: Frame)
    ensures Open(h + [f]) ==
              if f.Prompt? then Open(h)[f.id := |h|] else if f.Reply? then Open(h) - {f.id} else Open(h)
  {
    assert (h + [f])[..|h|] == h && (h + [f])[|h|] == f;
  }

  lemma PromptTracked(h: seq<Frame>, f: Frame, t: Tracker)
    requires f.Prompt? && f.id in Open(h + [f]) && Open(h + [f])[f.id] == |h|
    ensures Tracks(h + [f], f.id, Observe(t, f).0)
  {
    assert (h + [f])[|h|] == f;
    SummaryStart(h + [f], f.session, f.destination);
  }

  lemma MatchesPrompt(h: seq<Frame>, f: Frame, t: Tracker)
    requires f.Prompt? && Matches(h, t) && Orderly(h + [f])
    ensures Matches(h + [f], Observe(t, f).0)
  {
    var g, u := h + [f], Observe(t, f).0;
    assert g[..|h|] == h && g[|h|] == f;
    OpenPush(h, f);
    forall id | id in Open(g) ensures Tracks(g, id, u) {
      if id == f.id {
        PromptTracked(h, f, t);
      } else {
        assert Tracks(h, id, t);
        StillTracked(h, f, t, u, id);
      }
    }
    forall i, j | i in u.sessions && j in u.sessions && u.sessions[i] == u.sessions[j] ensures i == j {
      assert i != f.id ==> Tracks(h, i, t);
      assert j != f.id ==> Tracks(h, j, t);
    }
  }

  lemma MatchesReply(h: seq<Frame>, f: Frame, t: Tracker)
    requires f.Reply? && Matches(h, t)
    ensures Matches(h + [f], Observe(t, f).0)
  {
    var g, u := h + [f], Observe(t, f).0;
    OpenPush(h, f);
    if f.id in Open(h) { assert Tracks(h, f.id, t); }
    forall id | id in Open(g) ensures Tracks(g, id, u) {
      assert Tracks(h, id, t);
      StillTracked(h, f, t, u, id);
    }
  }

  lemma UpdateTracked(h: seq<Frame>, f: Frame, t: Tracker, id: nat)
    requires (f.Chunk? || f.Tool?) && id in Open(h) && Tracks(h, id, t) && Open(h + [f]) == Open(h)
    requires h[Open(h)[id]].session == f.session
    ensures Tracks(h + [f], id, Observe(t, f).0)
  {
    var p := Open(h)[id] + 1;
    if f.Chunk? {
      SummaryChunk(h, p, f.session, t.turns[f.session], f.text);
    } else {
      SummaryTool(h, f, p, t.turns[f.session]);
    }
    assert (h + [f])[Open(h)[id]] == h[Open(h)[id]];
  }

  lemma MatchesUpdate(h: seq<Frame>, f: Frame, t: Tracker)
    requires (f.Chunk? || f.Tool?) && Matches(h, t)
    ensures Matches(h + [f], Observe(t, f).0)
  {
    var g, u := h + [f], Observe(t, f).0;
    OpenPush(h, f);
    forall id | id in Open(g) ensures Tracks(g, id, u) {
      assert Tracks(h, id, t);
      if h[Open(h)[id]].session == f.session {
        UpdateTracked(h, f, t, id);
      } else {
        StillTracked(h, f, t, u, id);
      }
    }
  }

  lemma {:induction false} TrackMatches(h: seq<Frame>)
    requires Orderly(h)
    ensures Matches(h, Track(h))
  {
    if h != [] {
      var front, f := h[..|h| - 1], h[|h| - 1];
      assert h == front + [f];
      TrackMatches(front);
      if f.Prompt? {
        MatchesPrompt(front, f, Track(front));
      } else if f.Reply? {
        MatchesReply(front, f, Track(front));
      } else {
        MatchesUpdate(front, f, Track(front));
      }
    }
  }

  /**
   After any orderly history, a frame carrying a prompt's id delivers exactly what
   the history calls for: the trimmed text of the turn, to the destination its
   prompt named, unless the frame is an error, no destination was named, a Buzz
   publish completed during the turn, or there is no text. Nothing else delivers.
   */
  lemma DeliversExactly(h: seq<Frame>, f: Frame)
    requires Orderly(h)
    ensures Observe(Track(h), f).1 == if f.Reply? then Expected(h, f.id, f.error) else None
  {
    TrackMatches(h);
    if f.Reply? && f.id in Open(h) {
      assert Tracks(h, f.id, Track(h));
    }
  }

  // ---- Whether only responses deliver ------------------------------------

  /** The open turn of `id` has a destination, no completed publish, and more than white space. */
  predicate Deliverable(h: seq<Frame>, id: nat) {
    id in Open(h) && Open(h)[id] < |h| && h[Open(h)[id]].Prompt? &&
    var prompt, p := h[Open(h)[id]], Open(h)[id] + 1;
    && prompt.destination.Some?
    && !PublishedSince(h, p, prompt.session)
    && !AllSpace(TextSince(h, p, prompt.session))
  }

  lemma ExpectedExactly(h: seq<Frame>, id: nat, error: bool)
    ensures Expected(h, id, error).Some? <==> !error && Deliverable(h, id)
  {
    if id in Open(h) {
      OpenArePrompts(h, id);
      TrimIsEmpty(TextSince(h, Open(h)[id] + 1, h[Open(h)[id]].session));
    }
  }

  lemma {:induction false} OrderlyPrefix(h: seq<Frame>, n: nat)
    requires Orderly(h) && n <= |h|
    ensures Orderly(h[..n])
  {
    if n < |h| {
      OrderlyPrefix(h[..|h| - 1], n);
      assert h[..|h| - 1][..n] == h[..n];
    } else {
      assert h[..n] == h;
    }
  }

  /** Frame `n` of the history made a delivery. */
  predicate Delivered(h: seq<Frame>, n: nat)
    requires n < |h|
  {
    Observe(Track(h[..n]), h[n]).1.Some?
  }

  /** Frame `n` is a request of the agent that carries the id of an open, deliverable prompt. */
  predicate RequestReusesId(h: seq<Frame>, n: nat)
    requires n < |h|
  {
    h[n].Reply? && h[n].isRequest && !h[n].error && Deliverable(h[..n], h[n].id)
  }

  lemma DeliveredByRequest(h: seq<Frame>, n: nat)
    requires Orderly(h) && n < |h|
    ensures Delivered(h, n) ==> h[n].Reply?
    ensures h[n].Reply? && h[n].isRequest ==> (Delivered(h, n) <==> RequestReusesId(h, n))
  {
    OrderlyPrefix(h, n);
    DeliversExactly(h[..n], h[n]);
    if h[n].Reply? { ExpectedExactly(h[..n], h[n].id, h[n].error); }
  }

  /**
   Every delivery of an orderly history is made by a response if and only if no
   request of the agent reuses the id of a prompt that is open and deliverable then.
   */
  lemma OnlyResponsesDeliverExactly(h: seq<Frame>)
    requires Orderly(h)
    ensures (forall n :: 0 <= n < |h| && Delivered(h, n) ==> h[n].Reply? && !h[n].isRequest) <==>
            (forall n :: 0 <= n < |h| ==> !RequestReusesId(h, n))
  {
    forall n | 0 <= n < |h|
      ensures Delivered(h, n) ==> h[n].Reply?
      ensures h[n].Reply? && h[n].isRequest ==> (Delivered(h, n) <==> RequestReusesId(h, n))
    {
      DeliveredByRequest(h, n);
    }
  }

  /** Such a request takes the delivery away from the response that follows. */
  lemma RequestTakesTheTurn(h: seq<Frame>, id: nat, error: bool)
    requires Orderly(h)
    ensures Observe(Track(h + [Reply(id, true, false)]), Reply(id, false, error)).1 == None
  {
    var g := h + [Reply(id, true, false)];
    assert g[..|h|] == h;
    DeliversExactly(g, Reply(id, false, error));
  }

  lemma PromptAndChunk(d: Destination)
    ensures var h := [Prompt(0, 7, Some(d)), Chunk(7, "h")];
            && Orderly(h) && Open(h) == map[0 := 0] && TextSince(h, 1, 7) == "h" && !PublishedSince(h, 1, 7)
  {
    var one, h := [Prompt(0, 7, Some(d))], [Prompt(0, 7, Some(d)), Chunk(7, "h")];
    assert one[..0] == [] && h[..1] == one;
    assert Open(one) == map[0 := 0] && Orderly(one);
    assert TextSince(one, 1, 7) == "" && "" + "h" == "h";
  }

  /** One: a permission request numbered like the prompt delivers the text so far. */
  lemma RequestDelivers(d: Destination)
    ensures var h := [Prompt(0, 7, Some(d)), Chunk(7, "h")];
            var f := Reply(0, true, false);
            && Orderly(h + [f]) && RequestReusesId(h + [f], 2)
            && Observe(Track(h), f).1 == Some(Delivery(d.channel, d.replyTo, "h"))
  {
    var h, f := [Prompt(0, 7, Some(d)), Chunk(7, "h")], Reply(0, true, false);
    PromptAndChunk(d);
    assert (h + [f])[..2] == h && (h + [f])[2] == f;
    assert Trim("h") == "h" by { TrimIsIdentity("h"); }
    DeliversExactly(h, f);
    ExpectedExactly(h, 0, false);
  }

  /** The tracker as an object updated frame by frame. */
  class DeliveryTracker {
    var sessions: map<nat, nat>
    var turns: map<nat, TurnState>

    constructor ()
      ensures View() == Track([])
    {
      sessions, turns := map[], map[];
    }

    function View(): Tracker
      reads this
    {
      Tracker(sessions, turns)
    }

    method ObserveClient(id: nat, session: nat, destination: Option<Destination>)
      modifies this
      ensures View() == Observe(old(View()), Prompt(id, session, destination)).0
    {
      sessions := sessions[id := session];
      turns := turns[session := TurnState(destination, "", {}, false)];
    }

    method ObserveUpdate(f: Frame)
      requires f.Chunk? || f.Tool?
      modifies this`turns
      ensures View() == Observe(old(View()), f).0
    {
      if f.session !in turns {
        return;
      }
      var turn := turns[f.session];
      if f.Chunk? {
        turn := turn.(text := turn.text + f.text);
      } else {
        if f.publishes {
          turn := turn.(calls := turn.calls + {f.call});
        }
        if f.status == Completed && (f.publishes || f.call in turn.calls) {
          turn := turn.(published := true);
        } else if f.status == Failed {
          turn := turn.(calls := turn.calls - {f.call});
        }
      }
      turns := turns[f.session := turn];
    }

    method ObserveReply(id: nat, isRequest: bool, error: bool) returns (r: Option<Delivery>)
      modifies this
      ensures (View(), r) == Observe(old(View()), Reply(id, isRequest, error))
    {
      if id !in sessions {
        return None;
      }
      var session := sessions[id];
      sessions := sessions - {id};
      if session !in turns {
        return None;
      }
      var turn := turns[session];
      turns := turns - {session};
      if error || turn.published || turn.destination.None? {
        return None;
      }
      var content := Trim(turn.text);
      if content == "" {
        return None;
      }
      return Some(Delivery(turn.destination.value.channel, turn.destination.value.replyTo, content));
    }
  }
}
