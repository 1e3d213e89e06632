/** Exactly when a waiting caller can still return. */
module CallFate {
  import opened Wire
  import opened Queues
  import opened Calls
  import opened CallLedger
  import opened CallSafety

  /** Steps from any state on. */
  ghost predicate IsPath(e: Env, states: seq<State>, actions: seq<Action>) {
    |states| == |actions| + 1 &&
    forall i {:trigger actions[i]} :: 0 <= i < |actions| ==>
      Enabled(e, states[i], actions[i]) && states[i + 1] == Apply(e, states[i], actions[i])
  }

  /** Some continuation ends the client's call. */
  ghost predicate CanReturn(e: Env, s: State, c: nat)
    requires c < |s.clients|
  {
    exists states, actions :: ReturnsAlong(e, s, c, states, actions)
  }

  ghost predicate ReturnsAlong(e: Env, s: State, c: nat, states: seq<State>, actions: seq<Action>)
    requires c < |s.clients|
  {
    IsPath(e, states, actions) && states[0] == s &&
    c < |states[|actions|].clients| && |states[|actions|].clients[c].got| > |s.clients[c].got|
  }

  /** The call the client is in. */
  function Current(s: State, c: nat): Id
    requires c < |s.clients| && s.clients[c].asked != []
  {
    Id(c, |s.clients[c].asked| - 1)
  }

  /** The server sees the request as an empty message, which it discards. */
  predicate ArrivesEmpty(s: State, a: Ask) {
    a.addr < |s.servers| && Fit(a.msg, s.servers[a.addr].size) == []
  }

  ghost predicate Hopeless(s: State, c: nat)
    requires c < |s.clients| && s.clients[c].asked != []
  {
    Current(s, c) in s.lost || ArrivesEmpty(s, s.clients[c].asked[|s.clients[c].asked| - 1])
  }

  ghost predicate Sound(s: State) {
    Disciplined(s) && DeliveredIsDone(s)
  }

  ghost predicate Waits(s: State, c: nat) {
    c < |s.clients| && s.clients[c].status.Waiting? && |s.clients[c].asked| == |s.clients[c].got| + 1
  }

  lemma StepSound(e: Env, s: State, a: Action, t: State)
    requires Sound(s) && Enabled(e, s, a) && Blocking(e) && t == Apply(e, s, a)
    ensures Sound(t)
  {
    StepDisciplined(e, s, a, t);
    StepDeliveredIsDone(e, s, a, t);
  }

  // ---- a way back ----

  lemma FirstStep(e: Env, s: State, a: Action, t: State, c: nat)
    requires Enabled(e, s, a) && t == Apply(e, s, a) && c < |s.clients| && c < |t.clients|
    requires |t.clients[c].got| >= |s.clients[c].got|
    requires |t.clients[c].got| > |s.clients[c].got| || CanReturn(e, t, c)
    ensures CanReturn(e, s, c)
  {
    if |t.clients[c].got| > |s.clients[c].got| {
      assert ReturnsAlong(e, s, c, [s, t], [a]);
    } else {
      var states, actions :| ReturnsAlong(e, t, c, states, actions);
      PathCons(e, s, a, states, actions);
      assert ReturnsAlong(e, s, c, [s] + states, [a] + actions);
    }
  }

  lemma PathCons(e: Env, s: State, a: Action, states: seq<State>, actions: seq<Action>)
    requires IsPath(e, states, actions) && Enabled(e, s, a) && states[0] == Apply(e, s, a)
    ensures IsPath(e, [s] + states, [a] + actions)
  {
    var states', actions' := [s] + states, [a] + actions;
    forall i {:trigger actions'[i]} | 0 <= i < |actions'|
      ensures Enabled(e, states'[i], actions'[i]) && states'[i + 1] == Apply(e, states'[i], actions'[i])
    {
      if i > 0 {
        assert actions'[i] == actions[i - 1] && states'[i] == states[i - 1] && states'[i + 1] == states[i];
      }
    }
  }

  /** A waiting client has one item at most, so nothing is in front of it. */
  lemma RequestFirst(s: State, k: nat)
    requires Sound(s) && k < |s.requests|
    ensures First(s.requests, k, Ends)
  {
    LedgerDistinct(s);
    forall j | 0 <= j < k ensures Ends(s.requests[j]) != Ends(s.requests[k]) {
      assert RequestOk(s, s.requests[j]) && RequestOk(s, s.requests[k]);
      if s.requests[j].src == s.requests[k].src {
        OneCall(s, s.requests[j], s.requests[k]);
      }
    }
  }

  lemma ReplyFirst(s: State, k: nat)
    requires Sound(s) && k < |s.replies|
    ensures First(s.replies, k, Ends)
  {
    LedgerDistinct(s);
    forall j | 0 <= j < k ensures Ends(s.replies[j]) != Ends(s.replies[k]) {
      assert ReplyOk(s, s.replies[j]) && ReplyOk(s, s.replies[k]);
      if s.replies[j].dst == s.replies[k].dst {
        OneCall(s, s.replies[j], s.replies[k]);
      }
    }
  }

  lemma FromInbox(e: Env, s: State, c: nat, k: nat)
    requires Sound(s) && Waits(s, c) && k < |s.replies| && s.replies[k].id.client == c
    ensures CanReturn(e, s, c)
  {
    assert ReplyOk(s, s.replies[k]);
    ReplyFirst(s, k);
    FirstStep(e, s, Deliver(k), AfterDeliver(s, k), c);
  }

  lemma FromHand(e: Env, s: State, c: nat, k: nat)
    requires Sound(s) && Waits(s, c) && k < |s.held| && s.held[k].id.client == c && Blocking(e)
    ensures CanReturn(e, s, c)
  {
    var t := AfterServeSend(s, k, true);
    StepSound(e, s, ServeSend(k, true), t);
    FromInbox(e, t, c, |s.replies|);
    FirstStep(e, s, ServeSend(k, true), t, c);
  }

  lemma Accepted(s: State, k: nat)
    requires Inv(s) && k < |s.requests| && !ArrivesEmpty(s, AskOf(s, s.requests[k].id))
    ensures var t := AfterServeRecv(s, k);
            t.clients == s.clients && |t.held| == |s.held| + 1 && t.held[|s.held|].id == s.requests[k].id
  {
    var p := s.requests[k];
    assert RequestOk(s, p);
    FitShape(p.data, s.servers[p.dst].size);
  }

  lemma FromFreeServer(e: Env, s: State, c: nat, k: nat)
    requires Sound(s) && Waits(s, c) && k < |s.requests| && s.requests[k].id.client == c && Blocking(e)
    requires !ArrivesEmpty(s, AskOf(s, s.requests[k].id))
    requires forall i :: 0 <= i < |s.held| ==> s.held[i].src != s.requests[k].dst
    ensures CanReturn(e, s, c)
  {
    var t := AfterServeRecv(s, k);
    assert RequestOk(s, s.requests[k]);
    RequestFirst(s, k);
    Accepted(s, k);
    StepSound(e, s, ServeRecv(k), t);
    FromHand(e, t, c, |s.held|);
    FirstStep(e, s, ServeRecv(k), t, c);
  }

  lemma AskKept(e: Env, s: State, a: Action, t: State, id: Id)
    requires Enabled(e, s, a) && t == Apply(e, s, a) && Issued(s, id)
    ensures Issued(t, id) && AskOf(t, id) == AskOf(s, id)
    ensures ArrivesEmpty(t, AskOf(t, id)) <==> ArrivesEmpty(s, AskOf(s, id))
  {
    StepGrows(e, s, a);
  }

  lemma HandFreed(s: State, i: nat)
    requires OneHand(s) && i < |s.held|
    ensures var t := AfterServeSend(s, i, true);
            t.requests == s.requests && t.clients == s.clients &&
            forall j :: 0 <= j < |t.held| ==> t.held[j].src != s.held[i].src
  {
  }

  /** A busy server sends first. */
  lemma FromBusyServer(e: Env, s: State, c: nat, k: nat, i: nat)
    requires Sound(s) && Waits(s, c) && k < |s.requests| && s.requests[k].id.client == c && Blocking(e)
    requires !ArrivesEmpty(s, AskOf(s, s.requests[k].id))
    requires i < |s.held| && s.held[i].src == s.requests[k].dst
    ensures CanReturn(e, s, c)
  {
    var t := AfterServeSend(s, i, true);
    HandFreed(s, i);
    StepSound(e, s, ServeSend(i, true), t);
    AskKept(e, s, ServeSend(i, true), t, s.requests[k].id);
    FromFreeServer(e, t, c, k);
    FirstStep(e, s, ServeSend(i, true), t, c);
  }

  lemma FromQueue(e: Env, s: State, c: nat, k: nat)
    requires Sound(s) && Waits(s, c) && k < |s.requests| && s.requests[k].id.client == c && Blocking(e)
    requires !ArrivesEmpty(s, AskOf(s, s.requests[k].id))
    ensures CanReturn(e, s, c)
  {
    if i :| 0 <= i < |s.held| && s.held[i].src == s.requests[k].dst {
      FromBusyServer(e, s, c, k, i);
    } else {
      FromFreeServer(e, s, c, k);
    }
  }

  /** The request of a client that waits is somewhere. */
  lemma Whereabouts(s: State, id: Id)
    requires Ledger(s) && Issued(s, id)
    ensures id in Ids(s.requests) || id in Ids(s.held) || id in Ids(s.replies) ||
            id in s.lost || id in s.discarded || id in s.delivered
  {
    AtMostOnce(s, id);
  }

  lemma DiscardedEmpty(s: State, id: Id)
    requires Genuine(s) && id in s.discarded
    ensures Issued(s, id) && ArrivesEmpty(s, AskOf(s, id))
  {
    var k :| 0 <= k < |s.discarded| && s.discarded[k] == id;
    assert DiscardOk(s, id);
  }

  datatype Place = Queue | Hand | Inbox

  function At(s: State, place: Place): seq<Packet> {
    match place
    case Queue => s.requests
    case Hand => s.held
    case Inbox => s.replies
  }

  lemma InPlace(q: seq<Packet>, id: Id) returns (k: nat)
    requires id in Ids(q)
    ensures k < |q| && q[k].id == id
  {
    k :| k < |q| && Ids(q)[k] == id;
  }

  lemma NotOver(s: State, c: nat)
    requires Sound(s) && Waits(s, c) && !Hopeless(s, c)
    ensures var id := Current(s, c); id !in s.lost && id !in s.discarded && id !in s.delivered
  {
    var id := Current(s, c);
    if id in s.discarded {
      DiscardedEmpty(s, id);
    }
  }

  lemma UnderWay(s: State, id: Id) returns (place: Place, k: nat)
    requires Ledger(s) && Issued(s, id) && id !in s.lost && id !in s.discarded && id !in s.delivered
    ensures k < |At(s, place)| && At(s, place)[k].id == id
  {
    Whereabouts(s, id);
    place := if id in Ids(s.replies) then Inbox else if id in Ids(s.held) then Hand else Queue;
    k := InPlace(At(s, place), id);
  }

  lemma WayBack(e: Env, s: State, c: nat)
    requires Sound(s) && Waits(s, c) && Blocking(e) && !Hopeless(s, c)
    ensures CanReturn(e, s, c)
  {
    NotOver(s, c);
    var place, k := UnderWay(s, Current(s, c));
    match place {
      case Queue => FromQueue(e, s, c, k);
      case Hand => FromHand(e, s, c, k);
      case Inbox => FromInbox(e, s, c, k);
    }
  }

  // ---- no way back ----

  ghost predicate Stuck(s: State, c: nat, asked: seq<Ask>, got: seq<Outcome>) {
    Sound(s) && Waits(s, c) && s.clients[c].asked == asked && s.clients[c].got == got && Hopeless(s, c)
  }

  lemma NotInInbox(s: State, p: Packet)
    requires Inv(s) && p in s.replies
    ensures ReplyOk(s, p) && p.id !in s.lost && !ArrivesEmpty(s, AskOf(s, p.id))
  {
    var k :| 0 <= k < |s.replies| && s.replies[k] == p;
    assert ReplyOk(s, p);
    AtMostOnce(s, p.id);
    CountOne(Ids(s.replies), k);
    NotEmptyThere(s, p);
  }

  lemma NotEmptyThere(s: State, p: Packet)
    requires ReplyOk(s, p)
    ensures !ArrivesEmpty(s, AskOf(s, p.id))
  {
    var a, srv := AskOf(s, p.id), s.servers[p.src];
    var i :| a.version <= i < |srv.cbs| && Handle(srv.cbs[i], a.msg, srv.size) == Some(p.data);
  }

  lemma IsCurrent(s: State, p: Packet, c: nat)
    requires OneOutstanding(s) && p in s.replies && Waits(s, c) && p.id.client == c
    ensures p.id == Current(s, c)
  {
    var k :| 0 <= k < |s.replies| && s.replies[k] == p;
    assert OfCurrentCall(s, p);
  }

  lemma NoReplyComes(s: State, c: nat, k: nat)
    requires Sound(s) && Waits(s, c) && Hopeless(s, c) && k < |s.replies|
    ensures s.replies[k].dst != c
  {
    var p := s.replies[k];
    NotInInbox(s, p);
    if p.dst == c {
      IsCurrent(s, p, c);
    }
  }

  lemma StillWaits(e: Env, s: State, a: Action, t: State, c: nat)
    requires Waits(s, c) && Enabled(e, s, a) && t == Apply(e, s, a) && !e.timeouts
    requires a.Deliver? ==> s.replies[a.k].dst != c
    ensures c < |t.clients| && t.clients[c] == s.clients[c]
  {
  }

  lemma LostStays(e: Env, s: State, a: Action)
    requires Enabled(e, s, a)
    ensures s.lost <= Apply(e, s, a).lost
  {
  }

  lemma StillHopeless(e: Env, s: State, a: Action, t: State, c: nat)
    requires Waits(s, c) && Hopeless(s, c) && Enabled(e, s, a) && t == Apply(e, s, a)
    requires c < |t.clients| && t.clients[c] == s.clients[c]
    ensures Hopeless(t, c)
  {
    LostStays(e, s, a);
    AskKept(e, s, a, t, Current(s, c));
  }

  lemma StepStuck(e: Env, s: State, a: Action, t: State, c: nat, asked: seq<Ask>, got: seq<Outcome>)
    requires Stuck(s, c, asked, got) && Enabled(e, s, a) && t == Apply(e, s, a) && !e.timeouts
    ensures Stuck(t, c, asked, got)
  {
    if a.Deliver? {
      NoReplyComes(s, c, a.k);
    }
    StillWaits(e, s, a, t, c);
    StillHopeless(e, s, a, t, c);
    StepSound(e, s, a, t);
  }

  lemma {:induction false} PathStuck(e: Env, states: seq<State>, actions: seq<Action>, n: nat, c: nat,
                                     asked: seq<Ask>, got: seq<Outcome>)
    requires IsPath(e, states, actions) && n < |states| && !e.timeouts && Stuck(states[0], c, asked, got)
    ensures Stuck(states[n], c, asked, got)
    decreases n
  {
    if n > 0 {
      PathStuck(e, states, actions, n - 1, c, asked, got);
      StepStuck(e, states[n - 1], actions[n - 1], states[n], c, asked, got);
    }
  }

  lemma NoWayBack(e: Env, s: State, c: nat)
    requires Sound(s) && Waits(s, c) && Hopeless(s, c) && !e.timeouts
    ensures !CanReturn(e, s, c)
  {
    forall states, actions | ReturnsAlong(e, s, c, states, actions) ensures false {
      PathStuck(e, states, actions, |actions|, c, s.clients[c].asked, s.clients[c].got);
    }
  }

  // ---- exactly ----

  lemma TimeoutReturns(e: Env, s: State, c: nat)
    requires e.timeouts && Waits(s, c)
    ensures CanReturn(e, s, c)
  {
    FirstStep(e, s, Expire(c), AfterExpire(e, s, c), c);
  }

  /** In every reachable state of every network, a caller that waits can still return exactly when receives can
      time out, or its request is neither lost nor empty at its server. */
  lemma ReturnsExactlyWhen(e: Env, states: seq<State>, actions: seq<Action>, n: nat, c: nat)
    requires IsRun(e, states, actions) && n < |states|
    requires c < |states[n].clients| && states[n].clients[c].status.Waiting?
    ensures states[n].clients[c].asked != []
    ensures CanReturn(e, states[n], c) <==> e.timeouts || !Hopeless(states[n], c)
  {
    var s := states[n];
    RunInv(e, states, actions, n);
    assert ClientOk(s, c);
    if e.timeouts {
      TimeoutReturns(e, s, c);
    } else {
      RunDisciplined(e, states, actions, n);
      RunDeliveredIsDone(e, states, actions, n);
      if Hopeless(s, c) {
        NoWayBack(e, s, c);
      } else {
        WayBack(e, s, c);
      }
    }
  }

  // ---- what loss can do ----

  /** One send of a fresh system. */
  lemma FirstSend(e: Env, s0: State, c: nat, i: nat, msg: Message) returns (s: State)
    requires Init(s0) && c < |s0.clients| && i < |s0.servers|
    ensures s == AfterSend(s0, c, msg, i, true) && Enabled(e, s0, Send(c, msg, i, true))
    ensures IsRun(e, [s0, s], [Send(c, msg, i, true)])
    ensures s.requests == [Packet(c, i, msg, Id(c, 0))] && s.held == s.replies == [] && s.servers == s0.servers
    ensures Waits(s, c) && s.clients[c].asked == [Ask(msg, i, |s0.servers[i].cbs| - 1)]
  {
    s := AfterSend(s0, c, msg, i, true);
  }

  lemma LastStep(e: Env, states: seq<State>, actions: seq<Action>, a: Action, t: State)
    requires IsRun(e, states, actions) && Enabled(e, states[|actions|], a) && t == Apply(e, states[|actions|], a)
    ensures IsRun(e, states + [t], actions + [a])
  {
  }

  lemma LostIsHopeless(e: Env, states: seq<State>, actions: seq<Action>, c: nat)
    requires IsRun(e, states, actions) && !e.timeouts
    requires Waits(states[|actions|], c) && Current(states[|actions|], c) in states[|actions|].lost
    ensures !CanReturn(e, states[|actions|], c)
  {
    ReturnsExactlyWhen(e, states, actions, |actions|, c);
  }

  /** A lossy network without timeouts can lose the request of any first call, and its caller never returns. */
  lemma RequestsGetLost(e: Env, s0: State, c: nat, i: nat, msg: Message)
    returns (states: seq<State>, actions: seq<Action>)
    requires Init(s0) && c < |s0.clients| && i < |s0.servers| && e.lossy && !e.timeouts
    ensures IsRun(e, states, actions) && states[0] == s0 && |actions| == 2
    ensures actions[0] == Send(c, msg, i, true) && c < |states[2].clients| && !CanReturn(e, states[2], c)
  {
    var s1 := FirstSend(e, s0, c, i, msg);
    var s2 := AfterLoseRequest(s1, 0);
    states, actions := [s0, s1] + [s2], [Send(c, msg, i, true)] + [LoseRequest(0)];
    LastStep(e, [s0, s1], [Send(c, msg, i, true)], LoseRequest(0), s2);
    assert Id(c, 0) in s2.lost;
    LostIsHopeless(e, states, actions, c);
  }

  /** The first request is served and its reply is sent. */
  lemma Replied(e: Env, s1: State, c: nat, i: nat, msg: Message) returns (s2: State, s3: State)
    requires c < |s1.clients| && i < |s1.servers| && s1.servers[i].cbs != [] && Fit(msg, s1.servers[i].size) != []
    requires s1.requests == [Packet(c, i, msg, Id(c, 0))] && s1.held == s1.replies == []
    ensures Enabled(e, s1, ServeRecv(0)) && s2 == Apply(e, s1, ServeRecv(0))
    ensures Enabled(e, s2, ServeSend(0, true)) && s3 == Apply(e, s2, ServeSend(0, true))
    ensures s3.clients == s1.clients && |s3.replies| == 1 && s3.replies[0].id == Id(c, 0)
  {
    FitShape(msg, s1.servers[i].size);
    s2 := AfterServeRecv(s1, 0);
    assert |s2.held| == 1 && s2.held[0].id == Id(c, 0);
    s3 := AfterServeSend(s2, 0, true);
  }

  /** ... and it can lose the reply. */
  lemma RepliesGetLost(e: Env, s0: State, c: nat, i: nat, msg: Message)
    returns (states: seq<State>, actions: seq<Action>)
    requires Init(s0) && c < |s0.clients| && i < |s0.servers| && e.lossy && !e.timeouts
    requires Fit(msg, s0.servers[i].size) != []
    ensures IsRun(e, states, actions) && states[0] == s0 && |actions| == 4
    ensures actions[0] == Send(c, msg, i, true) && actions[2] == ServeSend(0, true)
    ensures c < |states[4].clients| && !CanReturn(e, states[4], c)
  {
    var s1 := FirstSend(e, s0, c, i, msg);
    var s2, s3 := Replied(e, s1, c, i, msg);
    var s4 := AfterLoseReply(s3, 0);
    states, actions := [s0, s1], [Send(c, msg, i, true)];
    LastStep(e, states, actions, ServeRecv(0), s2);
    states, actions := states + [s2], actions + [ServeRecv(0)];
    LastStep(e, states, actions, ServeSend(0, true), s3);
    states, actions := states + [s3], actions + [ServeSend(0, true)];
    LastStep(e, states, actions, LoseReply(0), s4);
    states, actions := states + [s4], actions + [LoseReply(0)];
    assert Id(c, 0) in s4.lost;
    LostIsHopeless(e, states, actions, c);
  }
}
