/** What every step of the call system keeps: each request is in exactly one place, and every reply is
    a callback's output on the request it answers, addressed to that request's sender. */
module CallLedger {
  import opened Wire
  import opened Queues
  import opened Calls

  function Ids(q: seq<Packet>): seq<Id> {
    seq(|q|, i requires 0 <= i < |q| => q[i].id)
  }

  ghost predicate Issued(s: State, id: Id) {
    id.client < |s.clients| && id.call < |s.clients[id.client].asked|
  }

  ghost function AskOf(s: State, id: Id): Ask
    requires Issued(s, id)
  {
    s.clients[id.client].asked[id.call]
  }

  /** `d` came from one of the callbacks in force at the server since the request was sent. */
  ghost predicate Computed(a: Ask, srv: Server, d: Message) {
    exists k :: a.version <= k < |srv.cbs| && Handle(srv.cbs[k], a.msg, srv.size) == Some(d)
  }

  ghost predicate RequestOk(s: State, p: Packet) {
    Issued(s, p.id) && p.src == p.id.client && p.dst == AskOf(s, p.id).addr && p.data == AskOf(s, p.id).msg &&
    p.dst < |s.servers| && AskOf(s, p.id).version < |s.servers[p.dst].cbs|
  }

  ghost predicate ReplyOk(s: State, p: Packet) {
    Issued(s, p.id) && p.dst == p.id.client && p.src == AskOf(s, p.id).addr && p.src < |s.servers| &&
    Computed(AskOf(s, p.id), s.servers[p.src], p.data)
  }

  /** Only a request that arrives empty is discarded. */
  ghost predicate DiscardOk(s: State, id: Id) {
    Issued(s, id) && AskOf(s, id).addr < |s.servers| &&
    Fit(AskOf(s, id).msg, s.servers[AskOf(s, id).addr].size) == []
  }

  /** `m` is what a client with buffer size `size` gets to see of a computed reply. */
  ghost predicate Answers(a: Ask, srv: Server, size: nat, m: Message) {
    exists k :: a.version <= k < |srv.cbs| && Handle(srv.cbs[k], a.msg, srv.size).Some? &&
                m == Fit(Handle(srv.cbs[k], a.msg, srv.size).value, size)
  }

  /** The outcome of a client's j-th call: nothing, or an answer to one of its requests up to that one. */
  ghost predicate OutcomeOk(s: State, c: nat, j: nat, o: Outcome)
    requires c < |s.clients|
  {
    match o
    case Threw => true
    case Returned(m, None) => m == []
    case Returned(m, Some(id)) =>
      id.client == c && id.call <= j && id in s.delivered && Issued(s, id) &&
      AskOf(s, id).addr < |s.servers| &&
      Answers(AskOf(s, id), s.servers[AskOf(s, id).addr], s.clients[c].size, m)
  }

  ghost predicate ClientOk(s: State, c: nat)
    requires c < |s.clients|
  {
    var cl := s.clients[c];
    |cl.asked| == |cl.got| + (if cl.status.Waiting? then 1 else 0) &&
    (!cl.status.Closed? ==> forall j :: 0 <= j < |cl.got| ==> cl.got[j].Returned?) &&
    forall j :: 0 <= j < |cl.got| ==> OutcomeOk(s, c, j, cl.got[j])
  }

  ghost predicate Genuine(s: State) {
    (forall i :: 0 <= i < |s.requests| ==> RequestOk(s, s.requests[i])) &&
    (forall i :: 0 <= i < |s.held| ==> ReplyOk(s, s.held[i])) &&
    (forall i :: 0 <= i < |s.replies| ==> ReplyOk(s, s.replies[i])) &&
    (forall i :: 0 <= i < |s.discarded| ==> DiscardOk(s, s.discarded[i])) &&
    (forall c :: 0 <= c < |s.clients| ==> ClientOk(s, c)) &&
    (forall i :: 0 <= i < |s.servers| ==> s.servers[i].cbs != [])
  }

  /** A server is in one `once` at a time. */
  ghost predicate OneHand(s: State) {
    forall i, j :: 0 <= i < j < |s.held| ==> s.held[i].src != s.held[j].src
  }

  ghost function Places(s: State): multiset<Id> {
    multiset(Ids(s.requests)) + multiset(Ids(s.held)) + multiset(Ids(s.replies)) +
    multiset(s.lost) + multiset(s.discarded) + multiset(s.delivered)
  }

  /** Each request ever sent is in exactly one place. */
  ghost predicate Ledger(s: State) {
    multiset(s.sent) == Places(s) &&
    forall id :: multiset(s.sent)[id] == if Issued(s, id) then 1 else 0
  }

  ghost predicate Inv(s: State) {
    Genuine(s) && OneHand(s) && Ledger(s)
  }

  // ---- the ledger ----

  lemma IdsAppend(q: seq<Packet>, p: Packet)
    ensures multiset(Ids(q + [p])) == multiset(Ids(q)) + multiset{p.id}
  {
    assert Ids(q + [p]) == Ids(q) + [p.id];
  }

  lemma IdsRemove(q: seq<Packet>, k: nat)
    requires k < |q|
    ensures multiset(Ids(q)) == multiset(Ids(Remove(q, k))) + multiset{q[k].id}
  {
    assert Ids(Remove(q, k)) == Ids(q)[..k] + Ids(q)[k + 1..];
    assert Ids(q) == Ids(q)[..k] + [q[k].id] + Ids(q)[k + 1..];
  }

  lemma SendIssued(s: State, c: nat, msg: Message, addr: nat, accepted: bool, id: Id)
    requires c < |s.clients|
    ensures var added := Id(c, |s.clients[c].asked|);
            !Issued(s, added) && (Issued(AfterSend(s, c, msg, addr, accepted), id) <==> Issued(s, id) || id == added)
  {
  }

  lemma OneIssued(s: State, t: State, added: Id)
    requires Ledger(s) && multiset(t.sent) == multiset(s.sent) + multiset{added}
    requires Places(t) == Places(s) + multiset{added} && !Issued(s, added)
    requires forall id :: Issued(t, id) <==> Issued(s, id) || id == added
    ensures Ledger(t)
  {
  }

  lemma SendLedger(s: State, c: nat, msg: Message, addr: nat, accepted: bool)
    requires Ledger(s) && c < |s.clients|
    ensures Ledger(AfterSend(s, c, msg, addr, accepted))
  {
    var t := AfterSend(s, c, msg, addr, accepted);
    var added := Id(c, |s.clients[c].asked|);
    IdsAppend(s.requests, Packet(c, addr, msg, added));
    forall id ensures !Issued(s, added) && (Issued(t, id) <==> Issued(s, id) || id == added) {
      SendIssued(s, c, msg, addr, accepted, id);
    }
    OneIssued(s, t, added);
  }

  lemma MoveLedger(s: State, t: State)
    requires Ledger(s) && t.sent == s.sent && Places(t) == Places(s)
    requires |t.clients| == |s.clients|
    requires forall c :: 0 <= c < |s.clients| ==> |t.clients[c].asked| == |s.clients[c].asked|
    ensures Ledger(t)
  {
    forall id ensures multiset(t.sent)[id] == if Issued(t, id) then 1 else 0 {
      assert Issued(t, id) <==> Issued(s, id);
    }
  }

  lemma DeliverLedger(s: State, k: nat)
    requires Ledger(s) && k < |s.replies| && s.replies[k].dst < |s.clients|
    ensures Ledger(AfterDeliver(s, k))
  {
    IdsRemove(s.replies, k);
    MoveLedger(s, AfterDeliver(s, k));
  }

  lemma ServeRecvLedger(s: State, k: nat)
    requires Ledger(s) && k < |s.requests| && s.requests[k].dst < |s.servers| && s.servers[s.requests[k].dst].cbs != []
    ensures Ledger(AfterServeRecv(s, k))
  {
    var t := AfterServeRecv(s, k);
    IdsRemove(s.requests, k);
    if t.discarded == s.discarded {
      IdsAppend(s.held, t.held[|s.held|]);
    }
    MoveLedger(s, t);
  }

  lemma ServeSendLedger(s: State, k: nat, accepted: bool)
    requires Ledger(s) && k < |s.held|
    ensures Ledger(AfterServeSend(s, k, accepted))
  {
    IdsRemove(s.held, k);
    IdsAppend(s.replies, s.held[k]);
    MoveLedger(s, AfterServeSend(s, k, accepted));
  }

  lemma StepLedger(e: Env, s: State, a: Action)
    requires Ledger(s) && Enabled(e, s, a)
    ensures Ledger(Apply(e, s, a))
  {
    match a {
      case Send(c, msg, addr, accepted) => SendLedger(s, c, msg, addr, accepted);
      case Deliver(k) => DeliverLedger(s, k);
      case ServeRecv(k) => ServeRecvLedger(s, k);
      case ServeExpire(_) =>
      case ServeSend(k, accepted) => ServeSendLedger(s, k, accepted);
      case LoseRequest(k) => LoseRequestLedger(s, k);
      case LoseReply(k) => LoseReplyLedger(s, k);
      case Expire(c) => ExpireLedger(e, s, c);
      case Register(i, f) => RegisterLedger(s, i, f);
    }
  }

  lemma LoseRequestLedger(s: State, k: nat)
    requires Ledger(s) && k < |s.requests|
    ensures Ledger(AfterLoseRequest(s, k))
  {
    IdsRemove(s.requests, k);
    MoveLedger(s, AfterLoseRequest(s, k));
  }

  lemma LoseReplyLedger(s: State, k: nat)
    requires Ledger(s) && k < |s.replies|
    ensures Ledger(AfterLoseReply(s, k))
  {
    IdsRemove(s.replies, k);
    MoveLedger(s, AfterLoseReply(s, k));
  }

  lemma ExpireLedger(e: Env, s: State, c: nat)
    requires Ledger(s) && c < |s.clients|
    ensures Ledger(AfterExpire(e, s, c))
  {
    MoveLedger(s, AfterExpire(e, s, c));
  }

  lemma RegisterLedger(s: State, i: nat, f: Callback)
    requires Ledger(s) && i < |s.servers|
    ensures Ledger(AfterRegister(s, i, f))
  {
  }

  // ---- what replies are ----

  /** Calls are only added, callbacks are only added. */
  ghost predicate Grows(s: State, t: State) {
    |t.clients| == |s.clients| && |t.servers| == |s.servers| && s.delivered <= t.delivered &&
    (forall c :: 0 <= c < |s.clients| ==>
      s.clients[c].asked <= t.clients[c].asked && t.clients[c].size == s.clients[c].size) &&
    (forall i :: 0 <= i < |s.servers| ==>
      s.servers[i].cbs <= t.servers[i].cbs && t.servers[i].size == s.servers[i].size)
  }

  lemma GrowsKeeps(s: State, t: State)
    requires Grows(s, t)
    ensures forall p :: RequestOk(s, p) ==> RequestOk(t, p)
    ensures forall p :: ReplyOk(s, p) ==> ReplyOk(t, p)
    ensures forall id :: DiscardOk(s, id) ==> DiscardOk(t, id)
    ensures forall c, j, o :: 0 <= c < |s.clients| && OutcomeOk(s, c, j, o) ==> OutcomeOk(t, c, j, o)
  {
    forall p | ReplyOk(s, p) ensures ReplyOk(t, p) {
      ComputedGrows(AskOf(s, p.id), s.servers[p.src], t.servers[p.src], p.data);
    }
    forall c, j, o | 0 <= c < |s.clients| && OutcomeOk(s, c, j, o) ensures OutcomeOk(t, c, j, o) {
      if o.Returned? && o.source.Some? {
        var a := AskOf(s, o.source.value);
        AnswersGrows(a, s.servers[a.addr], t.servers[a.addr], s.clients[c].size, o.msg);
      }
    }
  }

  lemma ComputedGrows(a: Ask, srv: Server, srv': Server, d: Message)
    requires Computed(a, srv, d) && srv.cbs <= srv'.cbs && srv'.size == srv.size
    ensures Computed(a, srv', d)
  {
    var k :| a.version <= k < |srv.cbs| && Handle(srv.cbs[k], a.msg, srv.size) == Some(d);
    assert srv'.cbs[k] == srv.cbs[k];
  }

  lemma AnswersGrows(a: Ask, srv: Server, srv': Server, size: nat, m: Message)
    requires Answers(a, srv, size, m) && srv.cbs <= srv'.cbs && srv'.size == srv.size
    ensures Answers(a, srv', size, m)
  {
    var k :| a.version <= k < |srv.cbs| && Handle(srv.cbs[k], a.msg, srv.size).Some? &&
             m == Fit(Handle(srv.cbs[k], a.msg, srv.size).value, size);
    assert srv'.cbs[k] == srv.cbs[k];
  }

  lemma StepGrows(e: Env, s: State, a: Action)
    requires Enabled(e, s, a)
    ensures Grows(s, Apply(e, s, a))
  {
  }

  lemma StepGenuine(e: Env, s: State, a: Action)
    requires Genuine(s) && Enabled(e, s, a)
    ensures Genuine(Apply(e, s, a))
  {
    StepGrows(e, s, a);
    GrowsKeeps(s, Apply(e, s, a));
    StepRequests(e, s, a, Apply(e, s, a));
    StepHeld(e, s, a, Apply(e, s, a));
    StepReplies(e, s, a, Apply(e, s, a));
    StepDiscarded(e, s, a);
    forall c | 0 <= c < |s.clients| ensures ClientOk(Apply(e, s, a), c) {
      StepClient(e, s, a, c);
    }
  }

  lemma StepRequests(e: Env, s: State, a: Action, t: State)
    requires Genuine(s) && Enabled(e, s, a) && t == Apply(e, s, a)
    requires forall p :: RequestOk(s, p) ==> RequestOk(t, p)
    ensures forall i :: 0 <= i < |t.requests| ==> RequestOk(t, t.requests[i])
  {
    if a.Send? {
      SendRequests(s, a.c, a.msg, a.addr, a.accepted);
    } else {
      RequestsComeFrom(e, s, a);
      forall i | 0 <= i < |t.requests| ensures RequestOk(t, t.requests[i]) {
        assert t.requests[i] in s.requests;
      }
    }
  }

  lemma SendRequests(s: State, c: nat, msg: Message, addr: nat, accepted: bool)
    requires Genuine(s) && c < |s.clients| && (accepted ==> addr < |s.servers|)
    requires forall p :: RequestOk(s, p) ==> RequestOk(AfterSend(s, c, msg, addr, accepted), p)
    ensures var t := AfterSend(s, c, msg, addr, accepted);
            forall i :: 0 <= i < |t.requests| ==> RequestOk(t, t.requests[i])
  {
  }

  lemma RequestsComeFrom(e: Env, s: State, a: Action)
    requires Enabled(e, s, a) && !a.Send?
    ensures forall p :: p in Apply(e, s, a).requests ==> p in s.requests
  {
  }

  lemma HeldComesFrom(e: Env, s: State, a: Action)
    requires Enabled(e, s, a) && !a.ServeRecv?
    ensures forall p :: p in Apply(e, s, a).held ==> p in s.held
  {
  }

  lemma StepHeld(e: Env, s: State, a: Action, t: State)
    requires Genuine(s) && Enabled(e, s, a) && t == Apply(e, s, a)
    requires forall p :: ReplyOk(s, p) ==> ReplyOk(t, p)
    ensures forall i :: 0 <= i < |t.held| ==> ReplyOk(t, t.held[i])
  {
    if a.ServeRecv? {
      ServeOk(s, a.k);
      ServeHeld(s, a.k);
    } else {
      HeldComesFrom(e, s, a);
      forall i | 0 <= i < |t.held| ensures ReplyOk(t, t.held[i]) {
        assert t.held[i] in s.held;
      }
    }
  }

  lemma ServeHeld(s: State, k: nat)
    requires k < |s.requests| && s.requests[k].dst < |s.servers| && s.servers[s.requests[k].dst].cbs != []
    ensures s.held <= AfterServeRecv(s, k).held
  {
  }

  lemma RepliesComeFrom(e: Env, s: State, a: Action)
    requires Enabled(e, s, a)
    ensures forall p :: p in Apply(e, s, a).replies ==> p in s.replies || p in s.held
  {
  }

  lemma StepReplies(e: Env, s: State, a: Action, t: State)
    requires Genuine(s) && Enabled(e, s, a) && t == Apply(e, s, a)
    requires forall p :: ReplyOk(s, p) ==> ReplyOk(t, p)
    ensures forall i :: 0 <= i < |t.replies| ==> ReplyOk(t, t.replies[i])
  {
    RepliesComeFrom(e, s, a);
    forall i | 0 <= i < |t.replies| ensures ReplyOk(s, t.replies[i]) {
      assert t.replies[i] in t.replies;
    }
  }

  lemma StepDiscarded(e: Env, s: State, a: Action)
    requires Genuine(s) && Enabled(e, s, a)
    requires forall id :: DiscardOk(s, id) ==> DiscardOk(Apply(e, s, a), id)
    ensures var t := Apply(e, s, a); forall i :: 0 <= i < |t.discarded| ==> DiscardOk(t, t.discarded[i])
  {
    if a.ServeRecv? {
      var p := s.requests[a.k];
      assert RequestOk(s, p);
      FitShape(p.data, s.servers[p.dst].size);
      assert Handle(s.servers[p.dst].cbs[|s.servers[p.dst].cbs| - 1], p.data, s.servers[p.dst].size).None? ==>
               DiscardOk(s, p.id);
    }
  }

  /** A client that did nothing is as well as its results are. */
  lemma SameClient(s: State, t: State, c: nat)
    requires c < |s.clients| && c < |t.clients| && ClientOk(s, c)
    requires t.clients[c].asked == s.clients[c].asked && t.clients[c].got == s.clients[c].got
    requires t.clients[c].status == s.clients[c].status
    requires forall j, o :: OutcomeOk(s, c, j, o) ==> OutcomeOk(t, c, j, o)
    ensures ClientOk(t, c)
  {
  }

  lemma SendClient(s: State, x: nat, msg: Message, addr: nat, accepted: bool, c: nat)
    requires x < |s.clients| && c < |s.clients| && ClientOk(s, c) && !s.clients[x].status.Waiting?
    requires forall j, o :: OutcomeOk(s, c, j, o) ==> OutcomeOk(AfterSend(s, x, msg, addr, accepted), c, j, o)
    ensures ClientOk(AfterSend(s, x, msg, addr, accepted), c)
  {
    if x != c {
      SameClient(s, AfterSend(s, x, msg, addr, accepted), c);
    }
  }

  lemma DeliverClient(s: State, k: nat, c: nat)
    requires Genuine(s) && k < |s.replies| && s.clients[s.replies[k].dst].status.Waiting? && c < |s.clients|
    requires forall j, o :: OutcomeOk(s, c, j, o) ==> OutcomeOk(AfterDeliver(s, k), c, j, o)
    ensures ClientOk(AfterDeliver(s, k), c)
  {
    assert ClientOk(s, c);
    if s.replies[k].dst == c {
      DeliverOk(s, k);
    } else {
      SameClient(s, AfterDeliver(s, k), c);
    }
  }

  lemma ExpireClient(e: Env, s: State, x: nat, c: nat)
    requires x < |s.clients| && c < |s.clients| && ClientOk(s, c) && s.clients[x].status.Waiting?
    requires forall j, o :: OutcomeOk(s, c, j, o) ==> OutcomeOk(AfterExpire(e, s, x), c, j, o)
    ensures ClientOk(AfterExpire(e, s, x), c)
  {
    if x != c {
      SameClient(s, AfterExpire(e, s, x), c);
    }
  }

  lemma StepClient(e: Env, s: State, a: Action, c: nat)
    requires Genuine(s) && Enabled(e, s, a) && c < |s.clients|
    requires Grows(s, Apply(e, s, a))
    requires forall j, o :: OutcomeOk(s, c, j, o) ==> OutcomeOk(Apply(e, s, a), c, j, o)
    ensures ClientOk(Apply(e, s, a), c)
  {
    assert ClientOk(s, c);
    match a {
      case Send(x, msg, addr, accepted) => SendClient(s, x, msg, addr, accepted, c);
      case Deliver(k) => DeliverClient(s, k, c);
      case Expire(x) => ExpireClient(e, s, x, c);
      case _ => SameClient(s, Apply(e, s, a), c);
    }
  }

  lemma DeliverOk(s: State, k: nat)
    requires Genuine(s) && k < |s.replies| && s.clients[s.replies[k].dst].status.Waiting?
    ensures var p := s.replies[k];
            var t := AfterDeliver(s, k);
            var o := t.clients[p.dst].got[|s.clients[p.dst].got|];
            OutcomeOk(t, p.dst, |s.clients[p.dst].got|, o)
  {
    var p := s.replies[k];
    var a := AskOf(s, p.id);
    var srv := s.servers[p.src];
    var i :| a.version <= i < |srv.cbs| && Handle(srv.cbs[i], a.msg, srv.size) == Some(p.data);
    assert ClientOk(s, p.dst);
    assert Answers(a, srv, s.clients[p.dst].size, Fit(p.data, s.clients[p.dst].size));
  }

  lemma ServeOk(s: State, k: nat)
    requires Genuine(s) && k < |s.requests|
    ensures var t := AfterServeRecv(s, k);
            forall i :: |s.held| <= i < |t.held| ==> ReplyOk(t, t.held[i])
  {
    var p := s.requests[k];
    var srv := s.servers[p.dst];
    assert RequestOk(s, p);
    assert srv.cbs[|srv.cbs| - 1] == srv.cbs[|srv.cbs| - 1];
  }

  lemma StepOneHand(e: Env, s: State, a: Action)
    requires OneHand(s) && Enabled(e, s, a)
    ensures OneHand(Apply(e, s, a))
  {
  }

  lemma StepInv(e: Env, s: State, a: Action)
    requires Inv(s) && Enabled(e, s, a)
    ensures Inv(Apply(e, s, a))
  {
    StepGenuine(e, s, a);
    StepOneHand(e, s, a);
    StepLedger(e, s, a);
  }

  lemma InitInv(s: State)
    requires Init(s)
    ensures Inv(s)
  {
  }

  lemma {:induction false} RunInv(e: Env, states: seq<State>, actions: seq<Action>, n: nat)
    requires IsRun(e, states, actions) && n < |states|
    ensures Inv(states[n])
    decreases n
  {
    if n == 0 {
      InitInv(states[0]);
    } else {
      RunInv(e, states, actions, n - 1);
      StepInv(e, states[n - 1], actions[n - 1]);
    }
  }

  // ---- consequences ----

  /** Two requests under way, held or answered are never the same one. */
  ghost predicate Distinct(s: State) {
    (forall i, j :: 0 <= i < j < |s.requests| ==> s.requests[i].id != s.requests[j].id) &&
    (forall i, j :: 0 <= i < j < |s.held| ==> s.held[i].id != s.held[j].id) &&
    (forall i, j :: 0 <= i < j < |s.replies| ==> s.replies[i].id != s.replies[j].id) &&
    (forall i, j :: 0 <= i < |s.requests| && 0 <= j < |s.held| ==> s.requests[i].id != s.held[j].id) &&
    (forall i, j :: 0 <= i < |s.requests| && 0 <= j < |s.replies| ==> s.requests[i].id != s.replies[j].id) &&
    (forall i, j :: 0 <= i < |s.held| && 0 <= j < |s.replies| ==> s.held[i].id != s.replies[j].id) &&
    (forall j :: 0 <= j < |s.replies| ==> s.replies[j].id !in s.delivered)
  }

  lemma AtMostOnce(s: State, id: Id)
    requires Ledger(s)
    ensures multiset(Ids(s.requests))[id] + multiset(Ids(s.held))[id] + multiset(Ids(s.replies))[id] +
            multiset(s.lost)[id] + multiset(s.discarded)[id] + multiset(s.delivered)[id] ==
            if Issued(s, id) then 1 else 0
  {
  }

  lemma IdsOnce(s: State, q: seq<Packet>)
    requires Ledger(s) && (q == s.requests || q == s.held || q == s.replies)
    ensures forall i, j :: 0 <= i < j < |q| ==> q[i].id != q[j].id
  {
    forall i, j | 0 <= i < j < |q| && q[i].id == q[j].id ensures false {
      AtMostOnce(s, q[i].id);
      CountTwo(Ids(q), i, j);
    }
  }

  lemma LedgerDistinct(s: State)
    requires Ledger(s)
    ensures Distinct(s)
  {
    IdsOnce(s, s.requests);
    IdsOnce(s, s.held);
    IdsOnce(s, s.replies);
    HeldApart(s);
    RepliesApart(s);
  }

  lemma HeldApart(s: State)
    requires Ledger(s)
    ensures forall i, j :: 0 <= i < |s.requests| && 0 <= j < |s.held| ==> s.requests[i].id != s.held[j].id
    ensures forall i, j :: 0 <= i < |s.held| && 0 <= j < |s.replies| ==> s.held[i].id != s.replies[j].id
  {
    forall i | 0 <= i < |s.held| ensures s.held[i].id !in Ids(s.requests) && s.held[i].id !in Ids(s.replies) {
      AtMostOnce(s, s.held[i].id);
      CountOne(Ids(s.held), i);
    }
    forall i | 0 <= i < |s.requests| ensures s.requests[i].id == Ids(s.requests)[i] { }
    forall j | 0 <= j < |s.replies| ensures s.replies[j].id == Ids(s.replies)[j] { }
  }

  lemma RepliesApart(s: State)
    requires Ledger(s)
    ensures forall i, j :: 0 <= i < |s.requests| && 0 <= j < |s.replies| ==> s.requests[i].id != s.replies[j].id
    ensures forall j :: 0 <= j < |s.replies| ==> s.replies[j].id !in s.delivered
  {
    forall j | 0 <= j < |s.replies| ensures s.replies[j].id !in Ids(s.requests) && s.replies[j].id !in s.delivered {
      AtMostOnce(s, s.replies[j].id);
      CountOne(Ids(s.replies), j);
    }
    forall i | 0 <= i < |s.requests| ensures s.requests[i].id == Ids(s.requests)[i] { }
  }

  /** The call of client `c` behind an item. */
  function CallOf(c: nat): Packet -> Option<nat> {
    (p: Packet) => if p.id.client == c then Some(p.id.call) else None
  }

  function CallsOf(q: seq<Packet>, c: nat): seq<nat> {
    Pick(q, CallOf(c))
  }

  /** In every reachable state, requests sent are those lost, queued, held, discarded as empty, under way
      back or answered, each of them once; every reply was computed from the request it answers and
      goes, or went, to that request's sender. */
  lemma ReplyLedger(e: Env, states: seq<State>, actions: seq<Action>, n: nat)
    requires IsRun(e, states, actions) && n < |states|
    ensures var s := states[n];
            |s.sent| == |s.lost| + |s.requests| + |s.held| + |s.discarded| + |s.replies| + |s.delivered| &&
            (forall id :: Issued(s, id) ==> Places(s)[id] == 1) && Distinct(s) && Genuine(s)
  {
    var s := states[n];
    RunInv(e, states, actions, n);
    LedgerDistinct(s);
    assert |multiset(s.sent)| == |Places(s)|;
    forall id | Issued(s, id) ensures Places(s)[id] == 1 {
      AtMostOnce(s, id);
    }
  }
}
