/** Whether a caller gets the answer to its own request. */
module CallSafety {
  import opened Wire
  import opened Queues
  import opened Calls
  import opened CallLedger

  /** A timed-out call is over for the socket: blocking sockets never time out, and Unix sockets close. */
  predicate Blocking(e: Env) {
    e.transport.Unix? || !e.timeouts
  }

  /** The first call that threw: the one whose timeout closed the socket. */
  ghost predicate FirstThrow(got: seq<Outcome>, j: nat) {
    j < |got| && got[j].Threw? && forall i :: 0 <= i < j ==> got[i].Returned?
  }

  /** The item belongs to the call its client waits in, or to the call whose timeout closed it. */
  ghost predicate OfCurrentCall(s: State, p: Packet) {
    p.id.client < |s.clients| &&
    var cl := s.clients[p.id.client];
    match cl.status
    case Idle => false
    case Waiting => p.id.call + 1 == |cl.asked|
    case Closed => FirstThrow(cl.got, p.id.call)
  }

  /** All items of a client, across queues, hands and inboxes, belong to one call. */
  ghost predicate OneOutstanding(s: State) {
    (forall i :: 0 <= i < |s.requests| ==> OfCurrentCall(s, s.requests[i])) &&
    (forall i :: 0 <= i < |s.held| ==> OfCurrentCall(s, s.held[i])) &&
    (forall i :: 0 <= i < |s.replies| ==> OfCurrentCall(s, s.replies[i]))
  }

  /** Every completed call consumed its own reply. */
  ghost predicate OwnSources(s: State) {
    forall c, j :: 0 <= c < |s.clients| && 0 <= j < |s.clients[c].got| && s.clients[c].got[j].Returned? ==>
      s.clients[c].got[j].source == Some(Id(c, j))
  }

  lemma StepOneOutstanding(e: Env, s: State, a: Action)
    requires Inv(s) && OneOutstanding(s) && Enabled(e, s, a) && Blocking(e)
    ensures OneOutstanding(Apply(e, s, a))
  {
    match a {
      case Send(c, msg, addr, accepted) => SendOneOutstanding(s, c, msg, addr, accepted);
      case Deliver(k) => DeliverOneOutstanding(s, k);
      case Expire(c) => ExpireOneOutstanding(e, s, c);
      case ServeRecv(k) => ServeOneOutstanding(s, k);
      case _ => MoveOneOutstanding(e, s, a);
    }
  }

  lemma SendOneOutstanding(s: State, c: nat, msg: Message, addr: nat, accepted: bool)
    requires Inv(s) && OneOutstanding(s) && c < |s.clients| && !s.clients[c].status.Waiting?
    requires accepted ==> s.clients[c].status.Idle?
    ensures OneOutstanding(AfterSend(s, c, msg, addr, accepted))
  {
    var t := AfterSend(s, c, msg, addr, accepted);
    forall p | OfCurrentCall(s, p) ensures OfCurrentCall(t, p) { }
    assert t.requests != s.requests ==> OfCurrentCall(t, Packet(c, addr, msg, Id(c, |s.clients[c].asked|)));
  }

  /** Delivery touches one client, whose only item it takes. */
  lemma StillCurrent(s: State, k: nat, q: Packet)
    requires Inv(s) && k < |s.replies| && s.clients[s.replies[k].dst].status.Waiting?
    requires OfCurrentCall(s, s.replies[k]) && OfCurrentCall(s, q) && q.id != s.replies[k].id
    ensures OfCurrentCall(AfterDeliver(s, k), q)
  {
    assert ReplyOk(s, s.replies[k]);
  }

  lemma DeliverOneOutstanding(s: State, k: nat)
    requires Inv(s) && OneOutstanding(s) && k < |s.replies| && s.clients[s.replies[k].dst].status.Waiting?
    ensures OneOutstanding(AfterDeliver(s, k))
  {
    var t := AfterDeliver(s, k);
    LedgerDistinct(s);
    forall i | 0 <= i < |t.requests| ensures OfCurrentCall(t, t.requests[i]) {
      StillCurrent(s, k, s.requests[i]);
    }
    forall i | 0 <= i < |t.held| ensures OfCurrentCall(t, t.held[i]) {
      StillCurrent(s, k, s.held[i]);
    }
    forall i | 0 <= i < |t.replies| ensures OfCurrentCall(t, t.replies[i]) {
      StillCurrent(s, k, s.replies[if i < k then i else i + 1]);
    }
  }

  lemma ExpireOneOutstanding(e: Env, s: State, c: nat)
    requires Inv(s) && OneOutstanding(s) && c < |s.clients| && s.clients[c].status.Waiting? && e.transport.Unix?
    ensures OneOutstanding(AfterExpire(e, s, c))
  {
    assert ClientOk(s, c);
    forall p | OfCurrentCall(s, p) ensures OfCurrentCall(AfterExpire(e, s, c), p) { }
  }

  lemma ServeOneOutstanding(s: State, k: nat)
    requires OneOutstanding(s)
    requires k < |s.requests| && s.requests[k].dst < |s.servers| && s.servers[s.requests[k].dst].cbs != []
    ensures OneOutstanding(AfterServeRecv(s, k))
  {
    forall p | OfCurrentCall(s, p) ensures OfCurrentCall(AfterServeRecv(s, k), p) { }
  }

  lemma MoveOneOutstanding(e: Env, s: State, a: Action)
    requires OneOutstanding(s) && Enabled(e, s, a)
    requires a.ServeSend? || a.ServeExpire? || a.Register? || a.LoseRequest? || a.LoseReply?
    ensures OneOutstanding(Apply(e, s, a))
  {
    forall p | OfCurrentCall(s, p) ensures OfCurrentCall(Apply(e, s, a), p) { }
  }

  lemma OwnReply(s: State, k: nat)
    requires Inv(s) && OneOutstanding(s)
    requires k < |s.replies| && s.clients[s.replies[k].dst].status.Waiting?
    ensures s.replies[k].id == Id(s.replies[k].dst, |s.clients[s.replies[k].dst].got|)
  {
    var p := s.replies[k];
    assert ReplyOk(s, p) && ClientOk(s, p.dst) && OfCurrentCall(s, p);
  }

  lemma DeliverOwnSources(s: State, k: nat)
    requires OwnSources(s) && k < |s.replies| && s.replies[k].dst < |s.clients|
    requires s.replies[k].id == Id(s.replies[k].dst, |s.clients[s.replies[k].dst].got|)
    ensures OwnSources(AfterDeliver(s, k))
  {
  }

  lemma ReplyOwnSources(s: State, k: nat)
    requires Inv(s) && OneOutstanding(s) && OwnSources(s)
    requires k < |s.replies| && s.replies[k].dst < |s.clients| && s.clients[s.replies[k].dst].status.Waiting?
    ensures OwnSources(AfterDeliver(s, k))
  {
    OwnReply(s, k);
    DeliverOwnSources(s, k);
  }

  lemma ExpireOwnSources(e: Env, s: State, c: nat)
    requires OwnSources(s) && c < |s.clients| && e.transport.Unix?
    ensures OwnSources(AfterExpire(e, s, c))
  {
  }

  lemma SendOwnSources(s: State, c: nat, msg: Message, addr: nat, accepted: bool)
    requires OwnSources(s) && c < |s.clients|
    ensures OwnSources(AfterSend(s, c, msg, addr, accepted))
  {
  }

  lemma StepOwnSources(e: Env, s: State, a: Action, t: State)
    requires Inv(s) && OneOutstanding(s) && OwnSources(s) && Enabled(e, s, a) && Blocking(e) && t == Apply(e, s, a)
    ensures OwnSources(t)
  {
    match a {
      case Send(c, msg, addr, accepted) => SendOwnSources(s, c, msg, addr, accepted);
      case Deliver(k) => ReplyOwnSources(s, k);
      case Expire(c) => ExpireOwnSources(e, s, c);
      case _ => SameOwnSources(s, t);
    }
  }

  lemma SameOwnSources(s: State, t: State)
    requires OwnSources(s) && t.clients == s.clients
    ensures OwnSources(t)
  {
  }

  /** The blocking discipline: at most one item per client, and every result its own reply. */
  ghost predicate Disciplined(s: State) {
    Inv(s) && OneOutstanding(s) && OwnSources(s)
  }

  lemma InitDisciplined(s: State)
    requires Init(s)
    ensures Disciplined(s)
  {
  }

  lemma StepDisciplined(e: Env, s: State, a: Action, t: State)
    requires Disciplined(s) && Enabled(e, s, a) && Blocking(e) && t == Apply(e, s, a)
    ensures Disciplined(t)
  {
    StepInv(e, s, a);
    StepOneOutstanding(e, s, a);
    StepOwnSources(e, s, a, t);
  }

  lemma {:induction false} RunDisciplined(e: Env, states: seq<State>, actions: seq<Action>, n: nat)
    requires IsRun(e, states, actions) && n < |states| && Blocking(e)
    ensures Disciplined(states[n])
    decreases n
  {
    if n == 0 {
      InitDisciplined(states[0]);
    } else {
      RunDisciplined(e, states, actions, n - 1);
      StepDisciplined(e, states[n - 1], actions[n - 1], states[n]);
    }
  }

  /** An answer that was delivered ended its own call. */
  ghost predicate DeliveredIsDone(s: State) {
    forall id :: id in s.delivered ==> id.client < |s.clients| && id.call < |s.clients[id.client].got|
  }

  lemma DeliverIsDone(s: State, k: nat)
    requires Inv(s) && OneOutstanding(s) && DeliveredIsDone(s)
    requires k < |s.replies| && s.replies[k].dst < |s.clients| && s.clients[s.replies[k].dst].status.Waiting?
    ensures DeliveredIsDone(AfterDeliver(s, k))
  {
    OwnReply(s, k);
  }

  lemma StaysDone(s: State, t: State)
    requires DeliveredIsDone(s) && t.delivered == s.delivered && |t.clients| == |s.clients|
    requires forall c :: 0 <= c < |s.clients| ==> |s.clients[c].got| <= |t.clients[c].got|
    ensures DeliveredIsDone(t)
  {
  }

  lemma ResultsStay(e: Env, s: State, a: Action)
    requires Enabled(e, s, a) && !a.Deliver?
    ensures var t := Apply(e, s, a);
            t.delivered == s.delivered && |t.clients| == |s.clients| &&
            forall c :: 0 <= c < |s.clients| ==> |s.clients[c].got| <= |t.clients[c].got|
  {
  }

  lemma StepDeliveredIsDone(e: Env, s: State, a: Action, t: State)
    requires Inv(s) && OneOutstanding(s) && DeliveredIsDone(s) && Enabled(e, s, a) && t == Apply(e, s, a)
    ensures DeliveredIsDone(t)
  {
    if a.Deliver? {
      DeliverIsDone(s, a.k);
    } else {
      ResultsStay(e, s, a);
      StaysDone(s, t);
    }
  }

  lemma NoneIsDone(s: State)
    requires s.delivered == []
    ensures DeliveredIsDone(s)
  {
  }

  lemma {:induction false} RunDeliveredIsDone(e: Env, states: seq<State>, actions: seq<Action>, n: nat)
    requires IsRun(e, states, actions) && n < |states| && Blocking(e)
    ensures DeliveredIsDone(states[n])
    decreases n
  {
    if n == 0 {
      NoneIsDone(states[0]);
    } else {
      RunDeliveredIsDone(e, states, actions, n - 1);
      RunDisciplined(e, states, actions, n - 1);
      StepDeliveredIsDone(e, states[n - 1], actions[n - 1], states[n]);
    }
  }

  /** Two items of one client are items of one request, and each request is in one place. */
  lemma OneCall(s: State, p: Packet, q: Packet)
    requires OfCurrentCall(s, p) && OfCurrentCall(s, q) && p.id.client == q.id.client
    ensures p.id == q.id
  {
  }

  lemma AllDistinct(s: State)
    requires Ledger(s)
    ensures var all := s.requests + s.held + s.replies;
            forall i, j :: 0 <= i < j < |all| ==> all[i].id != all[j].id
  {
    LedgerDistinct(s);
  }

  lemma CallsOfAll(s: State, c: nat)
    ensures |CallsOf(s.requests + s.held + s.replies, c)| ==
            |CallsOf(s.requests, c)| + |CallsOf(s.held, c)| + |CallsOf(s.replies, c)|
  {
    PickConcat(s.requests + s.held, s.replies, CallOf(c));
    PickConcat(s.requests, s.held, CallOf(c));
  }

  lemma AllCurrent(s: State, p: Packet)
    requires OneOutstanding(s) && p in s.requests + s.held + s.replies
    ensures OfCurrentCall(s, p)
  {
  }

  lemma OneItem(s: State, c: nat)
    requires Ledger(s) && OneOutstanding(s)
    ensures |CallsOf(s.requests + s.held + s.replies, c)| <= 1
  {
    var all := s.requests + s.held + s.replies;
    AllDistinct(s);
    if |Pick(all, CallOf(c))| >= 2 {
      PickTwo(all, CallOf(c));
      var i, j :| 0 <= i < j < |all| && CallOf(c)(all[i]).Some? && CallOf(c)(all[j]).Some?;
      AllCurrent(s, all[i]);
      AllCurrent(s, all[j]);
      OneCall(s, all[i], all[j]);
    }
  }

  /** In every reachable state each client has at most one item, wherever it is: in a server's queue, in
      a server's hand or in the client's inbox. */
  lemma AtMostOneItem(e: Env, states: seq<State>, actions: seq<Action>, n: nat, c: nat)
    requires IsRun(e, states, actions) && n < |states| && Blocking(e)
    ensures var s := states[n];
            |CallsOf(s.requests, c)| + |CallsOf(s.held, c)| + |CallsOf(s.replies, c)| <= 1
  {
    RunDisciplined(e, states, actions, n);
    OneItem(states[n], c);
    CallsOfAll(states[n], c);
  }

  /** Call `j` of client `c` returned what a callback of the server it asked, in force since it asked,
      made of that very request, cut or padded to each receiver's size. In the state in which the call
      returned, only callbacks registered by then qualify. */
  ghost predicate GotOwnAnswer(s: State, c: nat, j: nat)
    requires c < |s.clients| && j < |s.clients[c].asked|
    requires j < |s.clients[c].got| && s.clients[c].got[j].Returned?
  {
    var a := s.clients[c].asked[j];
    a.addr < |s.servers| && Answers(a, s.servers[a.addr], s.clients[c].size, s.clients[c].got[j].msg)
  }

  /** With blocking sockets, or with Unix sockets and any timeouts, every completed call of every client
      returned its own answer, whatever was lost and in whatever order datagrams arrived. */
  lemma OwnAnswer(e: Env, states: seq<State>, actions: seq<Action>, n: nat, c: nat, j: nat)
    requires IsRun(e, states, actions) && n < |states| && Blocking(e)
    requires c < |states[n].clients| && j < |states[n].clients[c].got| && states[n].clients[c].got[j].Returned?
    ensures j < |states[n].clients[c].asked| && GotOwnAnswer(states[n], c, j)
  {
    RunDisciplined(e, states, actions, n);
    var s := states[n];
    assert ClientOk(s, c);
    assert OutcomeOk(s, c, j, s.clients[c].got[j]);
  }

  /** A request records the callback in force at its server: none that was replaced before the run. */
  lemma {:induction false} RunVersions(e: Env, states: seq<State>, actions: seq<Action>, n: nat, c: nat, j: nat)
    requires IsRun(e, states, actions) && n < |states|
    requires c < |states[n].clients| && j < |states[n].clients[c].asked|
    requires states[n].clients[c].asked[j].addr < |states[n].servers|
    ensures |states[0].servers| == |states[n].servers|
    ensures var a := states[n].clients[c].asked[j];
            states[0].servers[a.addr].cbs <= states[n].servers[a.addr].cbs &&
            |states[0].servers[a.addr].cbs| <= a.version + 1
    decreases n
  {
    if n > 0 {
      var s, act := states[n - 1], actions[n - 1];
      var addr := states[n].clients[c].asked[j].addr;
      StepGrows(e, s, act);
      CallbacksGrow(e, states, actions, n - 1);
      if j < |s.clients[c].asked| {
        RunVersions(e, states, actions, n - 1, c, j);
      }
    }
  }

  lemma {:induction false} CallbacksGrow(e: Env, states: seq<State>, actions: seq<Action>, n: nat)
    requires IsRun(e, states, actions) && n < |states|
    ensures |states[n].servers| == |states[0].servers|
    ensures forall i :: 0 <= i < |states[0].servers| ==>
                          states[0].servers[i].cbs != [] && states[0].servers[i].cbs <= states[n].servers[i].cbs
    decreases n
  {
    if n > 0 {
      CallbacksGrow(e, states, actions, n - 1);
      StepGrows(e, states[n - 1], actions[n - 1]);
    }
  }

  /** If no other callback was registered at that server, a completed call returned exactly its callback
      applied to the request, each hop cut or padded. */
  lemma OwnAnswerOf(e: Env, states: seq<State>, actions: seq<Action>, n: nat, c: nat, j: nat, cb: Callback)
    requires IsRun(e, states, actions) && n < |states| && Blocking(e)
    requires c < |states[n].clients| && j < |states[n].clients[c].got| && states[n].clients[c].got[j].Returned?
    requires j < |states[n].clients[c].asked|
    requires var s := states[n];
             var addr := s.clients[c].asked[j].addr;
             addr < |s.servers| && addr < |states[0].servers| ==>
               s.servers[addr].cbs == states[0].servers[addr].cbs && s.servers[addr].cbs != [] &&
               s.servers[addr].cbs[|s.servers[addr].cbs| - 1] == cb
    ensures var cl := states[n].clients[c];
            cl.asked[j].addr < |states[n].servers| &&
            var srv := states[n].servers[cl.asked[j].addr];
            Fit(cl.asked[j].msg, srv.size) != [] &&
            cl.got[j].msg == Fit(cb(Fit(cl.asked[j].msg, srv.size)), cl.size)
  {
    OwnAnswer(e, states, actions, n, c, j);
    RunVersions(e, states, actions, n, c, j);
  }

  /** The socket of `c` is closed, and of its results those from `m` on are exceptions. */
  ghost predicate ClosedSince(s: State, c: nat, m: nat) {
    c < |s.clients| && s.clients[c].status.Closed? && m <= |s.clients[c].got| &&
    forall j :: m <= j < |s.clients[c].got| ==> s.clients[c].got[j].Threw?
  }

  lemma StepClosedSince(e: Env, s: State, a: Action, t: State, c: nat, m: nat)
    requires ClosedSince(s, c, m) && Enabled(e, s, a) && t == Apply(e, s, a)
    ensures ClosedSince(t, c, m)
  {
    match a {
      case Send(x, msg, addr, accepted) => assert ClosedSince(AfterSend(s, x, msg, addr, accepted), c, m);
      case Deliver(k) => assert ClosedSince(AfterDeliver(s, k), c, m);
      case Expire(x) => assert ClosedSince(AfterExpire(e, s, x), c, m);
      case _ => assert t.clients == s.clients;
    }
  }

  lemma {:induction false} RunClosedSince(e: Env, states: seq<State>, actions: seq<Action>, m: nat, n: nat,
                                          c: nat, got: nat)
    requires IsRun(e, states, actions) && m <= n < |states| && ClosedSince(states[m], c, got)
    ensures ClosedSince(states[n], c, got)
    decreases n - m
  {
    if m < n {
      RunClosedSince(e, states, actions, m, n - 1, c, got);
      StepClosedSince(e, states[n - 1], actions[n - 1], states[n], c, got);
    }
  }

  /** A closed socket stays closed, and every call on it throws. */
  lemma ClosedIsFinal(e: Env, states: seq<State>, actions: seq<Action>, m: nat, n: nat, c: nat)
    requires IsRun(e, states, actions) && m <= n < |states|
    requires c < |states[m].clients| && states[m].clients[c].status.Closed?
    ensures ClosedSince(states[n], c, |states[m].clients[c].got|)
  {
    RunClosedSince(e, states, actions, m, n, c, |states[m].clients[c].got|);
  }

  // ---- exactly when it holds ----

  /** No non-empty message is ever returned to a call other than the one it answers. */
  ghost predicate NoStaleAnswer(s: State) {
    forall c, j ::
      0 <= c < |s.clients| && 0 <= j < |s.clients[c].got| && j < |s.clients[c].asked| ==>
        s.clients[c].got[j].Returned? && s.clients[c].got[j].msg != [] ==> GotOwnAnswer(s, c, j)
  }

  ghost predicate NeverStale(e: Env, s0: State) {
    forall states: seq<State>, actions: seq<Action>, n: nat ::
      IsRun(e, states, actions) && states[0] == s0 && n < |states| ==> NoStaleAnswer(states[n])
  }

  /** Nothing but empty messages can be exchanged: all servers, or all clients, have no buffer. */
  ghost predicate Mute(s: State) {
    (forall i :: 0 <= i < |s.servers| ==> s.servers[i].size == 0) ||
    (forall c :: 0 <= c < |s.clients| ==> s.clients[c].size == 0)
  }

  function Echo(m: Message): Message { m }

  /** A UDP call times out, and the client makes another one. */
  lemma FirstCallExpires(e: Env, s0: State, c: nat, i: nat) returns (states: seq<State>, actions: seq<Action>)
    requires Init(s0) && e.transport.Udp? && e.timeouts
    requires c < |s0.clients| && i < |s0.servers|
    ensures |states| == 5 && IsRun(e, states, actions) && states[0] == s0
    ensures |states[4].clients| == |s0.clients| && |states[4].servers| == |s0.servers|
    ensures var s := states[4];
            var cl := s.clients[c];
            cl.size == s0.clients[c].size && cl.status.Waiting? && cl.got == [Returned([], None)] &&
            s.servers[i].size == s0.servers[i].size && s.servers[i].cbs == s0.servers[i].cbs + [Echo] &&
            cl.asked == [Ask([1], i, |s0.servers[i].cbs|), Ask([2], i, |s0.servers[i].cbs|)] &&
            s.requests == [Packet(c, i, [1], Id(c, 0)), Packet(c, i, [2], Id(c, 1))] &&
            s.held == s.replies == []
  {
    var s1 := AfterRegister(s0, i, Echo);
    var s2 := AfterSend(s1, c, [1], i, true);
    var s3 := AfterExpire(e, s2, c);
    var s4 := AfterSend(s3, c, [2], i, true);
    states := [s0, s1, s2, s3, s4];
    actions := [Register(i, Echo), Send(c, [1], i, true), Expire(c), Send(c, [2], i, true)];
  }

  /** Its second call gets the reply to the first. */
  lemma SecondCallReturns(e: Env, s4: State, c: nat, i: nat, v: nat) returns (s5: State, s6: State, s7: State)
    requires c < |s4.clients| && s4.clients[c].size > 0 && s4.clients[c].status.Waiting?
    requires i < |s4.servers| && s4.servers[i].size > 0
    requires v + 1 == |s4.servers[i].cbs| && s4.servers[i].cbs[v] == Echo
    requires s4.clients[c].got == [Returned([], None)]
    requires s4.clients[c].asked == [Ask([1], i, v), Ask([2], i, v)]
    requires s4.requests == [Packet(c, i, [1], Id(c, 0)), Packet(c, i, [2], Id(c, 1))] && s4.held == s4.replies == []
    ensures Enabled(e, s4, ServeRecv(0)) && s5 == Apply(e, s4, ServeRecv(0))
    ensures Enabled(e, s5, ServeSend(0, true)) && s6 == Apply(e, s5, ServeSend(0, true))
    ensures Enabled(e, s6, Deliver(0)) && s7 == Apply(e, s6, Deliver(0))
    ensures s7.servers == s4.servers && c < |s7.clients| && s7.clients[c].size == s4.clients[c].size
    ensures s7.clients[c].asked == s4.clients[c].asked
    ensures s7.clients[c].got ==
            [Returned([], None), Returned(Fit(Fit([1], s4.servers[i].size), s4.clients[c].size), Some(Id(c, 0)))]
  {
    var srv := s4.servers[i];
    FitShape([1], srv.size);
    s5 := AfterServeRecv(s4, 0);
    assert s5.held == [Packet(i, c, Fit([1], srv.size), Id(c, 0))];
    s6 := AfterServeSend(s5, 0, true);
    assert s6.replies == [Packet(i, c, Fit([1], srv.size), Id(c, 0))];
    s7 := AfterDeliver(s6, 0);
  }

  lemma NotTheAnswer(a: Ask, srv: Server, size: nat, m: Message)
    requires |srv.cbs| == a.version + 1 && srv.cbs[a.version] == Echo
    requires Fit(a.msg, srv.size) == [] || m != Fit(Fit(a.msg, srv.size), size)
    ensures !Answers(a, srv, size, m)
  {
  }

  /** An echo of 1 is not an answer to 2. */
  lemma EchoIsStale(s: State, c: nat, i: nat, v: nat)
    requires c < |s.clients| && s.clients[c].size > 0 && i < |s.servers| && s.servers[i].size > 0
    requires v + 1 == |s.servers[i].cbs| && s.servers[i].cbs[v] == Echo
    requires s.clients[c].asked == [Ask([1], i, v), Ask([2], i, v)]
    requires |s.clients[c].got| == 2 && s.clients[c].got[1].Returned?
    requires s.clients[c].got[1].msg == Fit(Fit([1], s.servers[i].size), s.clients[c].size)
    ensures !NoStaleAnswer(s)
  {
    var srv, size := s.servers[i], s.clients[c].size;
    FitShape([1], srv.size);
    FitShape([2], srv.size);
    FitShape(Fit([1], srv.size), size);
    FitShape(Fit([2], srv.size), size);
    assert Fit(Fit([1], srv.size), size)[0] == 1 && Fit(Fit([2], srv.size), size)[0] == 2;
    NotTheAnswer(Ask([2], i, v), srv, size, s.clients[c].got[1].msg);
    assert !GotOwnAnswer(s, c, 1);
  }

  lemma ExtendRun(e: Env, states: seq<State>, actions: seq<Action>, a: Action, s: State)
    returns (states': seq<State>, actions': seq<Action>)
    requires IsRun(e, states, actions)
    requires Enabled(e, states[|states| - 1], a) && s == Apply(e, states[|states| - 1], a)
    ensures IsRun(e, states', actions')
    ensures |states'| == |states| + 1 && states'[0] == states[0] && states'[|states|] == s
  {
    states', actions' := states + [s], actions + [a];
  }

  lemma ExtendThrice(e: Env, states: seq<State>, actions: seq<Action>,
                     a: Action, s: State, b: Action, t: State, c: Action, u: State)
    returns (states': seq<State>, actions': seq<Action>)
    requires IsRun(e, states, actions)
    requires Enabled(e, states[|states| - 1], a) && s == Apply(e, states[|states| - 1], a)
    requires Enabled(e, s, b) && t == Apply(e, s, b) && Enabled(e, t, c) && u == Apply(e, t, c)
    ensures IsRun(e, states', actions')
    ensures |states'| == |states| + 3 && states'[0] == states[0] && states'[|states| + 2] == u
  {
    states', actions' := ExtendRun(e, states, actions, a, s);
    states', actions' := ExtendRun(e, states', actions', b, t);
    states', actions' := ExtendRun(e, states', actions', c, u);
  }

  lemma StaleRun(e: Env, s0: State, states: seq<State>, actions: seq<Action>, n: nat)
    requires IsRun(e, states, actions) && states[0] == s0 && n < |states| && !NoStaleAnswer(states[n])
    ensures !NeverStale(e, s0)
  {
  }

  lemma SecondCallIsStale(e: Env, s4: State, c: nat, i: nat, v: nat) returns (s5: State, s6: State, s7: State)
    requires c < |s4.clients| && s4.clients[c].size > 0 && s4.clients[c].status.Waiting?
    requires i < |s4.servers| && s4.servers[i].size > 0
    requires v + 1 == |s4.servers[i].cbs| && s4.servers[i].cbs[v] == Echo
    requires s4.clients[c].got == [Returned([], None)]
    requires s4.clients[c].asked == [Ask([1], i, v), Ask([2], i, v)]
    requires s4.requests == [Packet(c, i, [1], Id(c, 0)), Packet(c, i, [2], Id(c, 1))] && s4.held == s4.replies == []
    ensures Enabled(e, s4, ServeRecv(0)) && s5 == Apply(e, s4, ServeRecv(0))
    ensures Enabled(e, s5, ServeSend(0, true)) && s6 == Apply(e, s5, ServeSend(0, true))
    ensures Enabled(e, s6, Deliver(0)) && s7 == Apply(e, s6, Deliver(0))
    ensures !NoStaleAnswer(s7)
  {
    s5, s6, s7 := SecondCallReturns(e, s4, c, i, v);
    EchoIsStale(s7, c, i, v);
  }

  lemma StaleTrace(e: Env, s0: State, c: nat, i: nat) returns (states: seq<State>, actions: seq<Action>)
    requires Init(s0) && e.transport.Udp? && e.timeouts
    requires c < |s0.clients| && s0.clients[c].size > 0 && i < |s0.servers| && s0.servers[i].size > 0
    ensures IsRun(e, states, actions) && states[0] == s0 && |states| == 8 && !NoStaleAnswer(states[7])
  {
    states, actions := FirstCallExpires(e, s0, c, i);
    var s5, s6, s7 := SecondCallIsStale(e, states[4], c, i, |s0.servers[i].cbs|);
    states, actions := ExtendThrice(e, states, actions, ServeRecv(0), s5, ServeSend(0, true), s6, Deliver(0), s7);
  }

  /** On UDP a timeout is enough: from any start with a client and a server that can exchange anything,
      some run hands a caller the answer to its previous request. */
  lemma UdpTimeoutsGoStale(e: Env, s0: State)
    requires Init(s0) && !Blocking(e) && !Mute(s0)
    ensures !NeverStale(e, s0)
  {
    var i :| 0 <= i < |s0.servers| && s0.servers[i].size > 0;
    var c :| 0 <= c < |s0.clients| && s0.clients[c].size > 0;
    var states, actions := StaleTrace(e, s0, c, i);
    StaleRun(e, s0, states, actions, 7);
  }

  lemma {:induction false} RunKeepsSizes(e: Env, states: seq<State>, actions: seq<Action>, n: nat)
    requires IsRun(e, states, actions) && n < |states| && Mute(states[0])
    ensures Mute(states[n])
    decreases n
  {
    if n > 0 {
      RunKeepsSizes(e, states, actions, n - 1);
      StepGrows(e, states[n - 1], actions[n - 1]);
    }
  }

  lemma MuteIsSafe(e: Env, states: seq<State>, actions: seq<Action>, n: nat)
    requires IsRun(e, states, actions) && n < |states| && Mute(states[0])
    ensures NoStaleAnswer(states[n])
  {
    RunInv(e, states, actions, n);
    RunKeepsSizes(e, states, actions, n);
    var s := states[n];
    forall c, j | 0 <= c < |s.clients| && 0 <= j < |s.clients[c].got| && s.clients[c].got[j].Returned?
      ensures s.clients[c].got[j].msg == []
    {
      assert ClientOk(s, c) && OutcomeOk(s, c, j, s.clients[c].got[j]);
    }
  }

  /** No call ever returns another call's answer exactly when calls cannot outlive their timeout (no
      timeouts, or a socket that closes on one) or nothing can be exchanged at all. */
  lemma NeverStaleExactlyWhen(e: Env, s0: State)
    requires Init(s0)
    ensures NeverStale(e, s0) <==> Blocking(e) || Mute(s0)
  {
    if Blocking(e) || Mute(s0) {
      forall states: seq<State>, actions: seq<Action>, n: nat |
        IsRun(e, states, actions) && states[0] == s0 && n < |states|
        ensures NoStaleAnswer(states[n])
      {
        if Mute(s0) {
          MuteIsSafe(e, states, actions, n);
        } else {
          forall c, j | 0 <= c < |states[n].clients| && 0 <= j < |states[n].clients[c].got| &&
                        states[n].clients[c].got[j].Returned?
            ensures j < |states[n].clients[c].asked| && GotOwnAnswer(states[n], c, j)
          {
            OwnAnswer(e, states, actions, n, c, j);
          }
        }
      }
    } else {
      UdpTimeoutsGoStale(e, s0);
    }
  }
}
