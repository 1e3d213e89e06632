/** What the actions of a run determine: which callback is in force, and so what every answer is. */
module CallHistory {
  import opened Wire
  import opened Queues
  import opened Calls
  import opened CallLedger
  import opened CallSafety

  /** The callback in force at server `i` after the first `n` actions: that of its last registration, or the one
      it had at the start. */
  function InForce(start: Callback, actions: seq<Action>, n: nat, i: nat): Callback
    requires n <= |actions|
  {
    if n == 0 then start
    else
      match actions[n - 1]
      case Register(j, f) => if j == i then f else InForce(start, actions, n - 1, i)
      case _ => InForce(start, actions, n - 1, i)
  }

  /** A registration is in force until the next one at the same server. */
  lemma {:induction false} LastRegistration(start: Callback, actions: seq<Action>, m: nat, n: nat, i: nat, f: Callback)
    requires m < n <= |actions| && actions[m] == Register(i, f)
    requires forall j :: m < j < n ==> !(actions[j].Register? && actions[j].s == i)
    ensures InForce(start, actions, n, i) == f
    decreases n
  {
    if m < n - 1 {
      LastRegistration(start, actions, m, n - 1, i, f);
    }
  }

  lemma {:induction false} NoRegistration(start: Callback, actions: seq<Action>, n: nat, i: nat)
    requires n <= |actions| && forall j :: 0 <= j < n ==> !(actions[j].Register? && actions[j].s == i)
    ensures InForce(start, actions, n, i) == start
    decreases n
  {
    if n > 0 {
      NoRegistration(start, actions, n - 1, i);
    }
  }

  function Last(cbs: seq<Callback>): Callback
    requires cbs != []
  {
    cbs[|cbs| - 1]
  }

  /** The server's first callback in force. */
  function Start(s0: State, i: nat): Callback
    requires i < |s0.servers| && s0.servers[i].cbs != []
  {
    Last(s0.servers[i].cbs)
  }

  lemma StepLast(e: Env, s: State, a: Action, t: State, i: nat)
    requires Enabled(e, s, a) && t == Apply(e, s, a) && i < |s.servers| && s.servers[i].cbs != []
    ensures i < |t.servers| && t.servers[i].cbs != [] && t.servers[i].size == s.servers[i].size
    ensures Last(t.servers[i].cbs) == if a.Register? && a.s == i then a.f else Last(s.servers[i].cbs)
  {
  }

  lemma {:induction false} RunLast(e: Env, states: seq<State>, actions: seq<Action>, n: nat, i: nat)
    requires IsRun(e, states, actions) && n < |states| && i < |states[0].servers|
    ensures i < |states[n].servers| && states[n].servers[i].cbs != []
    ensures states[n].servers[i].size == states[0].servers[i].size
    ensures Last(states[n].servers[i].cbs) == InForce(Start(states[0], i), actions, n, i)
    decreases n
  {
    if n > 0 {
      RunLast(e, states, actions, n - 1, i);
      StepLast(e, states[n - 1], actions[n - 1], states[n], i);
    }
  }

  // ---- the receives of a server ----

  /** A `once` of server `i` receives, or times out. */
  predicate ReceivesAt(s: State, a: Action, i: nat) {
    (a.ServeRecv? && a.k < |s.requests| && s.requests[a.k].dst == i) || (a.ServeExpire? && a.s == i)
  }

  /** The callback in force at each receive of server `i`, in order. */
  function CallbacksUsed(states: seq<State>, actions: seq<Action>, n: nat, i: nat): seq<Callback>
    requires n <= |actions| && |states| == |actions| + 1
    requires i < |states[0].servers| && states[0].servers[i].cbs != []
  {
    if n == 0 then []
    else
      CallbacksUsed(states, actions, n - 1, i) +
      if ReceivesAt(states[n - 1], actions[n - 1], i) then [InForce(Start(states[0], i), actions, n - 1, i)] else []
  }

  // ---- every answer ----

  /** Action `r` received the request `id`, and `d` is what the callback in force then made of it. */
  ghost predicate MadeAt(states: seq<State>, actions: seq<Action>, r: nat, id: Id, d: Message) {
    r < |actions| && |states| == |actions| + 1 && actions[r].ServeRecv? && actions[r].k < |states[r].requests| &&
    var p := states[r].requests[actions[r].k];
    p.id == id && p.dst < |states[0].servers| && states[0].servers[p.dst].cbs != [] &&
    Handle(InForce(Start(states[0], p.dst), actions, r, p.dst), p.data, states[0].servers[p.dst].size) == Some(d)
  }

  ghost predicate MadeBefore(states: seq<State>, actions: seq<Action>, n: nat, id: Id, d: Message) {
    exists r: nat :: r < n && MadeAt(states, actions, r, id, d)
  }

  /** The result of a call is what its client keeps of an answer made before. */
  ghost predicate ResultMade(states: seq<State>, actions: seq<Action>, n: nat, size: nat, o: Outcome) {
    o.Returned? && o.source.Some? ==>
      exists d :: MadeBefore(states, actions, n, o.source.value, d) && o.msg == Fit(d, size)
  }

  ghost predicate AllMade(states: seq<State>, actions: seq<Action>, n: nat, s: State) {
    (forall p :: p in s.held ==> MadeBefore(states, actions, n, p.id, p.data)) &&
    (forall p :: p in s.replies ==> MadeBefore(states, actions, n, p.id, p.data)) &&
    (forall c :: 0 <= c < |s.clients| ==>
      forall o :: o in s.clients[c].got ==> ResultMade(states, actions, n, s.clients[c].size, o))
  }

  lemma Later(states: seq<State>, actions: seq<Action>, n: nat, id: Id, d: Message)
    requires MadeBefore(states, actions, n, id, d)
    ensures MadeBefore(states, actions, n + 1, id, d)
  {
    var r: nat :| r < n && MadeAt(states, actions, r, id, d);
  }

  lemma ResultLater(states: seq<State>, actions: seq<Action>, n: nat, size: nat, o: Outcome)
    requires ResultMade(states, actions, n, size, o)
    ensures ResultMade(states, actions, n + 1, size, o)
  {
    if o.Returned? && o.source.Some? {
      var d :| MadeBefore(states, actions, n, o.source.value, d) && o.msg == Fit(d, size);
      Later(states, actions, n, o.source.value, d);
    }
  }

  lemma NewHeld(s: State, k: nat, p: Packet)
    requires k < |s.requests| && s.requests[k].dst < |s.servers| && s.servers[s.requests[k].dst].cbs != []
    requires p in AfterServeRecv(s, k).held && p !in s.held
    ensures var q := s.requests[k];
            p.id == q.id && Handle(Last(s.servers[q.dst].cbs), q.data, s.servers[q.dst].size) == Some(p.data)
  {
  }

  lemma StepHeldMade(e: Env, states: seq<State>, actions: seq<Action>, n: nat, p: Packet)
    requires IsRun(e, states, actions) && n < |actions| && AllMade(states, actions, n, states[n])
    requires Enabled(e, states[n], actions[n]) && p in Apply(e, states[n], actions[n]).held
    ensures MadeBefore(states, actions, n + 1, p.id, p.data)
  {
    var s, a := states[n], actions[n];
    if p in s.held {
      Later(states, actions, n, p.id, p.data);
    } else {
      NotHeldBefore(e, s, a, p);
      ServedNow(e, states, actions, n, p);
    }
  }

  lemma NotHeldBefore(e: Env, s: State, a: Action, p: Packet)
    requires Enabled(e, s, a) && p in Apply(e, s, a).held && p !in s.held
    ensures a.ServeRecv?
  {
    if !a.ServeRecv? {
      HeldComesFrom(e, s, a);
    }
  }

  lemma ServedNow(e: Env, states: seq<State>, actions: seq<Action>, n: nat, p: Packet)
    requires IsRun(e, states, actions) && n < |actions| && actions[n].ServeRecv? && Enabled(e, states[n], actions[n])
    requires p in AfterServeRecv(states[n], actions[n].k).held && p !in states[n].held
    ensures MadeBefore(states, actions, n + 1, p.id, p.data)
  {
    var q := states[n].requests[actions[n].k];
    SameServers(e, states, actions, n);
    RunLast(e, states, actions, n, q.dst);
    NewHeld(states[n], actions[n].k, p);
    assert MadeAt(states, actions, n, p.id, p.data);
  }

  lemma SameServers(e: Env, states: seq<State>, actions: seq<Action>, n: nat)
    requires IsRun(e, states, actions) && n < |states|
    ensures |states[n].servers| == |states[0].servers|
  {
    CallbacksGrow(e, states, actions, n);
  }

  lemma StepReplyMade(e: Env, states: seq<State>, actions: seq<Action>, n: nat, p: Packet)
    requires n < |actions| && n < |states| && AllMade(states, actions, n, states[n])
    requires Enabled(e, states[n], actions[n]) && p in Apply(e, states[n], actions[n]).replies
    ensures MadeBefore(states, actions, n + 1, p.id, p.data)
  {
    RepliesComeFrom(e, states[n], actions[n]);
    Later(states, actions, n, p.id, p.data);
  }

  /** A new result is an exception, comes from nothing, or is a delivered reply. */
  lemma NewGot(e: Env, s: State, a: Action, t: State, c: nat, o: Outcome)
    requires Enabled(e, s, a) && t == Apply(e, s, a) && c < |s.clients|
    requires c < |t.clients| && o in t.clients[c].got && o !in s.clients[c].got
    ensures o.Returned? && o.source.Some? ==>
              a.Deliver? && o == Returned(Fit(s.replies[a.k].data, s.clients[c].size), Some(s.replies[a.k].id))
  {
  }

  lemma StepResultMade(e: Env, states: seq<State>, actions: seq<Action>, n: nat, t: State, c: nat, o: Outcome)
    requires n < |actions| && n < |states| && AllMade(states, actions, n, states[n])
    requires Enabled(e, states[n], actions[n]) && t == Apply(e, states[n], actions[n]) && c < |states[n].clients|
    requires c < |t.clients| && o in t.clients[c].got
    ensures ResultMade(states, actions, n + 1, states[n].clients[c].size, o)
  {
    var s, a := states[n], actions[n];
    if o in s.clients[c].got {
      ResultLater(states, actions, n, s.clients[c].size, o);
    } else if o.Returned? && o.source.Some? {
      NewGot(e, s, a, t, c, o);
      assert s.replies[a.k] in s.replies;
      Later(states, actions, n, s.replies[a.k].id, s.replies[a.k].data);
    }
  }

  lemma {:induction false} RunMade(e: Env, states: seq<State>, actions: seq<Action>, n: nat)
    requires IsRun(e, states, actions) && n < |states|
    ensures AllMade(states, actions, n, states[n])
    decreases n
  {
    if n > 0 {
      var m := n - 1;
      RunMade(e, states, actions, m);
      StepGrows(e, states[m], actions[m]);
      forall p | p in states[n].held ensures MadeBefore(states, actions, n, p.id, p.data) {
        StepHeldMade(e, states, actions, m, p);
      }
      forall p | p in states[n].replies ensures MadeBefore(states, actions, n, p.id, p.data) {
        StepReplyMade(e, states, actions, m, p);
      }
      forall c, o | 0 <= c < |states[n].clients| && o in states[n].clients[c].got
        ensures ResultMade(states, actions, n, states[n].clients[c].size, o)
      {
        StepResultMade(e, states, actions, m, states[n], c, o);
      }
    }
  }

  lemma {:induction false} AskedStays(e: Env, states: seq<State>, actions: seq<Action>, m: nat, n: nat, c: nat)
    requires IsRun(e, states, actions) && m <= n < |states| && c < |states[m].clients|
    ensures c < |states[n].clients| && states[m].clients[c].asked <= states[n].clients[c].asked
    decreases n
  {
    if m < n {
      AskedStays(e, states, actions, m, n - 1, c);
      StepGrows(e, states[n - 1], actions[n - 1]);
    }
  }

  /** On any network: a result that consumed a reply is what the callback in force at its server, when the server
      received that very request, made of it, each hop cut or padded. With blocking sockets, or Unix sockets and
      any timeouts, that request is the call's own. */
  lemma EveryAnswer(e: Env, states: seq<State>, actions: seq<Action>, n: nat, c: nat, j: nat)
    returns (r: nat, d: Message)
    requires IsRun(e, states, actions) && n < |states| && c < |states[n].clients|
    requires var got := states[n].clients[c].got; j < |got| && got[j].Returned? && got[j].source.Some?
    ensures r < n && actions[r].ServeRecv? && actions[r].k < |states[r].requests|
    ensures var cl := states[n].clients[c];
            var id := cl.got[j].source.value;
            states[r].requests[actions[r].k].id == id &&
            id.client == c && id.call <= j && id.call < |cl.asked| && (Blocking(e) ==> id.call == j) &&
            var a := cl.asked[id.call];
            a.addr < |states[0].servers| && states[0].servers[a.addr].cbs != [] &&
            Handle(InForce(Start(states[0], a.addr), actions, r, a.addr), a.msg, states[0].servers[a.addr].size) ==
            Some(d) && cl.got[j].msg == Fit(d, cl.size)
  {
    var cl := states[n].clients[c];
    var o := cl.got[j];
    RunMade(e, states, actions, n);
    assert o in cl.got && ResultMade(states, actions, n, cl.size, o);
    d :| MadeBefore(states, actions, n, o.source.value, d) && o.msg == Fit(d, cl.size);
    r :| r < n && MadeAt(states, actions, r, o.source.value, d);
    SourceIsOwn(e, states, actions, n, c, j);
    RequestIsAsked(e, states, actions, r, n, actions[r].k);
  }

  lemma SourceIsOwn(e: Env, states: seq<State>, actions: seq<Action>, n: nat, c: nat, j: nat)
    requires IsRun(e, states, actions) && n < |states| && c < |states[n].clients|
    requires var got := states[n].clients[c].got; j < |got| && got[j].Returned? && got[j].source.Some?
    ensures var id := states[n].clients[c].got[j].source.value;
            id.client == c && id.call <= j && id.call < |states[n].clients[c].asked| && (Blocking(e) ==> id.call == j)
  {
    RunInv(e, states, actions, n);
    assert ClientOk(states[n], c) && OutcomeOk(states[n], c, j, states[n].clients[c].got[j]);
    if Blocking(e) {
      RunDisciplined(e, states, actions, n);
    }
  }

  lemma RequestIsAsked(e: Env, states: seq<State>, actions: seq<Action>, r: nat, n: nat, k: nat)
    requires IsRun(e, states, actions) && r <= n < |states| && k < |states[r].requests|
    ensures var p := states[r].requests[k];
            p.id.client < |states[n].clients| && p.id.call < |states[n].clients[p.id.client].asked| &&
            var a := states[n].clients[p.id.client].asked[p.id.call];
            p.data == a.msg && p.dst == a.addr
  {
    RunInv(e, states, actions, r);
    assert RequestOk(states[r], states[r].requests[k]);
    AskedStays(e, states, actions, r, n, states[r].requests[k].id.client);
  }
}
