/** What is left of own-answer safety when UDP calls time out. */
module CallOrder {
  import opened Wire
  import opened Queues
  import opened Calls
  import opened CallLedger

  /** The request whose reply a result consumed. */
  function SourceOf(o: Outcome): Option<nat> {
    if o.Returned? && o.source.Some? then Some(o.source.value.call) else None
  }

  function Sources(got: seq<Outcome>): seq<nat> {
    Pick(got, SourceOf)
  }

  ghost predicate Consumed(got: seq<Outcome>, j: nat, r: nat) {
    j < |got| && SourceOf(got[j]) == Some(r)
  }

  lemma SourcesDelivered(s: State, c: nat, r: nat)
    requires Inv(s) && c < |s.clients| && r in Sources(s.clients[c].got)
    ensures Id(c, r) in s.delivered
  {
    var j := PickFrom(s.clients[c].got, SourceOf, r);
    assert ClientOk(s, c) && OutcomeOk(s, c, j, s.clients[c].got[j]);
  }

  /** The request of client `c` whose reply a step delivers. */
  function Own(s: State, act: Action, c: nat): Option<nat> {
    if act.Deliver? && act.k < |s.replies| && s.replies[act.k].id.client == c then Some(s.replies[act.k].id.call)
    else None
  }

  /** At most one new result, which consumed request `own` or none. */
  ghost predicate NewResult(got: seq<Outcome>, got': seq<Outcome>, own: Option<nat>) {
    (got' == got && own == None) ||
    (|got'| == |got| + 1 && got' == got + [got'[|got|]] && SourceOf(got'[|got|]) == own)
  }

  lemma DeliverGot(s: State, k: nat, c: nat)
    requires Genuine(s) && k < |s.replies| && s.replies[k].dst < |s.clients| && c < |s.clients|
    ensures NewResult(s.clients[c].got, AfterDeliver(s, k).clients[c].got, Own(s, Deliver(k), c))
    ensures Own(s, Deliver(k), c).Some? ==> Own(s, Deliver(k), c).value < |s.clients[c].asked|
  {
    assert ReplyOk(s, s.replies[k]);
  }

  lemma ExpireGot(e: Env, s: State, x: nat, c: nat)
    requires x < |s.clients| && c < |s.clients|
    ensures NewResult(s.clients[c].got, AfterExpire(e, s, x).clients[c].got, None)
  {
  }

  lemma SendGot(s: State, x: nat, msg: Message, addr: nat, accepted: bool, c: nat)
    requires x < |s.clients| && c < |s.clients|
    ensures NewResult(s.clients[c].got, AfterSend(s, x, msg, addr, accepted).clients[c].got, None)
  {
  }

  lemma StepGot(e: Env, s: State, act: Action, t: State, c: nat)
    requires Inv(s) && Enabled(e, s, act) && t == Apply(e, s, act) && c < |s.clients|
    ensures c < |t.clients|
    ensures NewResult(s.clients[c].got, t.clients[c].got, Own(s, act, c))
    ensures Own(s, act, c).Some? ==> Own(s, act, c).value < |s.clients[c].asked|
  {
    match act {
      case Deliver(k) => DeliverGot(s, k, c);
      case Expire(x) => ExpireGot(e, s, x, c);
      case Send(x, msg, addr, accepted) => SendGot(s, x, msg, addr, accepted, c);
      case _ => OthersGot(e, s, act);
    }
  }

  lemma OthersGot(e: Env, s: State, act: Action)
    requires Enabled(e, s, act) && !act.Deliver? && !act.Expire? && !act.Send?
    ensures Apply(e, s, act).clients == s.clients
  {
  }

  /** At most one consumed reply: the one it delivers. */
  lemma StepSources(e: Env, s: State, act: Action, c: nat)
    requires Inv(s) && Enabled(e, s, act) && c < |s.clients|
    ensures var t := Apply(e, s, act);
            c < |t.clients| && Sources(t.clients[c].got) ==
              if Own(s, act, c).Some? then Sources(s.clients[c].got) + [Own(s, act, c).value]
              else Sources(s.clients[c].got)
  {
    StepGot(e, s, act, Apply(e, s, act), c);
    var got, got' := s.clients[c].got, Apply(e, s, act).clients[c].got;
    if got' != got {
      PickAppend(got, got'[|got|], SourceOf);
    }
  }

  // ---- any network: no reply is consumed twice ----

  ghost predicate NoRepeats(q: seq<nat>) {
    forall i, j :: 0 <= i < j < |q| ==> q[i] != q[j]
  }

  lemma NotYetConsumed(s: State, k: nat, c: nat)
    requires Inv(s) && k < |s.replies| && c < |s.clients| && s.replies[k].id.client == c
    ensures s.replies[k].id.call !in Sources(s.clients[c].got)
  {
    RepliesApart(s);
    if s.replies[k].id.call in Sources(s.clients[c].got) {
      SourcesDelivered(s, c, s.replies[k].id.call);
    }
  }

  lemma NoRepeatsAppend(q: seq<nat>, x: nat)
    requires NoRepeats(q) && x !in q
    ensures NoRepeats(q + [x])
  {
  }

  lemma StepNoRepeats(e: Env, s: State, a: Action, c: nat)
    requires Inv(s) && Enabled(e, s, a) && c < |s.clients| && NoRepeats(Sources(s.clients[c].got))
    ensures c < |Apply(e, s, a).clients| && NoRepeats(Sources(Apply(e, s, a).clients[c].got))
  {
    StepSources(e, s, a, c);
    if Own(s, a, c).Some? {
      NotYetConsumed(s, a.k, c);
      NoRepeatsAppend(Sources(s.clients[c].got), Own(s, a, c).value);
    }
  }

  lemma {:induction false} RunNoRepeats(e: Env, states: seq<State>, actions: seq<Action>, n: nat, c: nat)
    requires IsRun(e, states, actions) && n < |states| && c < |states[n].clients|
    ensures NoRepeats(Sources(states[n].clients[c].got))
    decreases n
  {
    if n > 0 {
      StepGrows(e, states[n - 1], actions[n - 1]);
      RunNoRepeats(e, states, actions, n - 1, c);
      RunInv(e, states, actions, n - 1);
      StepNoRepeats(e, states[n - 1], actions[n - 1], c);
    }
  }

  /** On any network, with any timeouts: a non-empty result answers one of the client's own requests, sent
      no later than the call that got it, and no other call got that answer. */
  lemma OwnRequestsOnce(e: Env, states: seq<State>, actions: seq<Action>, n: nat, c: nat, j: nat)
    requires IsRun(e, states, actions) && n < |states|
    requires var s := states[n];
             c < |s.clients| && j < |s.clients[c].got| && s.clients[c].got[j].Returned? && s.clients[c].got[j].msg != []
    ensures var s := states[n];
            var cl := s.clients[c];
            exists r: nat :: r <= j && r < |cl.asked| && Consumed(cl.got, j, r) && cl.asked[r].addr < |s.servers| &&
              Answers(cl.asked[r], s.servers[cl.asked[r].addr], cl.size, cl.got[j].msg) &&
              forall i: nat :: i != j ==> !Consumed(cl.got, i, r)
  {
    var s := states[n];
    var got := s.clients[c].got;
    RunInv(e, states, actions, n);
    RunNoRepeats(e, states, actions, n, c);
    assert ClientOk(s, c) && OutcomeOk(s, c, j, got[j]);
    var r := got[j].source.value.call;
    forall i: nat | i != j && Consumed(got, i, r) ensures false {
      var a, b := PickOrder(got, if i < j then i else j, if i < j then j else i, SourceOf);
    }
    assert Consumed(got, j, r);
  }

  // ---- an ordered network: answers come in the order of their requests ----

  ghost predicate Increasing(q: seq<nat>) {
    forall i, j :: 0 <= i < j < |q| ==> q[i] < q[j]
  }

  lemma IncreasingWithout(q: seq<nat>, x: nat, q': seq<nat>)
    requires Increasing(q + [x] + q')
    ensures Increasing(q + q')
  {
    var w := q + [x] + q';
    forall i, j | 0 <= i < j < |q + q'| ensures (q + q')[i] < (q + q')[j] {
      var i', j' := if i < |q| then i else i + 1, if j < |q| then j else j + 1;
      assert (q + q')[i] == w[i'] && (q + q')[j] == w[j'];
    }
  }

  /** The four stages of one client's calls, oldest first: results, inbox, the server's hand, its queue. */
  ghost predicate Chain(done: seq<nat>, inbox: seq<nat>, hand: seq<nat>, queue: seq<nat>) {
    Increasing(done + inbox + hand + queue)
  }

  lemma ChainServe(done: seq<nat>, inbox: seq<nat>, x: nat, queue: seq<nat>)
    requires Chain(done, inbox, [], [x] + queue)
    ensures Chain(done, inbox, [x], queue) && Chain(done, inbox, [], queue)
  {
    assert done + inbox + [] + ([x] + queue) == done + inbox + [x] + queue;
    IncreasingWithout(done + inbox, x, queue);
    assert done + inbox + [] + queue == done + inbox + queue;
  }

  lemma ChainReply(done: seq<nat>, inbox: seq<nat>, x: nat, queue: seq<nat>)
    requires Chain(done, inbox, [x], queue)
    ensures Chain(done, inbox + [x], [], queue) && Chain(done, inbox, [], queue)
  {
    assert done + (inbox + [x]) + [] + queue == done + inbox + [x] + queue;
    IncreasingWithout(done + inbox, x, queue);
    assert done + inbox + [] + queue == done + inbox + queue;
  }

  lemma ChainDeliver(done: seq<nat>, x: nat, inbox: seq<nat>, hand: seq<nat>, queue: seq<nat>)
    requires Chain(done, [x] + inbox, hand, queue)
    ensures Chain(done + [x], inbox, hand, queue)
  {
    assert done + [x] + inbox + hand + queue == done + ([x] + inbox) + hand + queue;
  }

  lemma ChainAsk(done: seq<nat>, inbox: seq<nat>, hand: seq<nat>, queue: seq<nat>, x: nat)
    requires Chain(done, inbox, hand, queue)
    requires forall r :: r in done || r in inbox || r in hand || r in queue ==> r < x
    ensures Chain(done, inbox, hand, queue + [x])
  {
    var w := done + inbox + hand + queue;
    assert done + inbox + hand + (queue + [x]) == w + [x];
    forall i | 0 <= i < |w| ensures w[i] < x {
      assert w[i] in w;
    }
  }

  lemma ChainLose(done: seq<nat>, inbox: seq<nat>, hand: seq<nat>, q: seq<nat>, x: nat, q': seq<nat>)
    requires Chain(done, inbox, hand, q + [x] + q')
    ensures Chain(done, inbox, hand, q + q')
  {
    assert done + inbox + hand + (q + [x] + q') == (done + inbox + hand + q) + [x] + q';
    IncreasingWithout(done + inbox + hand + q, x, q');
    assert done + inbox + hand + (q + q') == (done + inbox + hand + q) + q';
  }

  lemma ChainLoseReply(done: seq<nat>, q: seq<nat>, x: nat, q': seq<nat>, hand: seq<nat>, queue: seq<nat>)
    requires Chain(done, q + [x] + q', hand, queue)
    ensures Chain(done, q + q', hand, queue)
  {
    assert done + (q + [x] + q') + hand + queue == (done + q) + [x] + (q' + hand + queue);
    IncreasingWithout(done + q, x, q' + hand + queue);
    assert done + (q + q') + hand + queue == (done + q) + (q' + hand + queue);
  }

  /** The requests of client `c` to the server at `a`, among the replies consumed ... */
  function SourceFrom(asked: seq<Ask>, a: nat): Outcome -> Option<nat> {
    (o: Outcome) =>
      match SourceOf(o)
      case None => None
      case Some(r) => if r < |asked| && asked[r].addr == a then Some(r) else None
  }

  /** ... among requests under way ... */
  function Asking(c: nat, a: nat): Packet -> Option<nat> {
    (p: Packet) => if p.id.client == c && p.dst == a then Some(p.id.call) else None
  }

  /** ... and among replies, held or under way. */
  function Answering(c: nat, a: nat): Packet -> Option<nat> {
    (p: Packet) => if p.id.client == c && p.src == a then Some(p.id.call) else None
  }

  function Asked(q: seq<Packet>, c: nat, a: nat): seq<nat> {
    Pick(q, Asking(c, a))
  }

  function Replied(q: seq<Packet>, c: nat, a: nat): seq<nat> {
    Pick(q, Answering(c, a))
  }

  function Done(s: State, c: nat, a: nat): seq<nat>
    requires c < |s.clients|
  {
    Pick(s.clients[c].got, SourceFrom(s.clients[c].asked, a))
  }

  ghost predicate InLine(s: State, c: nat, a: nat)
    requires c < |s.clients|
  {
    Chain(Done(s, c, a), Replied(s.replies, c, a), Replied(s.held, c, a), Asked(s.requests, c, a))
  }

  /** A client's later requests do not change which servers its results came from. */
  lemma DoneSame(s: State, asked: seq<Ask>, c: nat, a: nat)
    requires Inv(s) && c < |s.clients| && s.clients[c].asked <= asked
    ensures Pick(s.clients[c].got, SourceFrom(asked, a)) == Done(s, c, a)
  {
    var got := s.clients[c].got;
    assert ClientOk(s, c);
    forall o | o in got ensures SourceFrom(asked, a)(o) == SourceFrom(s.clients[c].asked, a)(o) {
      var j :| 0 <= j < |got| && got[j] == o;
      assert OutcomeOk(s, c, j, got[j]);
    }
    PickSame(got, SourceFrom(asked, a), SourceFrom(s.clients[c].asked, a));
  }

  lemma AnsweringSource(s: State, k: nat, c: nat, a: nat)
    requires Inv(s) && k < |s.replies| && c < |s.clients|
    ensures Answering(c, a)(s.replies[k]).Some? <==>
            s.replies[k].id.client == c && s.replies[k].id.call < |s.clients[c].asked| &&
            s.clients[c].asked[s.replies[k].id.call].addr == a
  {
    assert ReplyOk(s, s.replies[k]);
  }

  lemma DoneAfter(s: State, t: State, c: nat, a: nat, own: Option<nat>)
    requires Inv(s) && c < |s.clients| && Grows(s, t) && NewResult(s.clients[c].got, t.clients[c].got, own)
    requires own.Some? ==> own.value < |s.clients[c].asked|
    ensures Done(t, c, a) == if own.Some? && s.clients[c].asked[own.value].addr == a then Done(s, c, a) + [own.value]
                             else Done(s, c, a)
  {
    var got, got', asked := s.clients[c].got, t.clients[c].got, t.clients[c].asked;
    DoneSame(s, asked, c, a);
    if got' != got {
      PickAppend(got, got'[|got|], SourceFrom(asked, a));
    }
  }

  /** The delivered reply joins the results from its server. */
  lemma StepDone(e: Env, s: State, act: Action, c: nat, a: nat)
    requires Inv(s) && Enabled(e, s, act) && c < |s.clients|
    ensures var t := Apply(e, s, act);
            c < |t.clients| && Done(t, c, a) ==
              if act.Deliver? && Answering(c, a)(s.replies[act.k]).Some?
              then Done(s, c, a) + [s.replies[act.k].id.call] else Done(s, c, a)
  {
    StepGot(e, s, act, Apply(e, s, act), c);
    StepGrows(e, s, act);
    if act.Deliver? {
      AnsweringSource(s, act.k, c, a);
    }
    DoneAfter(s, Apply(e, s, act), c, a, Own(s, act, c));
  }

  /** Requests to one server travel between the same two sockets, and so do its replies. */
  lemma FirstAsking(s: State, k: nat, c: nat, a: nat)
    requires Inv(s) && k < |s.requests| && First(s.requests, k, Ends) && Asking(c, a)(s.requests[k]).Some?
    ensures Asked(s.requests, c, a) == [s.requests[k].id.call] + Asked(Remove(s.requests, k), c, a)
  {
    forall i | 0 <= i < k ensures Asking(c, a)(s.requests[i]) == None {
      assert RequestOk(s, s.requests[i]) && RequestOk(s, s.requests[k]);
      assert Ends(s.requests[i]) != Ends(s.requests[k]);
    }
    PickFirst(s.requests, k, Asking(c, a));
  }

  lemma FirstAnswering(s: State, k: nat, c: nat, a: nat)
    requires Inv(s) && k < |s.replies| && First(s.replies, k, Ends) && Answering(c, a)(s.replies[k]).Some?
    ensures Replied(s.replies, c, a) == [s.replies[k].id.call] + Replied(Remove(s.replies, k), c, a)
  {
    forall i | 0 <= i < k ensures Answering(c, a)(s.replies[i]) == None {
      assert ReplyOk(s, s.replies[i]) && ReplyOk(s, s.replies[k]);
      assert Ends(s.replies[i]) != Ends(s.replies[k]);
    }
    PickFirst(s.replies, k, Answering(c, a));
  }

  lemma AskedIssued(s: State, c: nat, a: nat)
    requires Genuine(s) && c < |s.clients|
    ensures forall r: nat :: r in Asked(s.requests, c, a) ==> r < |s.clients[c].asked|
  {
    forall r: nat | r in Asked(s.requests, c, a) ensures r < |s.clients[c].asked| {
      var i := PickFrom(s.requests, Asking(c, a), r);
      assert RequestOk(s, s.requests[i]);
    }
  }

  lemma RepliedIssued(s: State, q: seq<Packet>, c: nat, a: nat)
    requires c < |s.clients| && forall i :: 0 <= i < |q| ==> ReplyOk(s, q[i])
    ensures forall r: nat :: r in Replied(q, c, a) ==> r < |s.clients[c].asked|
  {
    forall r: nat | r in Replied(q, c, a) ensures r < |s.clients[c].asked| {
      var i := PickFrom(q, Answering(c, a), r);
      assert ReplyOk(s, q[i]);
    }
  }

  lemma DoneIssued(s: State, c: nat, a: nat)
    requires c < |s.clients|
    ensures forall r: nat :: r in Done(s, c, a) ==> r < |s.clients[c].asked|
  {
    forall r: nat | r in Done(s, c, a) ensures r < |s.clients[c].asked| {
      var j := PickFrom(s.clients[c].got, SourceFrom(s.clients[c].asked, a), r);
    }
  }

  /** A new request is the youngest. */
  lemma AskLast(s: State, c: nat, a: nat)
    requires Inv(s) && c < |s.clients| && InLine(s, c, a)
    ensures Chain(Done(s, c, a), Replied(s.replies, c, a), Replied(s.held, c, a),
                  Asked(s.requests, c, a) + [|s.clients[c].asked|])
  {
    AskedIssued(s, c, a);
    RepliedIssued(s, s.held, c, a);
    RepliedIssued(s, s.replies, c, a);
    DoneIssued(s, c, a);
    ChainAsk(Done(s, c, a), Replied(s.replies, c, a), Replied(s.held, c, a),
             Asked(s.requests, c, a), |s.clients[c].asked|);
  }

  lemma SendLine(s: State, x: nat, msg: Message, addr: nat, accepted: bool, c: nat, a: nat)
    requires Inv(s) && c < |s.clients| && x < |s.clients| && InLine(s, c, a)
    requires Done(AfterSend(s, x, msg, addr, accepted), c, a) == Done(s, c, a)
    ensures InLine(AfterSend(s, x, msg, addr, accepted), c, a)
  {
    var p := Packet(x, addr, msg, Id(x, |s.clients[x].asked|));
    PickAppend(s.requests, p, Asking(c, a));
    if x == c {
      AskLast(s, c, a);
    }
  }

  lemma ServeOther(s: State, k: nat, c: nat, a: nat)
    requires k < |s.requests| && s.requests[k].dst < |s.servers| && s.servers[s.requests[k].dst].cbs != []
    requires c < |s.clients| && Asking(c, a)(s.requests[k]) == None && InLine(s, c, a)
    ensures InLine(AfterServeRecv(s, k), c, a)
  {
    var t := AfterServeRecv(s, k);
    PickRemoveOther(s.requests, k, Asking(c, a));
    if t.discarded == s.discarded {
      PickAppend(s.held, t.held[|s.held|], Answering(c, a));
    }
  }

  lemma HandOf(q: seq<Packet>, p: Packet, c: nat, a: nat)
    requires Replied(q, c, a) == [] && Answering(c, a)(p).Some?
    ensures Replied(q + [p], c, a) == [p.id.call]
  {
    PickAppend(q, p, Answering(c, a));
  }

  /** A server's hand is empty when it receives, so its newest item goes right behind the inbox. */
  lemma ServeOwn(e: Env, s: State, k: nat, c: nat, a: nat)
    requires Inv(s) && c < |s.clients| && e.ordered && Enabled(e, s, ServeRecv(k)) && InLine(s, c, a)
    requires Asking(c, a)(s.requests[k]).Some?
    ensures InLine(AfterServeRecv(s, k), c, a)
  {
    var t := AfterServeRecv(s, k);
    FirstAsking(s, k, c, a);
    PickNone(s.held, Answering(c, a));
    ChainServe(Done(s, c, a), Replied(s.replies, c, a), s.requests[k].id.call, Asked(t.requests, c, a));
    if t.discarded == s.discarded {
      HandOf(s.held, t.held[|s.held|], c, a);
    }
  }

  lemma OnlyHeld(s: State, k: nat, c: nat, a: nat)
    requires OneHand(s) && k < |s.held| && Answering(c, a)(s.held[k]).Some?
    ensures Replied(s.held, c, a) == [s.held[k].id.call]
    ensures Replied(Remove(s.held, k), c, a) == []
  {
    PickNone(s.held[..k], Answering(c, a));
    PickNone(s.held[k + 1..], Answering(c, a));
    PickAround(s.held, k, Answering(c, a));
  }

  lemma ServeSendLine(s: State, k: nat, accepted: bool, c: nat, a: nat)
    requires OneHand(s) && c < |s.clients| && k < |s.held| && InLine(s, c, a)
    ensures InLine(AfterServeSend(s, k, accepted), c, a)
  {
    var p := s.held[k];
    PickAppend(s.replies, p, Answering(c, a));
    if Answering(c, a)(p).Some? {
      OnlyHeld(s, k, c, a);
      ChainReply(Done(s, c, a), Replied(s.replies, c, a), p.id.call, Asked(s.requests, c, a));
    } else {
      PickRemoveOther(s.held, k, Answering(c, a));
    }
  }

  lemma DeliverLine(e: Env, s: State, k: nat, c: nat, a: nat)
    requires Inv(s) && c < |s.clients| && e.ordered && Enabled(e, s, Deliver(k)) && InLine(s, c, a)
    ensures InLine(AfterDeliver(s, k), c, a)
  {
    StepDone(e, s, Deliver(k), c, a);
    if Answering(c, a)(s.replies[k]).Some? {
      FirstAnswering(s, k, c, a);
      ChainDeliver(Done(s, c, a), s.replies[k].id.call, Replied(Remove(s.replies, k), c, a),
                   Replied(s.held, c, a), Asked(s.requests, c, a));
    } else {
      PickRemoveOther(s.replies, k, Answering(c, a));
    }
  }

  lemma LoseRequestLine(s: State, k: nat, c: nat, a: nat)
    requires c < |s.clients| && InLine(s, c, a) && k < |s.requests|
    ensures InLine(AfterLoseRequest(s, k), c, a)
  {
    if Asking(c, a)(s.requests[k]).Some? {
      PickAround(s.requests, k, Asking(c, a));
      ChainLose(Done(s, c, a), Replied(s.replies, c, a), Replied(s.held, c, a),
                Asked(s.requests[..k], c, a), s.requests[k].id.call, Asked(s.requests[k + 1..], c, a));
    } else {
      PickRemoveOther(s.requests, k, Asking(c, a));
    }
  }

  lemma LoseReplyLine(s: State, k: nat, c: nat, a: nat)
    requires c < |s.clients| && InLine(s, c, a) && k < |s.replies|
    ensures InLine(AfterLoseReply(s, k), c, a)
  {
    if Answering(c, a)(s.replies[k]).Some? {
      PickAround(s.replies, k, Answering(c, a));
      ChainLoseReply(Done(s, c, a), Replied(s.replies[..k], c, a), s.replies[k].id.call,
                     Replied(s.replies[k + 1..], c, a), Replied(s.held, c, a),
                     Asked(s.requests, c, a));
    } else {
      PickRemoveOther(s.replies, k, Answering(c, a));
    }
  }

  lemma SameLine(s: State, t: State, c: nat, a: nat)
    requires c < |s.clients| && c < |t.clients| && InLine(s, c, a) && Done(t, c, a) == Done(s, c, a)
    requires t.requests == s.requests && t.held == s.held && t.replies == s.replies
    ensures InLine(t, c, a)
  {
  }

  lemma ServeLine(e: Env, s: State, k: nat, c: nat, a: nat)
    requires Inv(s) && c < |s.clients| && e.ordered && Enabled(e, s, ServeRecv(k)) && InLine(s, c, a)
    ensures InLine(AfterServeRecv(s, k), c, a)
  {
    if Asking(c, a)(s.requests[k]).Some? {
      ServeOwn(e, s, k, c, a);
    } else {
      ServeOther(s, k, c, a);
    }
  }

  lemma AskLine(e: Env, s: State, x: nat, msg: Message, addr: nat, accepted: bool, c: nat, a: nat)
    requires Inv(s) && c < |s.clients| && Enabled(e, s, Send(x, msg, addr, accepted)) && InLine(s, c, a)
    ensures InLine(AfterSend(s, x, msg, addr, accepted), c, a)
  {
    StepDone(e, s, Send(x, msg, addr, accepted), c, a);
    SendLine(s, x, msg, addr, accepted, c, a);
  }

  lemma ExpireLine(e: Env, s: State, x: nat, c: nat, a: nat)
    requires Inv(s) && c < |s.clients| && Enabled(e, s, Expire(x)) && InLine(s, c, a)
    ensures InLine(AfterExpire(e, s, x), c, a)
  {
    StepDone(e, s, Expire(x), c, a);
    SameLine(s, AfterExpire(e, s, x), c, a);
  }

  lemma ClientLine(e: Env, s: State, act: Action, c: nat, a: nat)
    requires Inv(s) && c < |s.clients| && e.ordered && Enabled(e, s, act) && InLine(s, c, a)
    requires act.Send? || act.Deliver? || act.Expire?
    ensures c < |Apply(e, s, act).clients| && InLine(Apply(e, s, act), c, a)
  {
    if act.Send? {
      AskLine(e, s, act.c, act.msg, act.addr, act.accepted, c, a);
    } else if act.Deliver? {
      DeliverLine(e, s, act.k, c, a);
    } else {
      ExpireLine(e, s, act.c, c, a);
    }
  }

  lemma ServerLine(e: Env, s: State, act: Action, c: nat, a: nat)
    requires Inv(s) && c < |s.clients| && e.ordered && Enabled(e, s, act) && InLine(s, c, a)
    requires act.ServeRecv? || act.ServeSend? || act.ServeExpire? || act.Register?
    ensures c < |Apply(e, s, act).clients| && InLine(Apply(e, s, act), c, a)
  {
    if act.ServeRecv? {
      ServeLine(e, s, act.k, c, a);
    } else if act.ServeSend? {
      ServeSendLine(s, act.k, act.accepted, c, a);
    } else {
      SameLine(s, Apply(e, s, act), c, a);
    }
  }

  /** Every step keeps the items between a client and a server, oldest first, one increasing line. */
  lemma StepLine(e: Env, s: State, act: Action, c: nat, a: nat)
    requires Inv(s) && c < |s.clients| && e.ordered && Enabled(e, s, act) && InLine(s, c, a)
    ensures c < |Apply(e, s, act).clients| && InLine(Apply(e, s, act), c, a)
  {
    if act.Send? || act.Deliver? || act.Expire? {
      ClientLine(e, s, act, c, a);
    } else if act.LoseRequest? {
      LoseRequestLine(s, act.k, c, a);
    } else if act.LoseReply? {
      LoseReplyLine(s, act.k, c, a);
    } else {
      ServerLine(e, s, act, c, a);
    }
  }

  lemma {:induction false} RunLine(e: Env, states: seq<State>, actions: seq<Action>, n: nat, c: nat, a: nat)
    requires IsRun(e, states, actions) && n < |states| && e.ordered && c < |states[n].clients|
    ensures InLine(states[n], c, a)
    decreases n
  {
    if n == 0 {
      LineAtStart(states[0], c, a);
    } else {
      StepGrows(e, states[n - 1], actions[n - 1]);
      RunLine(e, states, actions, n - 1, c, a);
      RunInv(e, states, actions, n - 1);
      StepLine(e, states[n - 1], actions[n - 1], c, a);
    }
  }

  lemma LineAtStart(s: State, c: nat, a: nat)
    requires Init(s) && c < |s.clients|
    ensures InLine(s, c, a)
  {
  }

  /** On a lossy but ordered network, for any client and any server: of two results that answer requests
      to the same server, the later one answers the later request. */
  lemma AnswersInOrder(e: Env, states: seq<State>, actions: seq<Action>, n: nat, c: nat,
                       i: nat, j: nat, r: nat, r': nat)
    requires IsRun(e, states, actions) && n < |states| && e.ordered && c < |states[n].clients|
    requires i < j && Consumed(states[n].clients[c].got, i, r) && Consumed(states[n].clients[c].got, j, r')
    requires var asked := states[n].clients[c].asked;
             r < |asked| && r' < |asked| && asked[r].addr == asked[r'].addr
    ensures r < r'
  {
    var s := states[n];
    var cl := s.clients[c];
    var a := cl.asked[r].addr;
    RunLine(e, states, actions, n, c, a);
    var x, y := PickOrder(cl.got, i, j, SourceFrom(cl.asked, a));
    var w := Done(s, c, a) + Replied(s.replies, c, a) + Replied(s.held, c, a) +
             Asked(s.requests, c, a);
    assert w[x] == r && w[y] == r';
  }
}
