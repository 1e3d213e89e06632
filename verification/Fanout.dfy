/** Publishers and subscribers over a datagram network, as a step system. A fan-out is one step for each
    send, so other objects may act in between. */
module Fanout {
  import opened Wire
  import opened Queues

  datatype Dgram = Dgram(src: nat, dst: nat, data: Message)

  /** A call of publish: the data, and the addresses registered then. */
  datatype Publication = Publication(data: Message, regs: seq<nat>)

  /** `todo` are the addresses a publish under way has not come to yet. */
  datatype Pub = Pub(addrs: seq<nat>, history: seq<Publication>, todo: seq<nat>)

  datatype Sub = Sub(size: nat, open: bool)

  /** The network, and every datagram's fate. */
  datatype State = State(
    pubs: seq<Pub>, subs: seq<Sub>, net: seq<Dgram>,
    offered: seq<Dgram>, failed: seq<Dgram>, dropped: seq<Dgram>, received: seq<Dgram>)

  datatype Action =
    | RegisterAddr(p: nat, a: nat)
    | Publish(p: nat, data: Message)    // publish begins
    | SendNext(p: nat, ok: bool)        // one sendto of its loop
    | Take(k: nat)                      // a subscriber's recv gets a datagram
    | Expire(i: nat)                    // a subscriber's recv times out, or throws on a closed socket
    | Drop(k: nat)

  /** The two sockets a datagram travels between. */
  function Ends(d: Dgram): (nat, nat) {
    (d.src, d.dst)
  }

  predicate Bound(s: State, a: nat) {
    a < |s.subs| && s.subs[a].open
  }

  predicate Enabled(e: Env, s: State, act: Action) {
    match act
    case RegisterAddr(p, a) => p < |s.pubs| && s.pubs[p].todo == []
    case Publish(p, data) => p < |s.pubs| && s.pubs[p].todo == []
    case SendNext(p, ok) =>
      p < |s.pubs| && s.pubs[p].todo != [] && s.pubs[p].history != [] &&
      (ok ==> Bound(s, s.pubs[p].todo[0])) && (!e.lossy && Bound(s, s.pubs[p].todo[0]) ==> ok)
    case Take(k) => k < |s.net| && Bound(s, s.net[k].dst) && (e.ordered ==> First(s.net, k, Ends))
    case Expire(i) => i < |s.subs| && if s.subs[i].open then e.timeouts else e.transport.Unix?
    case Drop(k) => e.lossy && k < |s.net|
  }

  function AfterPublish(s: State, p: nat, data: Message): State
    requires p < |s.pubs|
  {
    var pub := s.pubs[p];
    s.(pubs := s.pubs[p := Pub(pub.addrs, pub.history + [Publication(data, pub.addrs)], pub.addrs)])
  }

  function AfterSendNext(s: State, p: nat, ok: bool): State
    requires p < |s.pubs| && s.pubs[p].todo != [] && s.pubs[p].history != []
  {
    var pub := s.pubs[p];
    var d := Dgram(p, pub.todo[0], pub.history[|pub.history| - 1].data);
    var t := s.(pubs := s.pubs[p := pub.(todo := pub.todo[1..])], offered := s.offered + [d]);
    if ok then t.(net := s.net + [d]) else t.(failed := s.failed + [d])
  }

  function AfterTake(s: State, k: nat): State
    requires k < |s.net|
  {
    s.(net := Remove(s.net, k), received := s.received + [s.net[k]])
  }

  function AfterDrop(s: State, k: nat): State
    requires k < |s.net|
  {
    s.(net := Remove(s.net, k), dropped := s.dropped + [s.net[k]])
  }

  function AfterExpire(e: Env, s: State, i: nat): State
    requires i < |s.subs|
  {
    if RecvOutcome<nat>(e.transport, Timeout, s.subs[i].size).Err? then
      s.(subs := s.subs[i := s.subs[i].(open := false)])
    else s
  }

  function Apply(e: Env, s: State, act: Action): State
    requires Enabled(e, s, act)
  {
    match act
    case RegisterAddr(p, a) => s.(pubs := s.pubs[p := s.pubs[p].(addrs := s.pubs[p].addrs + [a])])
    case Publish(p, data) => AfterPublish(s, p, data)
    case SendNext(p, ok) => AfterSendNext(s, p, ok)
    case Take(k) => AfterTake(s, k)
    case Expire(i) => AfterExpire(e, s, i)
    case Drop(k) => AfterDrop(s, k)
  }

  ghost predicate Init(s: State) {
    (forall p :: 0 <= p < |s.pubs| ==> s.pubs[p].history == [] && s.pubs[p].todo == []) &&
    s.net == s.offered == s.failed == s.dropped == s.received == []
  }

  ghost predicate IsRun(e: Env, states: seq<State>, actions: seq<Action>) {
    |states| == |actions| + 1 && Init(states[0]) &&
    forall i {:trigger actions[i]} :: 0 <= i < |actions| ==>
      Enabled(e, states[i], actions[i]) && states[i + 1] == Apply(e, states[i], actions[i])
  }

  // ---- the traffic of one publisher and one address ----

  function Between(p: nat, a: nat): Dgram -> Option<Message> {
    (d: Dgram) => if d.src == p && d.dst == a then Some(d.data) else None
  }

  function Stream(q: seq<Dgram>, p: nat, a: nat): seq<Message> {
    Pick(q, Between(p, a))
  }

  function CopyTo(a: nat, data: Message): nat -> Option<Message> {
    (x: nat) => if x == a then Some(data) else None
  }

  /** `data` once for each registration of `a`. */
  function Copies(regs: seq<nat>, a: nat, data: Message): seq<Message> {
    Pick(regs, CopyTo(a, data))
  }

  /** What a history of publications owes an address, in order. */
  function Expand(history: seq<Publication>, a: nat): seq<Message> {
    if history == [] then []
    else
      var last := history[|history| - 1];
      Expand(history[..|history| - 1], a) + Copies(last.regs, a, last.data)
  }

  /** What a publish under way still owes the address. */
  function Pending(pub: Pub, a: nat): seq<Message> {
    if pub.todo == [] || pub.history == [] then []
    else Copies(pub.todo, a, pub.history[|pub.history| - 1].data)
  }

  // ---- every registration is served ----

  ghost predicate Served(s: State, p: nat, a: nat) {
    p < |s.pubs| && (s.pubs[p].todo != [] ==> s.pubs[p].history != []) &&
    Stream(s.offered, p, a) + Pending(s.pubs[p], a) == Expand(s.pubs[p].history, a)
  }

  lemma ExpandAppend(history: seq<Publication>, x: Publication, a: nat)
    ensures Expand(history + [x], a) == Expand(history, a) + Copies(x.regs, a, x.data)
  {
  }

  lemma PublishServed(s: State, q: nat, data: Message, p: nat, a: nat)
    requires q < |s.pubs| && s.pubs[q].todo == [] && Served(s, p, a)
    ensures Served(AfterPublish(s, q, data), p, a)
  {
    if p == q {
      var pub := s.pubs[p];
      ExpandAppend(pub.history, Publication(data, pub.addrs), a);
      assert Stream(s.offered, p, a) + [] == Stream(s.offered, p, a);
    }
  }

  function Sending(s: State, q: nat): Dgram
    requires q < |s.pubs| && s.pubs[q].todo != [] && s.pubs[q].history != []
  {
    Dgram(q, s.pubs[q].todo[0], s.pubs[q].history[|s.pubs[q].history| - 1].data)
  }

  lemma CopiesNext(todo: seq<nat>, a: nat, data: Message)
    requires todo != []
    ensures Copies(todo, a, data) == One(CopyTo(a, data)(todo[0])) + Copies(todo[1..], a, data)
  {
    assert [todo[0]] + todo[1..] == todo;
    PickCons(todo[0], todo[1..], CopyTo(a, data));
  }

  lemma PendingIs(pub: Pub, a: nat)
    requires pub.history != []
    ensures Pending(pub, a) == Copies(pub.todo, a, pub.history[|pub.history| - 1].data)
  {
  }

  lemma PendingNext(s: State, q: nat, ok: bool, a: nat)
    requires q < |s.pubs| && s.pubs[q].todo != [] && s.pubs[q].history != []
    ensures Pending(s.pubs[q], a) ==
            One(Between(q, a)(Sending(s, q))) + Pending(AfterSendNext(s, q, ok).pubs[q], a)
  {
    var pub, pub' := s.pubs[q], AfterSendNext(s, q, ok).pubs[q];
    PendingIs(pub, a);
    PendingIs(pub', a);
    CopiesNext(pub.todo, a, pub.history[|pub.history| - 1].data);
  }

  lemma Regroup<T>(xs: seq<T>, ys: seq<T>, zs: seq<T>)
    ensures xs + (ys + zs) == xs + ys + zs
  {
  }

  lemma OwnServed(s: State, p: nat, ok: bool, a: nat)
    requires p < |s.pubs| && s.pubs[p].todo != [] && s.pubs[p].history != [] && Served(s, p, a)
    ensures Served(AfterSendNext(s, p, ok), p, a)
  {
    var x, t := Between(p, a)(Sending(s, p)), AfterSendNext(s, p, ok);
    PickMore(s.offered, Sending(s, p), Between(p, a));
    PendingNext(s, p, ok, a);
    assert Stream(t.offered, p, a) == Stream(s.offered, p, a) + One(x);
    Regroup(Stream(s.offered, p, a), One(x), Pending(t.pubs[p], a));
  }

  lemma SendServed(s: State, q: nat, ok: bool, p: nat, a: nat)
    requires q < |s.pubs| && s.pubs[q].todo != [] && s.pubs[q].history != [] && Served(s, p, a)
    ensures Served(AfterSendNext(s, q, ok), p, a)
  {
    if p == q {
      OwnServed(s, p, ok, a);
    } else {
      PickAppend(s.offered, Sending(s, q), Between(p, a));
    }
  }

  lemma StepServed(e: Env, s: State, act: Action, p: nat, a: nat)
    requires Enabled(e, s, act) && Served(s, p, a)
    ensures Served(Apply(e, s, act), p, a)
  {
    match act {
      case Publish(q, data) => PublishServed(s, q, data, p, a);
      case SendNext(q, ok) => SendServed(s, q, ok, p, a);
      case _ =>
    }
  }

  // ---- every address in turn ----

  function From(p: nat): Dgram -> Option<Dgram> {
    (d: Dgram) => if d.src == p then Some(d) else None
  }

  /** `data` to each registered address in order. */
  function Addressed(p: nat, regs: seq<nat>, data: Message): seq<Dgram> {
    seq(|regs|, i requires 0 <= i < |regs| => Dgram(p, regs[i], data))
  }

  /** What a history of publications has to offer, in order, over all addresses. */
  function ToAll(p: nat, history: seq<Publication>): seq<Dgram> {
    if history == [] then []
    else
      var last := history[|history| - 1];
      ToAll(p, history[..|history| - 1]) + Addressed(p, last.regs, last.data)
  }

  function Rest(p: nat, pub: Pub): seq<Dgram> {
    if pub.todo == [] || pub.history == [] then []
    else Addressed(p, pub.todo, pub.history[|pub.history| - 1].data)
  }

  ghost predicate InTurn(s: State, p: nat) {
    p < |s.pubs| && (s.pubs[p].todo != [] ==> s.pubs[p].history != []) &&
    Pick(s.offered, From(p)) + Rest(p, s.pubs[p]) == ToAll(p, s.pubs[p].history)
  }

  lemma PublishInTurn(s: State, q: nat, data: Message, p: nat)
    requires q < |s.pubs| && s.pubs[q].todo == [] && InTurn(s, p)
    ensures InTurn(AfterPublish(s, q, data), p)
  {
    if p == q {
      var pub := s.pubs[p];
      var last := Publication(data, pub.addrs);
      assert (pub.history + [last])[..|pub.history|] == pub.history;
      assert Pick(s.offered, From(p)) + [] == Pick(s.offered, From(p));
      assert Addressed(p, pub.addrs, data) == Rest(p, AfterPublish(s, p, data).pubs[p]);
    }
  }

  lemma RestNext(s: State, q: nat, ok: bool)
    requires q < |s.pubs| && s.pubs[q].todo != [] && s.pubs[q].history != []
    ensures Rest(q, s.pubs[q]) == One(Some(Sending(s, q))) + Rest(q, AfterSendNext(s, q, ok).pubs[q])
  {
    var pub := s.pubs[q];
    var data := pub.history[|pub.history| - 1].data;
    assert Addressed(q, pub.todo, data) == [Sending(s, q)] + Addressed(q, pub.todo[1..], data);
    assert Rest(q, AfterSendNext(s, q, ok).pubs[q]) == Addressed(q, pub.todo[1..], data);
  }

  lemma OwnInTurn(s: State, p: nat, ok: bool)
    requires p < |s.pubs| && s.pubs[p].todo != [] && s.pubs[p].history != [] && InTurn(s, p)
    ensures InTurn(AfterSendNext(s, p, ok), p)
  {
    var d, t := Sending(s, p), AfterSendNext(s, p, ok);
    PickMore(s.offered, d, From(p));
    RestNext(s, p, ok);
    assert Pick(t.offered, From(p)) == Pick(s.offered, From(p)) + One(Some(d));
    Regroup(Pick(s.offered, From(p)), One(Some(d)), Rest(p, t.pubs[p]));
  }

  lemma SendInTurn(s: State, q: nat, ok: bool, p: nat)
    requires q < |s.pubs| && s.pubs[q].todo != [] && s.pubs[q].history != [] && InTurn(s, p)
    ensures InTurn(AfterSendNext(s, q, ok), p)
  {
    if p == q {
      OwnInTurn(s, p, ok);
    } else {
      PickAppend(s.offered, Sending(s, q), From(p));
    }
  }

  lemma StepInTurn(e: Env, s: State, act: Action, p: nat)
    requires Enabled(e, s, act) && InTurn(s, p)
    ensures InTurn(Apply(e, s, act), p)
  {
    match act {
      case Publish(q, data) => PublishInTurn(s, q, data, p);
      case SendNext(q, ok) => SendInTurn(s, q, ok, p);
      case _ =>
    }
  }

  // ---- nothing is invented, nothing vanishes ----

  ghost function Fates(s: State, p: nat, a: nat): multiset<Message> {
    multiset(Stream(s.failed, p, a)) + multiset(Stream(s.dropped, p, a)) +
    multiset(Stream(s.net, p, a)) + multiset(Stream(s.received, p, a))
  }

  ghost predicate Conserved(s: State, p: nat, a: nat) {
    multiset(Stream(s.offered, p, a)) == Fates(s, p, a)
  }

  lemma AppendMultiset(q: seq<Dgram>, d: Dgram, p: nat, a: nat)
    ensures multiset(Stream(q + [d], p, a)) == multiset(Stream(q, p, a)) + multiset(One(Between(p, a)(d)))
  {
    PickAppend(q, d, Between(p, a));
  }

  lemma RemoveMultisets(q: seq<Dgram>, k: nat, p: nat, a: nat)
    requires k < |q|
    ensures multiset(Stream(q, p, a)) == multiset(Stream(Remove(q, k), p, a)) + multiset(One(Between(p, a)(q[k])))
  {
    PickAround(q, k, Between(p, a));
  }

  lemma OfferedOne(s: State, t: State, d: Dgram, p: nat, a: nat)
    requires Conserved(s, p, a) && t.offered == s.offered + [d]
    requires Fates(t, p, a) == Fates(s, p, a) + multiset(One(Between(p, a)(d)))
    ensures Conserved(t, p, a)
  {
    AppendMultiset(s.offered, d, p, a);
  }

  lemma SendConserved(s: State, q: nat, ok: bool, p: nat, a: nat)
    requires q < |s.pubs| && s.pubs[q].todo != [] && s.pubs[q].history != [] && Conserved(s, p, a)
    ensures Conserved(AfterSendNext(s, q, ok), p, a)
  {
    var d := Sending(s, q);
    AppendMultiset(if ok then s.net else s.failed, d, p, a);
    OfferedOne(s, AfterSendNext(s, q, ok), d, p, a);
  }

  lemma TakeConserved(s: State, k: nat, p: nat, a: nat)
    requires k < |s.net| && Conserved(s, p, a)
    ensures Conserved(AfterTake(s, k), p, a)
  {
    RemoveMultisets(s.net, k, p, a);
    AppendMultiset(s.received, s.net[k], p, a);
  }

  lemma DropConserved(s: State, k: nat, p: nat, a: nat)
    requires k < |s.net| && Conserved(s, p, a)
    ensures Conserved(AfterDrop(s, k), p, a)
  {
    RemoveMultisets(s.net, k, p, a);
    AppendMultiset(s.dropped, s.net[k], p, a);
  }

  lemma StepConserved(e: Env, s: State, act: Action, p: nat, a: nat)
    requires Enabled(e, s, act) && Conserved(s, p, a)
    ensures Conserved(Apply(e, s, act), p, a)
  {
    match act {
      case SendNext(q, ok) => SendConserved(s, q, ok, p, a);
      case Take(k) => TakeConserved(s, k, p, a);
      case Drop(k) => DropConserved(s, k, p, a);
      case _ =>
    }
  }

  // ---- order ----

  /** Received and under way, oldest first. */
  function Line(s: State, p: nat, a: nat): seq<Message> {
    Stream(s.received, p, a) + Stream(s.net, p, a)
  }

  /** With order, what went through is what was offered, with losses left out; without losses it is all of
      it while the subscriber is open, and a beginning of it after its socket closed. */
  ghost predicate InOrder(e: Env, s: State, p: nat, a: nat) {
    Subsequence(Line(s, p, a), Stream(s.offered, p, a)) &&
    (!e.lossy && a < |s.subs| ==>
      Line(s, p, a) <= Stream(s.offered, p, a) &&
      (s.subs[a].open ==> Line(s, p, a) == Stream(s.offered, p, a)))
  }

  /** A new datagram goes to the end of the line, if it is one of this pair. */
  lemma SendLine(s: State, d: Dgram, p: nat, a: nat)
    ensures Stream(s.received, p, a) + Stream(s.net + [d], p, a) ==
            if d.src == p && d.dst == a then Line(s, p, a) + [d.data] else Line(s, p, a)
  {
    PickAppend(s.net, d, Between(p, a));
    if d.src == p && d.dst == a {
      assert Stream(s.received, p, a) + (Stream(s.net, p, a) + [d.data]) == Line(s, p, a) + [d.data];
    }
  }

  lemma SendInOrder(e: Env, s: State, q: nat, ok: bool, p: nat, a: nat)
    requires Enabled(e, s, SendNext(q, ok)) && InOrder(e, s, p, a)
    ensures InOrder(e, AfterSendNext(s, q, ok), p, a)
  {
    var d := Sending(s, q);
    var line, offered := Line(s, p, a), Stream(s.offered, p, a);
    PickAppend(s.offered, d, Between(p, a));
    if d.src == p && d.dst == a {
      SubsequenceAppend(line, offered, d.data);
    }
    if ok {
      SendLine(s, d, p, a);
    } else {
      assert Line(AfterSendNext(s, q, ok), p, a) == line;
    }
  }

  lemma NoneBefore(net: seq<Dgram>, k: nat)
    requires k < |net| && First(net, k, Ends)
    ensures forall i :: 0 <= i < k ==> Between(net[k].src, net[k].dst)(net[i]) == None
  {
    forall i | 0 <= i < k ensures Between(net[k].src, net[k].dst)(net[i]) == None {
      assert Ends(net[i]) != Ends(net[k]);
    }
  }

  /** The oldest datagram of the pair moves from one part of the line to the other. */
  lemma TakeFirst(received: seq<Dgram>, net: seq<Dgram>, k: nat)
    requires k < |net| && First(net, k, Ends)
    ensures var p, a := net[k].src, net[k].dst;
            Stream(received + [net[k]], p, a) + Stream(Remove(net, k), p, a) ==
            Stream(received, p, a) + Stream(net, p, a)
  {
    var d := net[k];
    var f := Between(d.src, d.dst);
    NoneBefore(net, k);
    PickAppend(received, d, f);
    PickFirst(net, k, f);
    Regroup(Pick(received, f), [d.data], Pick(Remove(net, k), f));
  }

  lemma TakeLine(e: Env, s: State, k: nat, p: nat, a: nat)
    requires e.ordered && Enabled(e, s, Take(k))
    ensures Line(AfterTake(s, k), p, a) == Line(s, p, a)
  {
    var d := s.net[k];
    if d.src == p && d.dst == a {
      TakeFirst(s.received, s.net, k);
    } else {
      PickAppend(s.received, d, Between(p, a));
      PickRemoveOther(s.net, k, Between(p, a));
    }
  }

  lemma AroundMiddle<T>(us: seq<T>, front: seq<T>, x: T, back: seq<T>)
    ensures us + (front + [x] + back) == (us + front) + [x] + back
    ensures us + (front + back) == (us + front) + back
  {
  }

  lemma WithoutMiddle(received: seq<Message>, front: seq<Message>, x: Message, back: seq<Message>,
                      offered: seq<Message>)
    requires Subsequence(received + (front + [x] + back), offered)
    ensures Subsequence(received + (front + back), offered)
  {
    AroundMiddle(received, front, x, back);
    SubsequenceWithout(received + front, x, back, offered);
  }

  lemma DropOwn(received: seq<Message>, net: seq<Dgram>, k: nat, offered: seq<Message>, p: nat, a: nat)
    requires k < |net| && net[k].src == p && net[k].dst == a
    requires Subsequence(received + Stream(net, p, a), offered)
    ensures Subsequence(received + Stream(Remove(net, k), p, a), offered)
  {
    PickAround(net, k, Between(p, a));
    var front, back := Stream(net[..k], p, a), Stream(net[k + 1..], p, a);
    WithoutMiddle(received, front, net[k].data, back, offered);
  }

  lemma DropInOrder(e: Env, s: State, k: nat, p: nat, a: nat)
    requires e.lossy && k < |s.net| && InOrder(e, s, p, a)
    ensures InOrder(e, AfterDrop(s, k), p, a)
  {
    if s.net[k].src == p && s.net[k].dst == a {
      DropOwn(Stream(s.received, p, a), s.net, k, Stream(s.offered, p, a), p, a);
    } else {
      PickRemoveOther(s.net, k, Between(p, a));
    }
  }

  lemma StepInOrder(e: Env, s: State, act: Action, p: nat, a: nat)
    requires e.ordered && Enabled(e, s, act) && InOrder(e, s, p, a)
    ensures InOrder(e, Apply(e, s, act), p, a)
  {
    match act {
      case SendNext(q, ok) => SendInOrder(e, s, q, ok, p, a);
      case Take(k) => TakeLine(e, s, k, p, a);
      case Drop(k) => DropInOrder(e, s, k, p, a);
      case _ =>
    }
  }

  // ---- whole runs ----

  lemma {:induction false} RunServed(e: Env, states: seq<State>, actions: seq<Action>, n: nat, p: nat, a: nat)
    requires IsRun(e, states, actions) && n < |states| && p < |states[0].pubs|
    ensures Served(states[n], p, a) && Conserved(states[n], p, a)
    decreases n
  {
    if n > 0 {
      RunServed(e, states, actions, n - 1, p, a);
      StepServed(e, states[n - 1], actions[n - 1], p, a);
      StepConserved(e, states[n - 1], actions[n - 1], p, a);
    }
  }

  lemma {:induction false} RunInTurn(e: Env, states: seq<State>, actions: seq<Action>, n: nat, p: nat)
    requires IsRun(e, states, actions) && n < |states| && p < |states[0].pubs|
    ensures InTurn(states[n], p)
    decreases n
  {
    if n > 0 {
      RunInTurn(e, states, actions, n - 1, p);
      StepInTurn(e, states[n - 1], actions[n - 1], p);
    }
  }

  // ---- what the calls of the program ask for ----

  /** The addresses registered after the first `n` actions: those of the start, then every registration. */
  function AddrsAt(start: seq<nat>, actions: seq<Action>, n: nat, p: nat): seq<nat>
    requires n <= |actions|
  {
    if n == 0 then start
    else
      match actions[n - 1]
      case RegisterAddr(q, a) =>
        if q == p then AddrsAt(start, actions, n - 1, p) + [a] else AddrsAt(start, actions, n - 1, p)
      case _ => AddrsAt(start, actions, n - 1, p)
  }

  /** The calls of publish among the first `n` actions, each with the addresses registered before it. */
  function HistoryAt(start: seq<nat>, actions: seq<Action>, n: nat, p: nat): seq<Publication>
    requires n <= |actions|
  {
    if n == 0 then []
    else
      match actions[n - 1]
      case Publish(q, data) =>
        if q == p then HistoryAt(start, actions, n - 1, p) + [Publication(data, AddrsAt(start, actions, n - 1, p))]
        else HistoryAt(start, actions, n - 1, p)
      case _ => HistoryAt(start, actions, n - 1, p)
  }

  lemma StepHistory(e: Env, s: State, act: Action, t: State, p: nat)
    requires Enabled(e, s, act) && t == Apply(e, s, act) && p < |s.pubs|
    ensures p < |t.pubs|
    ensures t.pubs[p].addrs ==
            if act.RegisterAddr? && act.p == p then s.pubs[p].addrs + [act.a] else s.pubs[p].addrs
    ensures t.pubs[p].history ==
            if act.Publish? && act.p == p then s.pubs[p].history + [Publication(act.data, s.pubs[p].addrs)]
            else s.pubs[p].history
  {
  }

  /** A publisher's addresses and publications are what the actions say, and nothing is left out. */
  lemma {:induction false} RunHistory(e: Env, states: seq<State>, actions: seq<Action>, n: nat, p: nat)
    requires IsRun(e, states, actions) && n < |states| && p < |states[0].pubs|
    ensures p < |states[n].pubs|
    ensures states[n].pubs[p].addrs == AddrsAt(states[0].pubs[p].addrs, actions, n, p)
    ensures states[n].pubs[p].history == HistoryAt(states[0].pubs[p].addrs, actions, n, p)
    decreases n
  {
    if n > 0 {
      RunHistory(e, states, actions, n - 1, p);
      StepHistory(e, states[n - 1], actions[n - 1], states[n], p);
    }
  }

  /** Whenever no publish is under way, whatever other objects did in between and whichever sends failed:
      each call of publish offered its data to every address registered before it, in order, one after the
      other, and nothing else was offered; so each address was offered what it is owed. */
  lemma FanOutReachesAll(e: Env, states: seq<State>, actions: seq<Action>, n: nat, p: nat)
    requires IsRun(e, states, actions) && n < |states| && p < |states[0].pubs|
    ensures p < |states[n].pubs|
    ensures states[n].pubs[p].todo == [] ==>
              var history := HistoryAt(states[0].pubs[p].addrs, actions, n, p);
              Pick(states[n].offered, From(p)) == ToAll(p, history) &&
              forall a :: Stream(states[n].offered, p, a) == Expand(history, a)
  {
    RunInTurn(e, states, actions, n, p);
    RunHistory(e, states, actions, n, p);
    forall a | states[n].pubs[p].todo == []
      ensures Stream(states[n].offered, p, a) == Expand(states[n].pubs[p].history, a)
    {
      RunServed(e, states, actions, n, p, a);
    }
  }

  lemma {:induction false} RunInOrder(e: Env, states: seq<State>, actions: seq<Action>, n: nat, p: nat, a: nat)
    requires IsRun(e, states, actions) && n < |states| && e.ordered
    ensures InOrder(e, states[n], p, a)
    decreases n
  {
    if n > 0 {
      RunInOrder(e, states, actions, n - 1, p, a);
      StepInOrder(e, states[n - 1], actions[n - 1], p, a);
    }
  }

  /** Over every run, with any failures: what was published for an address is what failed, was dropped, is
      under way or was received there, message by message, and what the publish under way still owes. */
  lemma PublishConservation(e: Env, states: seq<State>, actions: seq<Action>, n: nat, p: nat, a: nat)
    requires IsRun(e, states, actions) && n < |states| && p < |states[0].pubs|
    ensures p < |states[n].pubs|
    ensures var s := states[n];
            multiset(Expand(s.pubs[p].history, a)) == Fates(s, p, a) + multiset(Pending(s.pubs[p], a)) &&
            |Expand(s.pubs[p].history, a)| ==
            |Stream(s.failed, p, a)| + |Stream(s.dropped, p, a)| + |Stream(s.net, p, a)| +
            |Stream(s.received, p, a)| + |Pending(s.pubs[p], a)|
  {
    var s := states[n];
    RunServed(e, states, actions, n, p, a);
    assert multiset(Stream(s.offered, p, a) + Pending(s.pubs[p], a)) ==
           multiset(Stream(s.offered, p, a)) + multiset(Pending(s.pubs[p], a));
    assert |multiset(Stream(s.offered, p, a))| == |Fates(s, p, a)|;
  }

  /** Every publication owes the address one message for each of its registrations then. */
  lemma {:induction false} ExpandCount(history: seq<Publication>, a: nat, r: nat)
    requires forall x :: x in history ==> multiset(x.regs)[a] == r
    ensures |Expand(history, a)| == |history| * r
  {
    if history != [] {
      var n := |history| - 1;
      assert history[n] in history;
      ExpandCount(history[..n], a, r);
      CopiesCount(history[n].regs, a, history[n].data);
      OneMore(|history[..n]|, r);
    }
  }

  lemma OneMore(n: nat, r: nat)
    ensures (n + 1) * r == n * r + r
  {
  }

  lemma {:induction false} CopiesCount(regs: seq<nat>, a: nat, data: Message)
    ensures |Copies(regs, a, data)| == multiset(regs)[a]
    ensures forall i :: 0 <= i < |Copies(regs, a, data)| ==> Copies(regs, a, data)[i] == data
  {
    if regs != [] {
      CopiesCount(regs[1..], a, data);
      assert regs == [regs[0]] + regs[1..];
    }
  }

  /** What the subscriber's callbacks get to see of a stream. */
  function Seen(ms: seq<Message>, size: nat): seq<Message> {
    seq(|ms|, i requires 0 <= i < |ms| => Fit(ms[i], size))
  }

  lemma SeenMatching(ms: seq<Message>, size: nat)
    requires forall m :: m in ms ==> |m| == size
    ensures Seen(ms, size) == ms
  {
    forall i | 0 <= i < |ms| ensures Seen(ms, size)[i] == ms[i] {
      FitShape(ms[i], size);
    }
  }

  /** On an ordered network a subscriber receives a subsequence of what a publisher published for it, with
      repeats for repeated registrations. */
  lemma ReceivedInOrder(e: Env, states: seq<State>, actions: seq<Action>, n: nat, p: nat, a: nat)
    requires IsRun(e, states, actions) && n < |states| && p < |states[0].pubs| && e.ordered
    ensures p < |states[n].pubs|
    ensures Subsequence(Stream(states[n].received, p, a), Expand(states[n].pubs[p].history, a))
  {
    var s := states[n];
    RunServed(e, states, actions, n, p, a);
    RunInOrder(e, states, actions, n, p, a);
    SubsequencePrefix(Stream(s.received, p, a), Stream(s.net, p, a), Stream(s.offered, p, a));
    SubsequenceExtend(Stream(s.received, p, a), Stream(s.offered, p, a), Pending(s.pubs[p], a));
  }

  /** Without loss it receives a beginning of it, and with matching sizes it sees just that. */
  lemma ReceivedPrefix(e: Env, states: seq<State>, actions: seq<Action>, n: nat, p: nat, a: nat)
    requires IsRun(e, states, actions) && n < |states| && p < |states[0].pubs|
    requires e.ordered && !e.lossy && a < |states[n].subs|
    ensures p < |states[n].pubs|
    ensures var s := states[n];
            var owed := Expand(s.pubs[p].history, a);
            Stream(s.received, p, a) <= owed &&
            ((forall m :: m in owed ==> |m| == s.subs[a].size) ==>
              Seen(Stream(s.received, p, a), s.subs[a].size) <= owed)
  {
    var s := states[n];
    RunServed(e, states, actions, n, p, a);
    RunInOrder(e, states, actions, n, p, a);
    var got, owed := Stream(s.received, p, a), Expand(s.pubs[p].history, a);
    assert got <= owed;
    if forall m :: m in owed ==> |m| == s.subs[a].size {
      forall m | m in got ensures |m| == s.subs[a].size {
        assert m in owed;
      }
      SeenMatching(got, s.subs[a].size);
    }
  }

  // ---- what loss can do ----

  lemma LastStep(e: Env, states: seq<State>, actions: seq<Action>, a: Action, t: State)
    requires IsRun(e, states, actions) && Enabled(e, states[|actions|], a) && t == Apply(e, states[|actions|], a)
    ensures IsRun(e, states + [t], actions + [a])
  {
  }

  lemma FirstPublication(e: Env, s0: State, p: nat, a: nat, data: Message) returns (s1: State, s2: State)
    requires Init(s0) && p < |s0.pubs| && s0.pubs[p].addrs == [a] && Bound(s0, a)
    ensures Enabled(e, s0, Publish(p, data)) && s1 == Apply(e, s0, Publish(p, data))
    ensures Enabled(e, s1, SendNext(p, true)) && s2 == Apply(e, s1, SendNext(p, true))
    ensures s2.net == [Dgram(p, a, data)] && s2.received == [] && |s2.pubs| == |s0.pubs|
    ensures s2.pubs[p] == Pub([a], [Publication(data, [a])], [])
  {
    s1 := AfterPublish(s0, p, data);
    s2 := AfterSendNext(s1, p, true);
  }

  /** A lossy network can lose a publication for good: it is owed, nothing is under way, nothing was received. */
  lemma PublicationsGetLost(e: Env, s0: State, p: nat, a: nat, data: Message)
    returns (states: seq<State>, actions: seq<Action>)
    requires Init(s0) && p < |s0.pubs| && s0.pubs[p].addrs == [a] && Bound(s0, a) && e.lossy
    ensures IsRun(e, states, actions) && states[0] == s0 && |actions| == 3 && actions[0] == Publish(p, data)
    ensures var end := states[3];
            p < |end.pubs| && end.pubs[p].todo == [] && Expand(end.pubs[p].history, a) == [data] &&
            end.net == end.received == []
  {
    var s1, s2 := FirstPublication(e, s0, p, a, data);
    var s3 := AfterDrop(s2, 0);
    states, actions := [s0], [];
    LastStep(e, states, actions, Publish(p, data), s1);
    states, actions := states + [s1], actions + [Publish(p, data)];
    LastStep(e, states, actions, SendNext(p, true), s2);
    states, actions := states + [s2], actions + [SendNext(p, true)];
    LastStep(e, states, actions, Drop(0), s3);
    states, actions := states + [s3], actions + [Drop(0)];
    ExpandOne(Publication(data, [a]), a);
  }

  lemma ExpandOne(x: Publication, a: nat)
    ensures Expand([x], a) == Copies(x.regs, a, x.data)
    ensures x.regs == [a] ==> Expand([x], a) == [x.data]
  {
    ExpandAppend([], x, a);
    assert [] + [x] == [x];
    if x.regs == [a] {
      CopiesCount([a], a, x.data);
    }
  }
}
