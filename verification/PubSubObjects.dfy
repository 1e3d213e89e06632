/** From publish to the callbacks: what the Publisher and Subscriber objects do in a run of the step system. */
module PubSubObjects {
  import opened Wire
  import opened Queues
  import opened SockAddr
  import opened Sockets
  import opened PubSub
  import opened Fanout

  // ---- the subscriber object in a run ----

  /** What a step hands to a `once` of subscriber `a`. `at` gives the socket address of each publisher. */
  function Event(s: State, act: Action, a: nat, at: nat -> Addr): Option<Arrival<Addr>> {
    match act
    case Take(k) =>
      if k < |s.net| && s.net[k].dst == a then Some(Datagram(at(s.net[k].src), s.net[k].data)) else None
    case Expire(i) => if i == a then Some(Timeout) else None
    case _ => None
  }

  function Events(states: seq<State>, actions: seq<Action>, n: nat, a: nat, at: nat -> Addr)
    : seq<Arrival<Addr>>
    requires n <= |actions| && n < |states|
  {
    if n == 0 then []
    else Events(states, actions, n - 1, a, at) + One(Event(states[n - 1], actions[n - 1], a, at))
  }

  /** The object after any calls of register_cb and once. */
  function Life(l: Listener, size: nat, turns: seq<Turn>): Listener {
    if turns == [] then l else Act(Life(l, size, turns[..|turns| - 1]), size, turns[|turns| - 1])
  }

  function Fresh(t: Transport, fd: int): Listener {
    Listener(Made(t, fd), Hearing([], []))
  }

  function EventOf(turn: Turn): Option<Arrival<Addr>> {
    if turn.Serve? then Some(turn.ev) else None
  }

  /** The object's calls of once are those of the run; callbacks may be registered at any time between. */
  ghost predicate Follows(turns: seq<Turn>, states: seq<State>, actions: seq<Action>, n: nat,
                          a: nat, at: nat -> Addr)
    requires n <= |actions| && n < |states|
  {
    Pick(turns, EventOf) == Events(states, actions, n, a, at)
  }

  function Receives(c: Conn, evs: seq<Arrival<Addr>>): Conn {
    if evs == [] then c else Effect(Receives(c, evs[..|evs| - 1]), Op.Recv(evs[|evs| - 1]))
  }

  lemma ReceivesMore(c: Conn, evs: seq<Arrival<Addr>>, ev: Option<Arrival<Addr>>)
    ensures Receives(c, evs + One(ev)) ==
            if ev.Some? then Effect(Receives(c, evs), Op.Recv(ev.value)) else Receives(c, evs)
  {
    if ev.Some? {
      assert (evs + One(ev))[..|evs|] == evs;
    } else {
      assert evs + One(ev) == evs;
    }
  }

  lemma ActConn(l: Listener, size: nat, turn: Turn)
    ensures Act(l, size, turn).conn == if turn.Serve? then Effect(l.conn, Op.Recv(turn.ev)) else l.conn
  {
  }

  /** Callbacks do not touch the descriptor. */
  lemma {:induction false} LifeConn(l: Listener, size: nat, turns: seq<Turn>)
    ensures Life(l, size, turns).conn == Receives(l.conn, Pick(turns, EventOf))
  {
    if turns != [] {
      var init, turn := turns[..|turns| - 1], turns[|turns| - 1];
      assert turns == init + [turn];
      PickMore(init, turn, EventOf);
      LifeConn(l, size, init);
      ActConn(Life(l, size, init), size, turn);
      ReceivesMore(l.conn, Pick(init, EventOf), EventOf(turn));
    }
  }

  /** The system calls a step makes on the subscriber's socket, which socket() gave the descriptor `fd`. */
  function SubscriberCalls(e: Env, s: State, act: Action, a: nat, at: nat -> Addr, fd: nat): seq<KernelCall> {
    match act
    case Take(k) =>
      if k < |s.net| && s.net[k].dst == a then [Got(fd, Datagram(at(s.net[k].src), s.net[k].data))] else []
    case Expire(i) =>
      if i != a || i >= |s.subs| then []
      else if !s.subs[i].open then [Got(SOCKET_ERR, Timeout)]
      else if e.transport.Unix? then [Got(fd, Timeout), Closed(fd)]
      else [Got(fd, Timeout)]
    case _ => []
  }

  function SubscriberLog(e: Env, states: seq<State>, actions: seq<Action>, n: nat, a: nat, at: nat -> Addr, fd: nat)
    : seq<KernelCall>
    requires n <= |actions| && n < |states|
  {
    if n == 0 then [Opened(fd)]
    else SubscriberLog(e, states, actions, n - 1, a, at, fd) +
         SubscriberCalls(e, states[n - 1], actions[n - 1], a, at, fd)
  }

  /** The object's side of a subscriber that made these system calls. */
  function Held(t: Transport, sub: Sub, fd: nat, log: seq<KernelCall>): Conn {
    Conn(t, if sub.open then fd else SOCKET_ERR, log)
  }

  lemma StepConn(e: Env, s: State, act: Action, t: State, a: nat, at: nat -> Addr, fd: nat, log: seq<KernelCall>)
    requires Enabled(e, s, act) && t == Apply(e, s, act) && a < |s.subs|
    ensures a < |t.subs| && t.subs[a].size == s.subs[a].size
    ensures var ev, c := Event(s, act, a, at), Held(e.transport, s.subs[a], fd, log);
            Held(e.transport, t.subs[a], fd, log + SubscriberCalls(e, s, act, a, at, fd)) ==
            if ev.Some? then Effect(c, Op.Recv(ev.value)) else c
  {
    assert log + [] == log;
    assert log + [Got(fd, Timeout), Closed(fd)] == log + [Got(fd, Timeout)] + [Closed(fd)];
  }

  /** Receiving these events leaves the object with this log. */
  ghost predicate SameConn(e: Env, s: State, a: nat, size: nat, fd: nat, log: seq<KernelCall>,
                           evs: seq<Arrival<Addr>>)
  {
    a < |s.subs| && s.subs[a].size == size &&
    Receives(Made(e.transport, fd), evs) == Held(e.transport, s.subs[a], fd, log)
  }

  lemma MoreConn(e: Env, s: State, act: Action, t: State, a: nat, size: nat, at: nat -> Addr, fd: nat,
                 log: seq<KernelCall>, evs: seq<Arrival<Addr>>)
    requires Enabled(e, s, act) && t == Apply(e, s, act) && SameConn(e, s, a, size, fd, log, evs)
    ensures SameConn(e, t, a, size, fd, log + SubscriberCalls(e, s, act, a, at, fd), evs + One(Event(s, act, a, at)))
  {
    StepConn(e, s, act, t, a, at, fd, log);
    ReceivesMore(Made(e.transport, fd), evs, Event(s, act, a, at));
  }

  lemma {:induction false} EventsConn(e: Env, states: seq<State>, actions: seq<Action>, n: nat,
                                      a: nat, at: nat -> Addr, fd: nat)
    requires IsRun(e, states, actions) && n < |states|
    requires a < |states[0].subs| && states[0].subs[a].open
    ensures SameConn(e, states[n], a, states[0].subs[a].size, fd,
                     SubscriberLog(e, states, actions, n, a, at, fd), Events(states, actions, n, a, at))
    decreases n
  {
    if n > 0 {
      EventsConn(e, states, actions, n - 1, a, at, fd);
      var s, act, evs := states[n - 1], actions[n - 1], Events(states, actions, n - 1, a, at);
      var log := SubscriberLog(e, states, actions, n - 1, a, at, fd);
      MoreConn(e, s, act, states[n], a, states[0].subs[a].size, at, fd, log, evs);
    }
  }

  /** In every run, the system calls made for a subscriber are those of its object in its calls of once, and the
      object holds its descriptor exactly as long as the system has the subscriber open. */
  lemma SubscriberObject(e: Env, states: seq<State>, actions: seq<Action>, n: nat, a: nat,
                         at: nat -> Addr, fd: nat, turns: seq<Turn>)
    requires IsRun(e, states, actions) && n < |states|
    requires a < |states[0].subs| && states[0].subs[a].open && Follows(turns, states, actions, n, a, at)
    ensures a < |states[n].subs|
    ensures var sub := states[n].subs[a];
            Life(Fresh(e.transport, fd), sub.size, turns).conn ==
            Held(e.transport, sub, fd, SubscriberLog(e, states, actions, n, a, at, fd))
  {
    EventsConn(e, states, actions, n, a, at, fd);
    LifeConn(Fresh(e.transport, fd), states[n].subs[a].size, turns);
  }

  // ---- what its callbacks hear ----

  function AsOp(t: Transport, size: nat): Turn -> Option<SubOp> {
    (turn: Turn) =>
      match turn
      case AddCallback(f) => Some(Register(f))
      case Serve(ev) => if RecvOutcome(t, ev, size).Err? then None else Some(Receive(Received(ev, size)))
  }

  lemma ActHears(l: Listener, size: nat, turn: Turn)
    ensures var op := AsOp(l.conn.transport, size)(turn);
            Act(l, size, turn).hearing == (if op.Some? then Hear(l.hearing, op.value) else l.hearing) &&
            Act(l, size, turn).conn.transport == l.conn.transport
  {
  }

  lemma HearMore(h: Hearing, ops: seq<SubOp>, op: Option<SubOp>)
    ensures HearAll(h, ops + One(op)) == if op.Some? then Hear(HearAll(h, ops), op.value) else HearAll(h, ops)
  {
    if op.Some? {
      assert (ops + One(op))[..|ops|] == ops;
    } else {
      assert ops + One(op) == ops;
    }
  }

  lemma {:induction false} LifeHears(l: Listener, size: nat, turns: seq<Turn>)
    ensures var ops := Pick(turns, AsOp(l.conn.transport, size));
            Life(l, size, turns).hearing == HearAll(l.hearing, ops) &&
            Life(l, size, turns).conn.transport == l.conn.transport
  {
    if turns != [] {
      var init, turn := turns[..|turns| - 1], turns[|turns| - 1];
      var f := AsOp(l.conn.transport, size);
      assert turns == init + [turn];
      PickMore(init, turn, f);
      LifeHears(l, size, init);
      ActHears(Life(l, size, init), size, turn);
      HearMore(l.hearing, Pick(init, f), f(turn));
    }
  }

  /** The message a call of once hands to the callbacks, if any. */
  function Said(size: nat): Turn -> Option<Message> {
    (turn: Turn) => if turn.Serve? then SaidOf(size)(turn.ev) else None
  }

  function SaidOf(size: nat): Arrival<Addr> -> Option<Message> {
    (ev: Arrival<Addr>) => if Received(ev, size) == [] then None else Some(Received(ev, size))
  }

  lemma SaidIsNonEmpty(t: Transport, size: nat, turns: seq<Turn>)
    ensures Pick(Pick(turns, AsOp(t, size)), NonEmpty) == Pick(turns, Said(size))
  {
    forall turn | turn in turns
      ensures Said(size)(turn) == if AsOp(t, size)(turn).Some? then NonEmpty(AsOp(t, size)(turn).value) else None
    {
      match turn {
        case AddCallback(f) =>
        case Serve(ev) =>
          assert Said(size)(turn) == SaidOf(size)(ev);
          if RecvOutcome(t, ev, size).Err? {
            assert Received(ev, size) == [];
          } else {
            assert AsOp(t, size)(turn) == Some(Receive(Received(ev, size)));
          }
      }
    }
    PickPick(turns, AsOp(t, size), NonEmpty, Said(size));
  }

  /** A callback hears what the calls of once since its registration received. */
  lemma LifeHeard(t: Transport, fd: nat, size: nat, before: seq<Turn>, f: Handler, more: seq<Turn>)
    ensures var i := |Life(Fresh(t, fd), size, before).hearing.callbacks|;
            Heard(Life(Fresh(t, fd), size, before + [AddCallback(f)] + more).hearing, i) == Pick(more, Said(size))
  {
    var g := AsOp(t, size);
    LifeHears(Fresh(t, fd), size, before);
    LifeHears(Fresh(t, fd), size, before + [AddCallback(f)] + more);
    PickConcat(before + [AddCallback(f)], more, g);
    PickAppend(before, AddCallback(f), g);
    HeardAfterRegistration(Pick(before, g), f, Pick(more, g));
    SaidIsNonEmpty(t, size, more);
  }

  function To(a: nat): Dgram -> Option<Message> {
    (d: Dgram) => if d.dst == a then Some(d.data) else None
  }

  function Fitted(size: nat): Message -> Option<Message> {
    (m: Message) => if Fit(m, size) == [] then None else Some(Fit(m, size))
  }

  /** What callbacks see of messages: each cut or padded to the buffer, and none that is empty then. */
  function Shown(ms: seq<Message>, size: nat): seq<Message> {
    Pick(ms, Fitted(size))
  }

  function Payload(ev: Arrival<Addr>): Option<Message> {
    if ev.Datagram? then Some(ev.data) else None
  }

  lemma StepTakes(e: Env, s: State, act: Action, t: State, a: nat, at: nat -> Addr)
    requires Enabled(e, s, act) && t == Apply(e, s, act)
    ensures Pick(t.received, To(a)) == Pick(s.received, To(a)) + Pick(One(Event(s, act, a, at)), Payload)
  {
    PickOne(Event(s, act, a, at), Payload);
    if act.Take? {
      PickMore(s.received, s.net[act.k], To(a));
    } else {
      assert t.received == s.received;
    }
  }

  /** The datagrams among these events are those the subscriber received. */
  ghost predicate Takes(evs: seq<Arrival<Addr>>, s: State, a: nat) {
    Pick(evs, Payload) == Pick(s.received, To(a))
  }

  lemma MoreTakes(e: Env, s: State, act: Action, t: State, a: nat, at: nat -> Addr, evs: seq<Arrival<Addr>>)
    requires Enabled(e, s, act) && t == Apply(e, s, act) && Takes(evs, s, a)
    ensures Takes(evs + One(Event(s, act, a, at)), t, a)
  {
    StepTakes(e, s, act, t, a, at);
    PickConcat(evs, One(Event(s, act, a, at)), Payload);
  }

  lemma {:induction false} RunTakes(e: Env, states: seq<State>, actions: seq<Action>, n: nat, a: nat, at: nat -> Addr)
    requires IsRun(e, states, actions) && n < |states|
    ensures Takes(Events(states, actions, n, a, at), states[n], a)
    decreases n
  {
    if n > 0 {
      RunTakes(e, states, actions, n - 1, a, at);
      var evs := Events(states, actions, n - 1, a, at);
      MoreTakes(e, states[n - 1], actions[n - 1], states[n], a, at, evs);
    }
  }

  /** Whatever the network does: a callback's log is what the subscriber received, cut or padded, but for the
      messages before its registration. */
  lemma HeardIsReceived(e: Env, states: seq<State>, actions: seq<Action>, n: nat, a: nat,
                        at: nat -> Addr, fd: nat, size: nat, before: seq<Turn>, f: Handler, more: seq<Turn>)
    requires IsRun(e, states, actions) && n < |states|
    requires Follows(before + [AddCallback(f)] + more, states, actions, n, a, at)
    ensures var all := before + [AddCallback(f)] + more;
            var i := |Life(Fresh(e.transport, fd), size, before).hearing.callbacks|;
            Shown(Pick(states[n].received, To(a)), size) ==
            Pick(before, Said(size)) + Heard(Life(Fresh(e.transport, fd), size, all).hearing, i)
  {
    var all := before + [AddCallback(f)] + more;
    LifeHeard(e.transport, fd, size, before, f, more);
    RunTakes(e, states, actions, n, a, at);
    PickPick(Events(states, actions, n, a, at), Payload, Fitted(size), SaidOf(size));
    PickPick(all, EventOf, SaidOf(size), Said(size));
    PickConcat(before + [AddCallback(f)], more, Said(size));
    PickAppend(before, AddCallback(f), Said(size));
  }

  // ---- from publish to the callbacks ----

  ghost predicate Sources(s: State) {
    (forall d :: d in s.net ==> d.src < |s.pubs|) && (forall d :: d in s.received ==> d.src < |s.pubs|)
  }

  lemma StepSources(e: Env, s: State, act: Action)
    requires Enabled(e, s, act) && Sources(s)
    ensures Sources(Apply(e, s, act))
  {
  }

  lemma {:induction false} RunSources(e: Env, states: seq<State>, actions: seq<Action>, n: nat)
    requires IsRun(e, states, actions) && n < |states|
    ensures Sources(states[n]) && |states[n].pubs| == |states[0].pubs|
    decreases n
  {
    if n > 0 {
      RunSources(e, states, actions, n - 1);
      StepSources(e, states[n - 1], actions[n - 1]);
    }
  }

  /** A message as callbacks see it, and the publisher it came from. */
  datatype Tagged = Tagged(src: nat, msg: Message)

  function TagOf(a: nat, size: nat): Dgram -> Option<Tagged> {
    (d: Dgram) => if d.dst == a && Fit(d.data, size) != [] then Some(Tagged(d.src, Fit(d.data, size))) else None
  }

  function Untag(x: Tagged): Option<Message> {
    Some(x.msg)
  }

  function By(p: nat): Tagged -> Option<Message> {
    (x: Tagged) => if x.src == p then Some(x.msg) else None
  }

  function LandsFrom(p: nat, a: nat, size: nat): Dgram -> Option<Message> {
    (d: Dgram) => if d.src == p && d.dst == a && Fit(d.data, size) != [] then Some(Fit(d.data, size)) else None
  }

  /** A datagram as callbacks of `a` see it, if they do. */
  function Lands(a: nat, size: nat): Dgram -> Option<Message> {
    (d: Dgram) => if d.dst == a && Fit(d.data, size) != [] then Some(Fit(d.data, size)) else None
  }

  /** Without its tags the tagged log is the whole one ... */
  lemma UntagAll(q: seq<Dgram>, a: nat, size: nat)
    ensures Pick(Pick(q, TagOf(a, size)), Untag) == Shown(Pick(q, To(a)), size)
  {
    PickPick(q, TagOf(a, size), Untag, Lands(a, size));
    PickPick(q, To(a), Fitted(size), Lands(a, size));
  }

  /** ... and with one tag it is what came from that publisher. */
  lemma TaggedBy(q: seq<Dgram>, p: nat, a: nat, size: nat)
    ensures Pick(Pick(q, TagOf(a, size)), By(p)) == Shown(Stream(q, p, a), size)
  {
    PickPick(q, TagOf(a, size), By(p), LandsFrom(p, a, size));
    PickPick(q, Between(p, a), Fitted(size), LandsFrom(p, a, size));
  }

  lemma {:induction false} UntagLength(xs: seq<Tagged>)
    ensures |Pick(xs, Untag)| == |xs|
  {
    if xs != [] {
      UntagLength(xs[1..]);
    }
  }

  lemma SameSplit<T>(u: seq<T>, v: seq<T>, front: seq<T>, back: seq<T>)
    requires u + v == front + back && |u| == |front|
    ensures v == back
  {
    assert (u + v)[|u|..] == v;
    assert (front + back)[|front|..] == back;
  }

  lemma UntagRest(xs: seq<Tagged>, front: seq<Message>, back: seq<Message>)
    requires Pick(xs, Untag) == front + back
    ensures |front| <= |xs| && Pick(xs[|front|..], Untag) == back
  {
    UntagLength(xs);
    var us, vs := xs[..|front|], xs[|front|..];
    assert xs == us + vs;
    PickConcat(us, vs, Untag);
    UntagLength(us);
    SameSplit(Pick(us, Untag), Pick(vs, Untag), front, back);
  }

  /** What a callback heard of one publisher: a subsequence of what was published for the subscriber, cut or
      padded. Without loss, if it was there from the start, it is a beginning, and all of it once nothing is
      under way. */
  ghost predicate HeardOf(e: Env, s: State, p: nat, a: nat, size: nat, heard: seq<Message>, fromStart: bool)
    requires p < |s.pubs| && a < |s.subs|
  {
    var owed := Shown(Expand(s.pubs[p].history, a), size);
    Subsequence(heard, owed) &&
    (!e.lossy && fromStart ==>
      heard <= owed &&
      (s.subs[a].open && s.pubs[p].todo == [] && Stream(s.net, p, a) == [] ==> heard == owed))
  }

  lemma ReceivedOf(e: Env, states: seq<State>, actions: seq<Action>, n: nat, p: nat, a: nat, size: nat)
    requires IsRun(e, states, actions) && n < |states| && e.ordered
    requires p < |states[n].pubs| && p < |states[0].pubs| && a < |states[n].subs|
    ensures HeardOf(e, states[n], p, a, size, Shown(Stream(states[n].received, p, a), size), true)
  {
    var s := states[n];
    var got, owed := Stream(s.received, p, a), Expand(s.pubs[p].history, a);
    ReceivedInOrder(e, states, actions, n, p, a);
    SubsequencePick(got, owed, Fitted(size));
    if !e.lossy {
      ReceivedPrefix(e, states, actions, n, p, a);
      PrefixPick(got, owed, Fitted(size));
      if s.subs[a].open && s.pubs[p].todo == [] && Stream(s.net, p, a) == [] {
        AllReceived(e, states, actions, n, p, a);
      }
    }
  }

  lemma HeardSuffix(e: Env, s: State, p: nat, a: nat, size: nat, whole: seq<Message>,
                    front: seq<Message>, back: seq<Message>, fromStart: bool)
    requires p < |s.pubs| && a < |s.subs| && HeardOf(e, s, p, a, size, whole, true)
    requires whole == front + back && (fromStart ==> whole == back)
    ensures HeardOf(e, s, p, a, size, back, fromStart)
  {
    SubsequenceSuffix(front, back, Shown(Expand(s.pubs[p].history, a), size));
  }

  lemma HeardOfRest(e: Env, s: State, p: nat, a: nat, size: nat, xs: seq<Tagged>, k: nat)
    requires p < |s.pubs| && a < |s.subs| && k <= |xs| && HeardOf(e, s, p, a, size, Pick(xs, By(p)), true)
    ensures HeardOf(e, s, p, a, size, Pick(xs[k..], By(p)), k == 0)
  {
    assert xs == xs[..k] + xs[k..];
    assert k == 0 ==> xs[k..] == xs;
    PickConcat(xs[..k], xs[k..], By(p));
    HeardSuffix(e, s, p, a, size, Pick(xs, By(p)), Pick(xs[..k], By(p)), Pick(xs[k..], By(p)), k == 0);
  }

  lemma TagsAreSources(e: Env, states: seq<State>, actions: seq<Action>, n: nat, a: nat, size: nat)
    requires IsRun(e, states, actions) && n < |states|
    ensures forall x :: x in Pick(states[n].received, TagOf(a, size)) ==> x.src < |states[n].pubs|
  {
    RunSources(e, states, actions, n);
    forall x | x in Pick(states[n].received, TagOf(a, size)) ensures x.src < |states[n].pubs| {
      var i := PickFrom(states[n].received, TagOf(a, size), x);
    }
  }

  /** From publish to callback, over every run of an ordered network, with any publishers: the log of a callback
      is an interleaving of what it heard of each publisher. */
  lemma PublishersAreHeard(e: Env, states: seq<State>, actions: seq<Action>, n: nat, a: nat,
                           at: nat -> Addr, fd: nat, size: nat, before: seq<Turn>, f: Handler, more: seq<Turn>)
    returns (log: seq<Tagged>)
    requires IsRun(e, states, actions) && n < |states| && e.ordered && a < |states[n].subs|
    requires Follows(before + [AddCallback(f)] + more, states, actions, n, a, at)
    ensures var i := |Life(Fresh(e.transport, fd), size, before).hearing.callbacks|;
            Heard(Life(Fresh(e.transport, fd), size, before + [AddCallback(f)] + more).hearing, i) == Pick(log, Untag)
    ensures forall x :: x in log ==> x.src < |states[n].pubs|
    ensures forall p: nat :: p < |states[n].pubs| ==>
              HeardOf(e, states[n], p, a, size, Pick(log, By(p)), Pick(before, Said(size)) == [])
    ensures forall p: nat :: p < |states[n].pubs| ==>
              p < |states[0].pubs| && states[n].pubs[p].history == HistoryAt(states[0].pubs[p].addrs, actions, n, p)
  {
    var s := states[n];
    var all, early := Pick(s.received, TagOf(a, size)), Pick(before, Said(size));
    HeardIsReceived(e, states, actions, n, a, at, fd, size, before, f, more);
    LifeHeard(e.transport, fd, size, before, f, more);
    UntagAll(s.received, a, size);
    UntagRest(all, early, Pick(more, Said(size)));
    log := all[|early|..];
    TagsAreSources(e, states, actions, n, a, size);
    RunSources(e, states, actions, n);
    forall p: nat | p < |s.pubs|
      ensures p < |states[0].pubs| && s.pubs[p].history == HistoryAt(states[0].pubs[p].addrs, actions, n, p)
    {
      RunHistory(e, states, actions, n, p);
    }
    forall p: nat | p < |s.pubs| ensures HeardOf(e, s, p, a, size, Pick(log, By(p)), early == []) {
      TaggedBy(s.received, p, a, size);
      ReceivedOf(e, states, actions, n, p, a, size);
      HeardOfRest(e, s, p, a, size, all, |early|);
    }
  }

  /** No other publisher owes the address anything. */
  ghost predicate OnlyPublisher(s: State, p: nat, a: nat) {
    forall q :: 0 <= q < |s.pubs| && q != p ==> Expand(s.pubs[q].history, a) == []
  }

  lemma {:induction false} AllBy(xs: seq<Tagged>, p: nat)
    requires forall x :: x in xs ==> x.src == p
    ensures Pick(xs, By(p)) == Pick(xs, Untag)
  {
    PickSame(xs, By(p), Untag);
  }

  lemma NothingBy(xs: seq<Tagged>, q: nat)
    requires Pick(xs, By(q)) == []
    ensures forall x :: x in xs ==> x.src != q
  {
    forall x | x in xs && x.src == q ensures false {
      var j :| 0 <= j < |xs| && xs[j] == x;
      PickAt(xs, j, By(q));
    }
  }

  /** With one publisher the log of a callback is what it heard of that publisher. */
  lemma PublishedIsHeard(e: Env, states: seq<State>, actions: seq<Action>, n: nat, p: nat, a: nat,
                         at: nat -> Addr, fd: nat, size: nat, before: seq<Turn>, f: Handler, more: seq<Turn>)
    requires IsRun(e, states, actions) && n < |states| && e.ordered
    requires p < |states[n].pubs| && a < |states[n].subs| && OnlyPublisher(states[n], p, a)
    requires Follows(before + [AddCallback(f)] + more, states, actions, n, a, at)
    ensures var i := |Life(Fresh(e.transport, fd), size, before).hearing.callbacks|;
            var heard := Heard(Life(Fresh(e.transport, fd), size, before + [AddCallback(f)] + more).hearing, i);
            HeardOf(e, states[n], p, a, size, heard, Pick(before, Said(size)) == [])
  {
    var s := states[n];
    var log := PublishersAreHeard(e, states, actions, n, a, at, fd, size, before, f, more);
    forall x | x in log ensures x.src == p {
      if x.src != p {
        assert HeardOf(e, s, x.src, a, size, Pick(log, By(x.src)), Pick(before, Said(size)) == []);
        NothingBy(log, x.src);
      }
    }
    AllBy(log, p);
  }

  lemma AllReceived(e: Env, states: seq<State>, actions: seq<Action>, n: nat, p: nat, a: nat)
    requires IsRun(e, states, actions) && n < |states| && e.ordered && !e.lossy
    requires p < |states[0].pubs| && p < |states[n].pubs| && a < |states[n].subs| && states[n].subs[a].open
    requires states[n].pubs[p].todo == [] && Stream(states[n].net, p, a) == []
    ensures Stream(states[n].received, p, a) == Expand(states[n].pubs[p].history, a)
  {
    RunServed(e, states, actions, n, p, a);
    RunInOrder(e, states, actions, n, p, a);
  }

  // ---- the publisher object in a run ----

  /** The sends a step makes a publisher do. */
  function SendOf(s: State, act: Action, p: nat, at: nat -> Addr, fd: int): Option<KernelCall> {
    match act
    case SendNext(q, ok) =>
      if q == p && p < |s.pubs| && s.pubs[p].todo != [] && s.pubs[p].history != [] then
        var d := Sending(s, p);
        Some(Sent(fd, d.data, at(d.dst), if ok then |d.data| else -1))
      else None
    case _ => None
  }

  function Sends(states: seq<State>, actions: seq<Action>, n: nat, p: nat, at: nat -> Addr, fd: int)
    : seq<KernelCall>
    requires n <= |actions| && n < |states|
  {
    if n == 0 then []
    else Sends(states, actions, n - 1, p, at, fd) + One(SendOf(states[n - 1], actions[n - 1], p, at, fd))
  }

  function Addrs(regs: seq<nat>, at: nat -> Addr): seq<Addr> {
    seq(|regs|, i requires 0 <= i < |regs| => at(regs[i]))
  }

  /** One fan-out, with the results of its sends. */
  datatype Round = Round(data: Message, regs: seq<nat>, nums: seq<int>)

  predicate Complete(r: Round) {
    |r.nums| == |r.regs|
  }

  function OneRound(c: Conn, r: Round, at: nat -> Addr): Conn
    requires Complete(r)
  {
    FanOut(c, r.data, Addrs(r.regs, at), r.nums)
  }

  /** The object's descriptor after calls of publish. */
  function Publishes(c: Conn, rounds: seq<Round>, at: nat -> Addr): Conn
    requires forall i :: 0 <= i < |rounds| ==> Complete(rounds[i])
  {
    if rounds == [] then c
    else OneRound(Publishes(c, rounds[..|rounds| - 1], at), rounds[|rounds| - 1], at)
  }

  /** The calls of publish so far; of one under way, the sends already made. */
  ghost predicate PartDone(c: Conn, d: Conn, pub: Pub, rounds: seq<Round>, at: nat -> Addr) {
    |rounds| == |pub.history| && (pub.history == [] ==> pub.todo == []) &&
    (forall i :: 0 <= i < |rounds| ==> Complete(rounds[i])) && d == Publishes(c, rounds, at) &&
    (forall i :: 0 <= i < |rounds| - 1 ==> Of(rounds[i], pub.history[i])) &&
    (pub.history != [] ==>
      var h := |pub.history| - 1;
      rounds[h].data == pub.history[h].data && rounds[h].regs + pub.todo == pub.history[h].regs)
  }

  predicate Of(r: Round, pub: Publication) {
    r.data == pub.data && r.regs == pub.regs
  }

  lemma BeginRound(c: Conn, d: Conn, pub: Pub, data: Message, rounds: seq<Round>, at: nat -> Addr)
    requires PartDone(c, d, pub, rounds, at) && pub.todo == []
    ensures PartDone(c, d, Pub(pub.addrs, pub.history + [Publication(data, pub.addrs)], pub.addrs),
                     rounds + [Round(data, [], [])], at)
  {
    var rounds' := rounds + [Round(data, [], [])];
    assert rounds'[..|rounds|] == rounds;
    if pub.history != [] {
      var h := |pub.history| - 1;
      assert rounds[h].regs + [] == rounds[h].regs;
    }
    assert [] + pub.addrs == pub.addrs;
  }

  lemma RoundMore(c: Conn, r: Round, to: nat, num: int, at: nat -> Addr)
    requires Complete(r)
    ensures OneRound(c, Round(r.data, r.regs + [to], r.nums + [num]), at) ==
            Effect(OneRound(c, r, at), Op.SendTo(r.data, at(to), num))
  {
    var addrs := Addrs(r.regs + [to], at);
    assert addrs[..|r.regs|] == Addrs(r.regs, at);
    assert (r.nums + [num])[..|r.nums|] == r.nums;
  }

  lemma PublishesLast(c: Conn, rounds: seq<Round>, r: Round, at: nat -> Addr)
    requires (forall i :: 0 <= i < |rounds| ==> Complete(rounds[i])) && Complete(r)
    ensures Publishes(c, rounds + [r], at) == OneRound(Publishes(c, rounds, at), r, at)
  {
    assert (rounds + [r])[..|rounds|] == rounds;
  }

  /** The last round with one send more. */
  lemma PartMore(c: Conn, d: Conn, pub: Pub, rounds: seq<Round>, r: Round, num: int, at: nat -> Addr)
    requires PartDone(c, d, pub, rounds + [r], at) && pub.todo != []
    ensures var r' := Round(r.data, r.regs + [pub.todo[0]], r.nums + [num]);
            Complete(r') && PartDone(c, Effect(d, Op.SendTo(r.data, at(pub.todo[0]), num)),
                                     pub.(todo := pub.todo[1..]), rounds + [r'], at)
  {
    var all := rounds + [r];
    assert Complete(all[|rounds|]) && forall i :: 0 <= i < |rounds| ==> all[i] == rounds[i];
    PublishesMore(c, rounds, r, pub.todo[0], num, at);
    MovedOver(r.regs, pub.todo);
  }

  lemma MoreOfRound(c: Conn, d: Conn, pub: Pub, rounds: seq<Round>, num: int, at: nat -> Addr)
    returns (rounds': seq<Round>)
    requires PartDone(c, d, pub, rounds, at) && pub.todo != []
    ensures var data := pub.history[|pub.history| - 1].data;
            PartDone(c, Effect(d, Op.SendTo(data, at(pub.todo[0]), num)), pub.(todo := pub.todo[1..]), rounds', at)
  {
    var h := |rounds| - 1;
    var r := rounds[h];
    assert rounds == rounds[..h] + [r];
    PartMore(c, d, pub, rounds[..h], r, num, at);
    rounds' := rounds[..h] + [Round(r.data, r.regs + [pub.todo[0]], r.nums + [num])];
  }

  lemma MovedOver(regs: seq<nat>, todo: seq<nat>)
    requires todo != []
    ensures regs + [todo[0]] + todo[1..] == regs + todo
  {
  }

  lemma PublishesMore(c: Conn, rounds: seq<Round>, r: Round, to: nat, num: int, at: nat -> Addr)
    requires (forall i :: 0 <= i < |rounds| ==> Complete(rounds[i])) && Complete(r)
    ensures var r' := Round(r.data, r.regs + [to], r.nums + [num]);
            Publishes(c, rounds + [r'], at) ==
            Effect(Publishes(c, rounds + [r], at), Op.SendTo(r.data, at(to), num))
  {
    RoundMore(Publishes(c, rounds, at), r, to, num, at);
    PublishesLast(c, rounds, r, at);
    PublishesLast(c, rounds, Round(r.data, r.regs + [to], r.nums + [num]), at);
  }

  ghost predicate PublisherIs(e: Env, states: seq<State>, actions: seq<Action>, n: nat, p: nat,
                              at: nat -> Addr, fd: nat, rounds: seq<Round>)
    requires IsRun(e, states, actions) && n < |states|
  {
    p < |states[n].pubs| &&
    PartDone(Made(e.transport, fd), Conn(e.transport, fd, [Opened(fd)] + Sends(states, actions, n, p, at, fd)),
             states[n].pubs[p], rounds, at)
  }

  lemma NoRounds(e: Env, states: seq<State>, actions: seq<Action>, p: nat, at: nat -> Addr, fd: nat)
    requires IsRun(e, states, actions) && p < |states[0].pubs|
    ensures PublisherIs(e, states, actions, 0, p, at, fd, [])
  {
  }

  lemma MoreMade(e: Env, states: seq<State>, actions: seq<Action>, m: nat, p: nat, at: nat -> Addr, fd: nat,
                 rounds: seq<Round>) returns (rounds': seq<Round>)
    requires IsRun(e, states, actions) && m < |actions| && PublisherIs(e, states, actions, m, p, at, fd, rounds)
    ensures PublisherIs(e, states, actions, m + 1, p, at, fd, rounds')
  {
    var sends := Sends(states, actions, m, p, at, fd);
    rounds' := MoreRounds(e, states[m], actions[m], states[m + 1], Made(e.transport, fd), sends, rounds, p, at, fd);
  }

  lemma {:induction false} PublisherMade(e: Env, states: seq<State>, actions: seq<Action>, n: nat, p: nat,
                                         at: nat -> Addr, fd: nat) returns (rounds: seq<Round>)
    requires IsRun(e, states, actions) && n < |states| && p < |states[0].pubs|
    ensures PublisherIs(e, states, actions, n, p, at, fd, rounds)
    decreases n
  {
    if n == 0 {
      rounds := [];
      NoRounds(e, states, actions, p, at, fd);
    } else {
      rounds := PublisherMade(e, states, actions, n - 1, p, at, fd);
      rounds := MoreMade(e, states, actions, n - 1, p, at, fd, rounds);
    }
  }

  /** In every run, the sends the system makes for a publisher are those its object makes in calls of publish:
      one call for each publish among the actions, with the addresses registered before it; the last may be
      under way. */
  lemma PublisherObject(e: Env, states: seq<State>, actions: seq<Action>, n: nat, p: nat, at: nat -> Addr, fd: nat)
    returns (rounds: seq<Round>)
    requires IsRun(e, states, actions) && n < |states| && p < |states[0].pubs|
    ensures p < |states[n].pubs|
    ensures var start, todo := states[0].pubs[p].addrs, states[n].pubs[p].todo;
            var pub := Pub(AddrsAt(start, actions, n, p), HistoryAt(start, actions, n, p), todo);
            var sends := Sends(states, actions, n, p, at, fd);
            PartDone(Made(e.transport, fd), Conn(e.transport, fd, [Opened(fd)] + sends), pub, rounds, at) &&
            (todo == [] ==> forall i :: 0 <= i < |rounds| ==> Of(rounds[i], pub.history[i]))
  {
    rounds := PublisherMade(e, states, actions, n, p, at, fd);
    RunHistory(e, states, actions, n, p);
    if states[n].pubs[p].todo == [] {
      var sends := Sends(states, actions, n, p, at, fd);
      LastRound(states[n].pubs[p], rounds, Made(e.transport, fd), Conn(e.transport, fd, [Opened(fd)] + sends), at);
    }
  }

  lemma LastRound(pub: Pub, rounds: seq<Round>, c: Conn, d: Conn, at: nat -> Addr)
    requires PartDone(c, d, pub, rounds, at) && pub.todo == []
    ensures forall i :: 0 <= i < |rounds| ==> Of(rounds[i], pub.history[i])
  {
    if rounds != [] {
      var r := rounds[|rounds| - 1];
      assert r.regs + [] == r.regs;
    }
  }

  lemma MoreRounds(e: Env, s: State, act: Action, t: State, c: Conn, sends: seq<KernelCall>, rounds: seq<Round>,
                   p: nat, at: nat -> Addr, fd: nat) returns (rounds': seq<Round>)
    requires Enabled(e, s, act) && t == Apply(e, s, act) && p < |s.pubs|
    requires PartDone(c, Conn(e.transport, fd, [Opened(fd)] + sends), s.pubs[p], rounds, at)
    ensures p < |t.pubs|
    ensures var sends' := sends + One(SendOf(s, act, p, at, fd));
            PartDone(c, Conn(e.transport, fd, [Opened(fd)] + sends'), t.pubs[p], rounds', at)
  {
    rounds' := StepRounds(e, s, act, t, c, Conn(e.transport, fd, [Opened(fd)] + sends), rounds, p, at);
    assert [Opened(fd)] + sends + One(SendOf(s, act, p, at, fd)) ==
           [Opened(fd)] + (sends + One(SendOf(s, act, p, at, fd)));
  }

  lemma StepRounds(e: Env, s: State, act: Action, t: State, c: Conn, d: Conn, rounds: seq<Round>, p: nat,
                   at: nat -> Addr) returns (rounds': seq<Round>)
    requires Enabled(e, s, act) && t == Apply(e, s, act) && p < |s.pubs| && PartDone(c, d, s.pubs[p], rounds, at)
    ensures p < |t.pubs| && PartDone(c, d.(log := d.log + One(SendOf(s, act, p, at, d.fd))), t.pubs[p], rounds', at)
  {
    NoCall(d);
    if act.Publish? && act.p == p {
      rounds' := rounds + [Round(act.data, [], [])];
      BeginRound(c, d, s.pubs[p], act.data, rounds, at);
    } else if act.SendNext? && act.p == p {
      rounds' := SendRound(s, act.ok, c, d, rounds, p, at);
    } else {
      rounds' := rounds;
      Untouched(e, s, act, t, p, at, d.fd);
      SamePart(c, d, s.pubs[p], t.pubs[p], rounds, at);
    }
  }

  lemma NoCall(d: Conn)
    ensures d.(log := d.log + One(None)) == d
  {
    assert d.log + [] == d.log;
  }

  lemma SendRound(s: State, ok: bool, c: Conn, d: Conn, rounds: seq<Round>, p: nat, at: nat -> Addr)
    returns (rounds': seq<Round>)
    requires p < |s.pubs| && s.pubs[p].todo != [] && s.pubs[p].history != [] && PartDone(c, d, s.pubs[p], rounds, at)
    ensures var t := AfterSendNext(s, p, ok);
            |t.pubs| == |s.pubs| &&
            PartDone(c, d.(log := d.log + One(SendOf(s, SendNext(p, ok), p, at, d.fd))), t.pubs[p], rounds', at)
  {
    var num := if ok then |Sending(s, p).data| else -1;
    rounds' := MoreOfRound(c, d, s.pubs[p], rounds, num, at);
  }

  lemma Untouched(e: Env, s: State, act: Action, t: State, p: nat, at: nat -> Addr, fd: int)
    requires Enabled(e, s, act) && t == Apply(e, s, act) && p < |s.pubs|
    requires !(act.Publish? && act.p == p) && !(act.SendNext? && act.p == p)
    ensures |t.pubs| == |s.pubs| && SendOf(s, act, p, at, fd) == None
    ensures t.pubs[p].history == s.pubs[p].history && t.pubs[p].todo == s.pubs[p].todo
  {
  }

  lemma SamePart(c: Conn, d: Conn, pub: Pub, pub': Pub, rounds: seq<Round>, at: nat -> Addr)
    requires PartDone(c, d, pub, rounds, at) && pub'.history == pub.history && pub'.todo == pub.todo
    ensures PartDone(c, d, pub', rounds, at)
  {
  }
}
