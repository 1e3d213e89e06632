/** Without loss and timeouts every schedule of finitely many calls finishes, always after the same number
    of steps. */
module CallLiveness {
  import opened Wire
  import opened Calls
  import opened CallLedger
  import opened CallSafety

  /** What each client is going to call: message and address, in order. */
  type Programs = seq<seq<(Message, nat)>>

  ghost predicate Reliable(e: Env, prog: Programs, s: State) {
    !e.lossy && !e.timeouts && |prog| == |s.clients| &&
    (forall i :: 0 <= i < |s.servers| ==> s.servers[i].size > 0) &&
    (forall c, j :: 0 <= c < |prog| && 0 <= j < |prog[c]| ==> prog[c][j].0 != [] && prog[c][j].1 < |s.servers|)
  }

  /** The steps of calls that follow the programs. */
  ghost predicate Scripted(e: Env, prog: Programs, s: State, a: Action) {
    Enabled(e, s, a) &&
    match a
    case Send(c, msg, addr, _) =>
      c < |prog| && |s.clients[c].asked| < |prog[c]| && (msg, addr) == prog[c][|s.clients[c].asked|]
    case Deliver(_) => true
    case ServeRecv(_) => true
    case ServeSend(_, accepted) => accepted
    case _ => false
  }

  function Left(prog: Programs, clients: seq<Client>, n: nat): int
    requires n <= |prog| && n <= |clients|
  {
    if n == 0 then 0 else Left(prog, clients, n - 1) + |prog[n - 1]| - |clients[n - 1].asked|
  }

  /** Four steps for each call not yet made, and what is left of each call under way. */
  function Measure(prog: Programs, s: State): int
    requires |prog| == |s.clients|
  {
    4 * Left(prog, s.clients, |prog|) + 3 * |s.requests| + 2 * |s.held| + |s.replies|
  }

  function Total(prog: Programs, n: nat): nat
    requires n <= |prog|
  {
    if n == 0 then 0 else Total(prog, n - 1) + |prog[n - 1]|
  }

  ghost predicate Finished(prog: Programs, s: State)
    requires |prog| == |s.clients|
  {
    forall c :: 0 <= c < |s.clients| ==> s.clients[c].status.Idle? && |s.clients[c].asked| == |prog[c]|
  }

  ghost predicate OnScript(prog: Programs, s: State, c: nat)
    requires c < |s.clients| && c < |prog|
  {
    var cl := s.clients[c];
    !cl.status.Closed? && |cl.asked| <= |prog[c]| &&
    (forall j :: 0 <= j < |cl.asked| ==> (cl.asked[j].msg, cl.asked[j].addr) == prog[c][j]) &&
    (forall j :: 0 <= j < |cl.got| ==> cl.got[j].Returned?)
  }

  /** No request is lost or discarded, and a delivered reply belongs to a finished call. */
  ghost predicate Kept(s: State) {
    s.lost == s.discarded == [] && DeliveredIsDone(s)
  }

  ghost predicate LiveInv(e: Env, prog: Programs, s: State) {
    Reliable(e, prog, s) && Inv(s) && OneOutstanding(s) && OwnSources(s) && Kept(s) &&
    forall c :: 0 <= c < |s.clients| ==> OnScript(prog, s, c)
  }

  lemma SendOnScript(prog: Programs, s: State, x: nat, msg: Message, addr: nat, accepted: bool, c: nat)
    requires x < |s.clients| && x < |prog| && c < |s.clients| && c < |prog| && OnScript(prog, s, c)
    requires x == c ==> |s.clients[c].asked| < |prog[c]| && (msg, addr) == prog[c][|s.clients[c].asked|]
    ensures OnScript(prog, AfterSend(s, x, msg, addr, accepted), c)
  {
    if x != c {
      assert AfterSend(s, x, msg, addr, accepted).clients[c] == s.clients[c];
    }
  }

  lemma DeliverOnScript(prog: Programs, s: State, k: nat, c: nat)
    requires k < |s.replies| && s.replies[k].dst < |s.clients|
    requires c < |s.clients| && c < |prog| && OnScript(prog, s, c)
    ensures OnScript(prog, AfterDeliver(s, k), c)
  {
  }

  lemma StepOnScript(e: Env, prog: Programs, s: State, a: Action, c: nat)
    requires LiveInv(e, prog, s) && Scripted(e, prog, s, a) && c < |s.clients|
    ensures c < |Apply(e, s, a).clients| && OnScript(prog, Apply(e, s, a), c)
  {
    assert OnScript(prog, s, c);
    if a.Send? {
      SendOnScript(prog, s, a.c, a.msg, a.addr, a.accepted, c);
    } else if a.Deliver? {
      DeliverOnScript(prog, s, a.k, c);
    } else {
      assert Apply(e, s, a).clients == s.clients;
    }
  }

  lemma ServeKept(e: Env, prog: Programs, s: State, k: nat)
    requires LiveInv(e, prog, s) && Enabled(e, s, ServeRecv(k))
    ensures AfterServeRecv(s, k).discarded == []
  {
    var p := s.requests[k];
    assert RequestOk(s, p);
    assert OnScript(prog, s, p.id.client);
    FitShape(p.data, s.servers[p.dst].size);
  }

  lemma StepKept(e: Env, prog: Programs, s: State, a: Action)
    requires LiveInv(e, prog, s) && Scripted(e, prog, s, a)
    ensures Kept(Apply(e, s, a))
  {
    StepDeliveredIsDone(e, s, a, Apply(e, s, a));
    if a.ServeRecv? {
      ServeKept(e, prog, s, a.k);
    } else if a.Send? {
      assert OnScript(prog, s, a.c);
    }
  }

  lemma StepLiveInv(e: Env, prog: Programs, s: State, a: Action)
    requires LiveInv(e, prog, s) && Scripted(e, prog, s, a)
    ensures LiveInv(e, prog, Apply(e, s, a))
  {
    StepInv(e, s, a);
    StepOneOutstanding(e, s, a);
    StepOwnSources(e, s, a, Apply(e, s, a));
    StepKept(e, prog, s, a);
    StepGrows(e, s, a);
    forall c | 0 <= c < |s.clients| ensures OnScript(prog, Apply(e, s, a), c) {
      StepOnScript(e, prog, s, a, c);
    }
  }

  // ---- the measure ----

  lemma {:induction false} LeftSame(prog: Programs, cs: seq<Client>, cs': seq<Client>, n: nat)
    requires n <= |prog| && n <= |cs| == |cs'|
    requires forall c :: 0 <= c < n ==> |cs'[c].asked| == |cs[c].asked|
    ensures Left(prog, cs', n) == Left(prog, cs, n)
  {
    if n > 0 {
      LeftSame(prog, cs, cs', n - 1);
    }
  }

  lemma {:induction false} LeftOneLess(prog: Programs, cs: seq<Client>, cs': seq<Client>, n: nat, x: nat)
    requires x < n <= |prog| && n <= |cs| == |cs'|
    requires forall c :: 0 <= c < n ==> |cs'[c].asked| == |cs[c].asked| + if c == x then 1 else 0
    ensures Left(prog, cs', n) == Left(prog, cs, n) - 1
  {
    if x == n - 1 {
      LeftSame(prog, cs, cs', n - 1);
    } else {
      LeftOneLess(prog, cs, cs', n - 1, x);
    }
  }

  lemma {:induction false} LeftBounds(prog: Programs, cs: seq<Client>, n: nat)
    requires n <= |prog| && n <= |cs| && forall c :: 0 <= c < n ==> |cs[c].asked| <= |prog[c]|
    ensures Left(prog, cs, n) >= 0
    ensures Left(prog, cs, n) == 0 <==> forall c :: 0 <= c < n ==> |cs[c].asked| == |prog[c]|
  {
    if n > 0 {
      LeftBounds(prog, cs, n - 1);
    }
  }

  lemma {:induction false} LeftAtStart(prog: Programs, cs: seq<Client>, n: nat)
    requires n <= |prog| && n <= |cs| && forall c :: 0 <= c < n ==> cs[c].asked == []
    ensures Left(prog, cs, n) == Total(prog, n)
  {
    if n > 0 {
      LeftAtStart(prog, cs, n - 1);
    }
  }

  lemma SendDrops(e: Env, prog: Programs, s: State, c: nat, msg: Message, addr: nat, accepted: bool)
    requires LiveInv(e, prog, s) && Scripted(e, prog, s, Send(c, msg, addr, accepted))
    ensures Measure(prog, AfterSend(s, c, msg, addr, accepted)) == Measure(prog, s) - 1
  {
    var t := AfterSend(s, c, msg, addr, accepted);
    assert OnScript(prog, s, c);
    assert accepted;
    LeftOneLess(prog, s.clients, t.clients, |prog|, c);
  }

  lemma MoveDrops(e: Env, prog: Programs, s: State, a: Action)
    requires LiveInv(e, prog, s) && Scripted(e, prog, s, a) && !a.Send?
    ensures |Apply(e, s, a).clients| == |prog| && Measure(prog, Apply(e, s, a)) == Measure(prog, s) - 1
  {
    var t := Apply(e, s, a);
    LeftSame(prog, s.clients, t.clients, |prog|);
    if a.ServeRecv? {
      ServeKept(e, prog, s, a.k);
    }
  }

  /** Every step of every schedule takes exactly one off the measure. */
  lemma StepDrops(e: Env, prog: Programs, s: State, a: Action)
    requires LiveInv(e, prog, s) && Scripted(e, prog, s, a)
    ensures |Apply(e, s, a).clients| == |prog| && Measure(prog, Apply(e, s, a)) == Measure(prog, s) - 1
  {
    if a.Send? {
      SendDrops(e, prog, s, a.c, a.msg, a.addr, a.accepted);
    } else {
      MoveDrops(e, prog, s, a);
    }
  }

  // ---- progress ----

  ghost predicate NothingUnderWay(s: State) {
    s.requests == s.held == s.replies == []
  }

  lemma DeliveredWhenQuiet(s: State, id: Id)
    requires Inv(s) && Kept(s) && NothingUnderWay(s) && Issued(s, id)
    ensures id in s.delivered
  {
  }

  /** A waiting client's request is under way somewhere. */
  lemma QuietMeansIdle(e: Env, prog: Programs, s: State, c: nat)
    requires LiveInv(e, prog, s) && NothingUnderWay(s) && c < |s.clients|
    ensures s.clients[c].status.Idle?
  {
    assert OnScript(prog, s, c) && ClientOk(s, c);
    if s.clients[c].status.Waiting? {
      DeliveredWhenQuiet(s, Id(c, |s.clients[c].got|));
    }
  }

  /** Whatever is under way belongs to a client that is not idle. */
  lemma SomeoneWaits(s: State, p: Packet)
    requires OneOutstanding(s) && (p in s.requests || p in s.held || p in s.replies)
    ensures exists c :: 0 <= c < |s.clients| && !s.clients[c].status.Idle?
  {
  }

  lemma IdleMeansQuiet(s: State)
    requires OneOutstanding(s) && forall c :: 0 <= c < |s.clients| ==> s.clients[c].status.Idle?
    ensures NothingUnderWay(s)
  {
    var q := s.requests + s.held + s.replies;
    if q != [] {
      SomeoneWaits(s, q[0]);
    }
  }

  lemma MeasureZero(e: Env, prog: Programs, s: State)
    requires LiveInv(e, prog, s)
    ensures Measure(prog, s) >= 0 && (Measure(prog, s) == 0 <==> Finished(prog, s))
  {
    forall c | 0 <= c < |s.clients| ensures |s.clients[c].asked| <= |prog[c]| {
      assert OnScript(prog, s, c);
    }
    LeftBounds(prog, s.clients, |prog|);
    if Measure(prog, s) == 0 {
      forall c | 0 <= c < |s.clients| ensures s.clients[c].status.Idle? {
        QuietMeansIdle(e, prog, s, c);
      }
    } else if Finished(prog, s) {
      IdleMeansQuiet(s);
    }
  }

  lemma DeliverEnabled(e: Env, prog: Programs, s: State)
    requires LiveInv(e, prog, s) && s.replies != []
    ensures Scripted(e, prog, s, Deliver(0))
  {
    var p := s.replies[0];
    assert ReplyOk(s, p) && OfCurrentCall(s, p) && OnScript(prog, s, p.dst);
  }

  lemma ServeEnabled(e: Env, prog: Programs, s: State)
    requires LiveInv(e, prog, s) && s.requests != [] && s.held == []
    ensures Scripted(e, prog, s, ServeRecv(0))
  {
  }

  /** Until all calls are finished, some step is enabled. */
  lemma NoDeadlock(e: Env, prog: Programs, s: State) returns (a: Action)
    requires LiveInv(e, prog, s) && !Finished(prog, s)
    ensures Scripted(e, prog, s, a)
  {
    if s.replies != [] {
      DeliverEnabled(e, prog, s);
      a := Deliver(0);
    } else if s.held != [] {
      a := ServeSend(0, true);
    } else if s.requests != [] {
      ServeEnabled(e, prog, s);
      a := ServeRecv(0);
    } else {
      a := NextCall(e, prog, s);
    }
  }

  lemma NextCall(e: Env, prog: Programs, s: State) returns (a: Action)
    requires LiveInv(e, prog, s) && !Finished(prog, s) && NothingUnderWay(s)
    ensures Scripted(e, prog, s, a)
  {
    var c :| 0 <= c < |s.clients| && !(s.clients[c].status.Idle? && |s.clients[c].asked| == |prog[c]|);
    QuietMeansIdle(e, prog, s, c);
    assert OnScript(prog, s, c);
    var next := prog[c][|s.clients[c].asked|];
    a := Send(c, next.0, next.1, true);
  }

  // ---- whole runs ----

  ghost predicate IsScriptedRun(e: Env, prog: Programs, states: seq<State>, actions: seq<Action>) {
    IsRun(e, states, actions) && Reliable(e, prog, states[0]) &&
    forall i {:trigger actions[i]} :: 0 <= i < |actions| ==> Scripted(e, prog, states[i], actions[i])
  }

  lemma InitLiveInv(e: Env, prog: Programs, s: State)
    requires Init(s) && Reliable(e, prog, s)
    ensures LiveInv(e, prog, s) && Measure(prog, s) == 4 * Total(prog, |prog|)
  {
    InitInv(s);
    LeftAtStart(prog, s.clients, |prog|);
  }

  lemma {:induction false} RunMeasure(e: Env, prog: Programs, states: seq<State>, actions: seq<Action>, n: nat)
    requires IsScriptedRun(e, prog, states, actions) && n < |states|
    ensures LiveInv(e, prog, states[n]) && Measure(prog, states[n]) == 4 * Total(prog, |prog|) - n
    decreases n
  {
    if n == 0 {
      InitLiveInv(e, prog, states[0]);
    } else {
      RunMeasure(e, prog, states, actions, n - 1);
      StepLiveInv(e, prog, states[n - 1], actions[n - 1]);
      StepDrops(e, prog, states[n - 1], actions[n - 1]);
    }
  }

  /** Every schedule takes four steps per call: it cannot be longer, it can go on while it is shorter, and
      then every call of every client has returned its own answer. */
  lemma EverySchedule(e: Env, prog: Programs, states: seq<State>, actions: seq<Action>)
    requires IsScriptedRun(e, prog, states, actions)
    ensures var end := states[|actions|];
            |prog| == |end.clients| && |actions| <= 4 * Total(prog, |prog|) &&
            (|actions| < 4 * Total(prog, |prog|) ==> exists a :: Scripted(e, prog, end, a)) &&
            (|actions| == 4 * Total(prog, |prog|) <==> Finished(prog, end))
    ensures var end := states[|actions|];
            Finished(prog, end) ==>
              forall c :: 0 <= c < |prog| ==> AllAnswered(prog, end, c)
  {
    var end := states[|actions|];
    RunMeasure(e, prog, states, actions, |actions|);
    MeasureZero(e, prog, end);
    if Finished(prog, end) {
      forall c | 0 <= c < |prog| ensures AllAnswered(prog, end, c) {
        Answered(e, prog, states, actions, c);
      }
    } else {
      var a := NoDeadlock(e, prog, end);
    }
  }

  /** Each call of the program was made and returned its own answer. */
  ghost predicate AllAnswered(prog: Programs, s: State, c: nat)
    requires c < |s.clients| && c < |prog|
  {
    var cl := s.clients[c];
    |cl.asked| == |cl.got| == |prog[c]| &&
    forall j :: 0 <= j < |prog[c]| ==>
      (cl.asked[j].msg, cl.asked[j].addr) == prog[c][j] && cl.got[j].Returned? && GotOwnAnswer(s, c, j)
  }

  lemma Answered(e: Env, prog: Programs, states: seq<State>, actions: seq<Action>, c: nat)
    requires IsRun(e, states, actions)
    requires var end := states[|actions|]; LiveInv(e, prog, end) && Finished(prog, end) && c < |prog|
    ensures AllAnswered(prog, states[|actions|], c)
  {
    var end := states[|actions|];
    assert ClientOk(end, c) && OnScript(prog, end, c);
    forall j | 0 <= j < |prog[c]| ensures GotOwnAnswer(end, c, j) {
      OwnAnswer(e, states, actions, |actions|, c, j);
    }
  }
}
