/** A request and its reply as typed values, from the struct codec through the call system. */
module TypedCall {
  import opened Wire
  import opened Messages
  import opened Calls
  import opened CallSafety

  /** A callback that unpacks its message, computes, and packs the result. A buffer of another size is
      outside what unpack accepts; such a server does not answer it. */
  function Typed(ins: Schema, outs: Schema, f: seq<nat> -> seq<nat>): Callback {
    (m: Message) =>
      if |m| != SizeOf(ins) then []
      else
        var y := f(Reading(ins, m));
        if |y| == |outs| then Image(outs, y) else []
  }

  /** With matching buffer sizes, a completed call on a typed server returns bytes that unpack to the
      function of the value that was packed. */
  lemma TypedCallReturns(e: Env, states: seq<State>, actions: seq<Action>, n: nat, c: nat, j: nat,
                         ins: Schema, outs: Schema, f: seq<nat> -> seq<nat>, x: seq<nat>)
    requires IsRun(e, states, actions) && n < |states| && Blocking(e)
    requires c < |states[n].clients| && j < |states[n].clients[c].got| && states[n].clients[c].got[j].Returned?
    requires j < |states[n].clients[c].asked|
    requires WellTyped(ins, x) && WellTyped(outs, f(x))
    requires var s := states[n];
             var a := s.clients[c].asked[j];
             a.msg == Image(ins, x) && s.clients[c].size == SizeOf(outs) &&
             (a.addr < |s.servers| && a.addr < |states[0].servers| ==>
               var srv := s.servers[a.addr];
               srv.size == SizeOf(ins) && srv.cbs == states[0].servers[a.addr].cbs && srv.cbs != [] &&
               srv.cbs[|srv.cbs| - 1] == Typed(ins, outs, f))
    ensures var m := states[n].clients[c].got[j].msg;
            |m| == SizeOf(outs) && Reading(outs, m) == f(x)
  {
    OwnAnswerOf(e, states, actions, n, c, j, Typed(ins, outs, f));
    CallbacksGrow(e, states, actions, n);
    FitShape(Image(ins, x), SizeOf(ins));
    StructRoundTrip(ins, x);
    FitShape(Image(outs, f(x)), SizeOf(outs));
    StructRoundTrip(outs, f(x));
  }
}
