/** The publishing loops: one envelope after another, stopping at the first fatal refusal. */
module Delivery {
  import opened Facts
  import opened StateStore
  import opened Envelopes
  import opened Publish

  /** The first n envelopes of each kind of list. */
  function Gaps(network: string, gaps: seq<Gap>, n: nat): seq<Envelope>
    requires n <= |gaps|
  {
    if n == 0 then [] else Gaps(network, gaps, n - 1) + [GapEnvelope(network, gaps[n - 1])]
  }

  function Events(network: string, facts: seq<Fact>, n: nat): seq<Envelope>
    requires n <= |facts|
  {
    if n == 0 then [] else Events(network, facts, n - 1) + [FromEscrowEvent(network, facts[n - 1])]
  }

  function States(network: string, changes: seq<StateChange>, n: nat): seq<Envelope>
    requires n <= |changes|
  {
    if n == 0 then [] else States(network, changes, n - 1) + [FromStateChange(network, changes[n - 1])]
  }

  /** The last n of these deliveries are the first n of the list, in order and field by field. */
  predicate GapsSaid(network: string, gaps: seq<Gap>, n: nat, was: seq<Envelope>, now: seq<Envelope>)
    requires n <= |gaps|
  {
    |now| == |was| + n && was <= now && forall i :: 0 <= i < n ==> SaysGap(network, gaps[i], now[|was| + i])
  }

  predicate EventsSaid(network: string, facts: seq<Fact>, n: nat, was: seq<Envelope>, now: seq<Envelope>)
    requires n <= |facts|
  {
    |now| == |was| + n && was <= now && forall i :: 0 <= i < n ==> SaysFact(network, facts[i], now[|was| + i])
  }

  predicate StatesSaid(network: string, changes: seq<StateChange>, n: nat, was: seq<Envelope>, now: seq<Envelope>)
    requires n <= |changes|
  {
    |now| == |was| + n && was <= now && forall i :: 0 <= i < n ==> SaysState(network, changes[i], now[|was| + i])
  }

  lemma {:induction false} SayingGaps(network: string, gaps: seq<Gap>, n: nat, was: seq<Envelope>)
    requires n <= |gaps|
    ensures GapsSaid(network, gaps, n, was, was + Gaps(network, gaps, n))
  {
    if n > 0 {
      SayingGaps(network, gaps, n - 1, was);
      var e := GapEnvelope(network, gaps[n - 1]);
      assert SaysGap(network, gaps[n - 1], e);
      OneMoreSaidGaps(network, gaps, n, was, was + Gaps(network, gaps, n - 1), e);
      assert was + Gaps(network, gaps, n) == was + Gaps(network, gaps, n - 1) + [e];
    }
  }

  lemma OneMoreSaidGaps(network: string, gaps: seq<Gap>, n: nat, was: seq<Envelope>, now: seq<Envelope>,
                        e: Envelope)
    requires 0 < n <= |gaps| && GapsSaid(network, gaps, n - 1, was, now) && SaysGap(network, gaps[n - 1], e)
    ensures GapsSaid(network, gaps, n, was, now + [e])
  {
  }

  lemma {:induction false} SayingEvents(network: string, facts: seq<Fact>, n: nat, was: seq<Envelope>)
    requires n <= |facts|
    ensures EventsSaid(network, facts, n, was, was + Events(network, facts, n))
  {
    if n > 0 {
      SayingEvents(network, facts, n - 1, was);
      var e := FromEscrowEvent(network, facts[n - 1]);
      assert SaysFact(network, facts[n - 1], e);
      OneMoreSaidEvents(network, facts, n, was, was + Events(network, facts, n - 1), e);
      assert was + Events(network, facts, n) == was + Events(network, facts, n - 1) + [e];
    }
  }

  lemma OneMoreSaidEvents(network: string, facts: seq<Fact>, n: nat, was: seq<Envelope>, now: seq<Envelope>,
                          e: Envelope)
    requires 0 < n <= |facts| && EventsSaid(network, facts, n - 1, was, now) && SaysFact(network, facts[n - 1], e)
    ensures EventsSaid(network, facts, n, was, now + [e])
  {
  }

  lemma {:induction false} SayingStates(network: string, changes: seq<StateChange>, n: nat, was: seq<Envelope>)
    requires n <= |changes|
    ensures StatesSaid(network, changes, n, was, was + States(network, changes, n))
  {
    if n > 0 {
      SayingStates(network, changes, n - 1, was);
      var e := FromStateChange(network, changes[n - 1]);
      assert SaysState(network, changes[n - 1], e);
      OneMoreSaidStates(network, changes, n, was, was + States(network, changes, n - 1), e);
      assert was + States(network, changes, n) == was + States(network, changes, n - 1) + [e];
    }
  }

  lemma OneMoreSaidStates(network: string, changes: seq<StateChange>, n: nat, was: seq<Envelope>, now: seq<Envelope>,
                          e: Envelope)
    requires 0 < n <= |changes| && StatesSaid(network, changes, n - 1, was, now)
    requires SaysState(network, changes[n - 1], e)
    ensures StatesSaid(network, changes, n, was, now + [e])
  {
  }

  lemma {:induction false} EventsMembers(network: string, facts: seq<Fact>, n: nat)
    requires n <= |facts|
    ensures forall i :: 0 <= i < n ==> FromEscrowEvent(network, facts[i]) in Events(network, facts, n)
  {
    if n > 0 {
      EventsMembers(network, facts, n - 1);
    }
  }

  lemma {:induction false} StatesMembers(network: string, changes: seq<StateChange>, n: nat)
    requires n <= |changes|
    ensures forall i :: 0 <= i < n ==> FromStateChange(network, changes[i]) in States(network, changes, n)
  {
    if n > 0 {
      StatesMembers(network, changes, n - 1);
    }
  }

  /** One envelope, against any behaviour of the broker and any patience of the context. */
  method Offer(outSink: BackpressureSink, env: Envelope) returns (ok: bool)
    requires outSink.inner.confirms
    modifies outSink.inner
    ensures ok ==> Validate(env) && outSink.inner.delivered == old(outSink.inner.delivered) + [env]
    ensures !ok ==> outSink.inner.delivered == old(outSink.inner.delivered)
  {
    var reactions: nat -> Reaction, patience: nat := *, *;
    var r, attempts, waits := outSink.Publish(env, reactions, patience);
    ok := r.Accepted?;
  }

  method OfferGap(outSink: BackpressureSink, network: string, g: Gap) returns (ok: bool)
    requires outSink.inner.confirms
    modifies outSink.inner
    ensures ok ==>
      && Validate(GapEnvelope(network, g))
      && outSink.inner.delivered == old(outSink.inner.delivered) + [GapEnvelope(network, g)]
    ensures !ok ==> outSink.inner.delivered == old(outSink.inner.delivered)
  {
    ok := Offer(outSink, FromGap(network, g.fromLedger, g.toLedger, g.reason));
  }

  method PublishGaps(outSink: BackpressureSink, network: string, gaps: seq<Gap>) returns (ok: bool, sent: nat)
    requires outSink.inner.confirms
    modifies outSink.inner
    ensures sent <= |gaps| && (ok <==> sent == |gaps|)
    ensures outSink.inner.delivered == old(outSink.inner.delivered) + Gaps(network, gaps, sent)
    ensures GapsSaid(network, gaps, sent, old(outSink.inner.delivered), outSink.inner.delivered)
    ensures forall i :: 0 <= i < sent ==> Validate(GapEnvelope(network, gaps[i]))
  {
    sent := 0;
    while sent < |gaps|
      invariant sent <= |gaps|
      invariant outSink.inner.delivered == old(outSink.inner.delivered) + Gaps(network, gaps, sent)
      invariant forall i :: 0 <= i < sent ==> Validate(GapEnvelope(network, gaps[i]))
    {
      ok := OfferGap(outSink, network, gaps[sent]);
      if !ok {
        SayingGaps(network, gaps, sent, old(outSink.inner.delivered));
        return;
      }
      sent := sent + 1;
    }
    SayingGaps(network, gaps, sent, old(outSink.inner.delivered));
    ok := true;
  }

  ghost predicate EventValid(network: string, f: Fact) {
    Validate(FromEscrowEvent(network, f))
  }

  ghost predicate EventsValid(network: string, facts: seq<Fact>, n: nat)
    requires n <= |facts|
  {
    forall i :: 0 <= i < n ==> EventValid(network, facts[i])
  }

  method OfferEvent(outSink: BackpressureSink, network: string, f: Fact) returns (ok: bool)
    requires outSink.inner.confirms
    modifies outSink.inner
    ensures ok ==>
      EventValid(network, f) && outSink.inner.delivered == old(outSink.inner.delivered) + [FromEscrowEvent(network, f)]
    ensures !ok ==> outSink.inner.delivered == old(outSink.inner.delivered)
  {
    ok := Offer(outSink, FromEscrowEvent(network, f));
  }

  method PublishEvents(outSink: BackpressureSink, network: string, facts: seq<Fact>) returns (ok: bool, sent: nat)
    requires outSink.inner.confirms
    modifies outSink.inner
    ensures sent <= |facts| && (ok <==> sent == |facts|)
    ensures outSink.inner.delivered == old(outSink.inner.delivered) + Events(network, facts, sent)
    ensures EventsSaid(network, facts, sent, old(outSink.inner.delivered), outSink.inner.delivered)
    ensures EventsValid(network, facts, sent)
  {
    sent := 0;
    while sent < |facts|
      invariant sent <= |facts|
      invariant outSink.inner.delivered == old(outSink.inner.delivered) + Events(network, facts, sent)
      invariant EventsValid(network, facts, sent)
    {
      ok := OfferEvent(outSink, network, facts[sent]);
      if !ok {
        SayingEvents(network, facts, sent, old(outSink.inner.delivered));
        return;
      }
      sent := sent + 1;
    }
    SayingEvents(network, facts, sent, old(outSink.inner.delivered));
    ok := true;
  }

  method PublishStates(outSink: BackpressureSink, network: string, changes: seq<StateChange>)
      returns (ok: bool, sent: nat)
    requires outSink.inner.confirms
    modifies outSink.inner
    ensures sent <= |changes| && (ok <==> sent == |changes|)
    ensures outSink.inner.delivered == old(outSink.inner.delivered) + States(network, changes, sent)
    ensures StatesSaid(network, changes, sent, old(outSink.inner.delivered), outSink.inner.delivered)
    ensures forall i :: 0 <= i < sent ==> Validate(FromStateChange(network, changes[i]))
  {
    sent := 0;
    while sent < |changes|
      invariant sent <= |changes|
      invariant outSink.inner.delivered == old(outSink.inner.delivered) + States(network, changes, sent)
      invariant forall i :: 0 <= i < sent ==> Validate(FromStateChange(network, changes[i]))
    {
      ok := Offer(outSink, FromStateChange(network, changes[sent]));
      if !ok {
        SayingStates(network, changes, sent, old(outSink.inner.delivered));
        return;
      }
      sent := sent + 1;
    }
    SayingStates(network, changes, sent, old(outSink.inner.delivered));
    ok := true;
  }
}
