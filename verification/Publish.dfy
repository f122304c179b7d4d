/**
 Delivery: a sink that waits for each message's own confirmation and then looks
 for its return, under a wrapper that retries rejections and nothing else. An
 unroutable mandatory message comes back as a basic.return, section 1.8.3.8 of
 AMQP 0-9-1, before its confirmation.
 */
module Publish {
  import opened Base
  import opened Backoff
  import opened Envelopes

  const PUBLISH_RETRY_MAX_BACKOFF: int := 60 * SECOND

  /** How waiting for this message's own confirmation ends. */
  datatype Settled = Acked | Nacked | ContextEnded

  /** What the broker does with one attempt; `bounced` are the ids returned before the answer. */
  datatype Reaction = SendFailed | Answered(bounced: seq<string>, settled: Settled)

  datatype Delivery = Accepted | Invalid | Unavailable | Rejected | Unroutable | Cancelled

  class RabbitSink {
    const confirms: bool
    /** The return notifications not read yet. */
    var returned: seq<string>
    /** Every envelope this sink has reported delivered. */
    ghost var delivered: seq<Envelope>

    constructor (confirms: bool)
      ensures this.confirms == confirms && returned == [] && delivered == []
    {
      this.confirms := confirms;
      returned := [];
      delivered := [];
    }

    /** One attempt at one envelope. */
    method Publish(env: Envelope, reaction: Reaction) returns (r: Delivery)
      modifies this
      ensures r.Invalid? <==> !Validate(env)
      ensures Validate(env) ==> (r.Unavailable? <==> reaction.SendFailed?)
      ensures confirms && reaction.Answered? && Validate(env) ==>
        && (r.Rejected? <==> reaction.settled.Nacked?)
        && (r.Cancelled? <==> reaction.settled.ContextEnded?)
        && (r.Accepted? <==> reaction.settled.Acked? && env.messageID !in old(returned) + reaction.bounced)
        && (r.Unroutable? <==> reaction.settled.Acked? && env.messageID in old(returned) + reaction.bounced)
        && (!reaction.settled.Acked? ==> returned == old(returned) + reaction.bounced)
      ensures !confirms && reaction.Answered? && Validate(env) ==> r.Accepted?
      ensures r.Accepted? ==> delivered == old(delivered) + [env]
      ensures !r.Accepted? ==> delivered == old(delivered)
    {
      if !Validate(env) {
        return Invalid;
      }
      if reaction.SendFailed? {
        return Unavailable;
      }
      if confirms {
        returned := returned + reaction.bounced;
        match reaction.settled {
          case Nacked => return Rejected;
          case ContextEnded => return Cancelled;
          case Acked =>
        }
        var unroutable := CheckReturned(env.messageID);
        if unroutable {
          return Unroutable;
        }
      }
      delivered := delivered + [env];
      return Accepted;
    }

    /** Reads pending returns until one bears this message's id; strays are dropped. */
    method CheckReturned(messageID: string) returns (found: bool)
      modifies this`returned
      ensures found <==> messageID in old(returned)
    {
      while |returned| > 0
        invariant messageID in old(returned) <==> messageID in returned
        decreases |returned|
      {
        var id := returned[0];
        returned := returned[1..];
        if id == messageID {
          return true;
        }
      }
      return false;
    }
  }

  /** Every return seen over the first n attempts. */
  function SeenReturns(reactions: nat -> Reaction, n: nat): seq<string> {
    if n == 0 then []
    else SeenReturns(reactions, n - 1) + (if reactions(n - 1).Answered? then reactions(n - 1).bounced else [])
  }

  predicate NackedAll(reactions: nat -> Reaction, n: nat) {
    forall i :: 0 <= i < n ==> reactions(i).Answered? && reactions(i).settled.Nacked?
  }

  /** How a publish ends with its last attempt: each outcome for exactly one behaviour of the broker. */
  predicate Concluded(r: Delivery, env: Envelope, reactions: nat -> Reaction, attempts: nat, patience: nat,
                      pending: seq<string>) {
    && attempts > 0
    && if !Validate(env) then r.Invalid? && attempts == 1
       else match reactions(attempts - 1)
         case SendFailed => r.Unavailable?
         case Answered(_, ContextEnded) => r.Cancelled?
         case Answered(_, Nacked) => r.Cancelled? && attempts == patience + 1
         case Answered(_, Acked) =>
           r == if env.messageID in pending + SeenReturns(reactions, attempts) then Unroutable else Accepted
  }

  class BackpressureSink {
    const inner: RabbitSink

    constructor (inner: RabbitSink)
      ensures this.inner == inner
    {
      this.inner := inner;
    }

    /**
     Delivers env, waiting out rejections in place. `patience` is how many waits
     the context survives; no attempt is capped otherwise. Success means that this
     very message's confirmation was an ack and that no return bearing its id was
     ever seen, over all attempts; every earlier attempt was a rejection, and every
     other outcome has its own cause.
     */
    method Publish(env: Envelope, reactions: nat -> Reaction, patience: nat)
        returns (r: Delivery, attempts: nat, waits: seq<int>)
      requires inner.confirms
      modifies inner
      ensures attempts == |waits| + 1 <= patience + 1 && waits == Waits(|waits|, 60_000_000_000)
      ensures NackedAll(reactions, attempts - 1)
      ensures Concluded(r, env, reactions, attempts, patience, old(inner.returned))
      ensures inner.delivered == old(inner.delivered) + if r.Accepted? then [env] else []
    {
      var backoff := SECOND;
      attempts, waits := 0, [];
      var left := patience;
      while true
        invariant left == patience - |waits| >= 0
        invariant attempts == |waits| && waits == Waits(|waits|, PUBLISH_RETRY_MAX_BACKOFF)
        invariant backoff == Wait(|waits|, PUBLISH_RETRY_MAX_BACKOFF)
        invariant attempts > 0 ==> Validate(env)
        invariant NackedAll(reactions, attempts)
        invariant inner.returned == old(inner.returned) + SeenReturns(reactions, attempts)
        invariant inner.delivered == old(inner.delivered)
        decreases left
      {
        r := inner.Publish(env, reactions(attempts));
        attempts := attempts + 1;
        if !r.Rejected? {
          return;
        }
        if left == 0 {
          return Cancelled, attempts, waits;
        }
        left := left - 1;
        DoubledIsNextWait(|waits|, PUBLISH_RETRY_MAX_BACKOFF);
        waits := waits + [backoff];
        if backoff < PUBLISH_RETRY_MAX_BACKOFF {
          backoff := Min(2 * backoff, PUBLISH_RETRY_MAX_BACKOFF);
        }
      }
    }
  }
}
