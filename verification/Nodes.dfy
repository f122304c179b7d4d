/** An RPC node that never fails and always tells the truth. */
module Nodes {
  import opened Base
  import opened Detector
  import opened DetectorTheorems

  /** A node that answers every request from the chain, echoing the keys. */
  function Node(chain: Chain): Rpc {
    (n: nat, keys: seq<Key>) => Some(Held(chain, keys))
  }

  /** What a detector remembers before its first fetch. */
  const NEW := Memory(map[], 0, 0)

  function Held(chain: Chain, keys: seq<Key>): seq<Entry> {
    if |keys| == 0 then []
    else Held(chain, keys[..|keys| - 1]) + HeldUnder(chain, keys[|keys| - 1])
  }

  function HeldUnder(chain: Chain, k: Key): seq<Entry> {
    if k.Candidate? && k in chain
    then [Entry(ContractData(k.id, k.shape.Instance?), Some(k), chain[k].raw, chain[k].lastModified)]
    else []
  }

  lemma {:induction false} HeldFaithful(chain: Chain, keys: seq<Key>)
    ensures Faithful(Held(chain, keys), keys, chain)
  {
    if |keys| > 0 {
      var n := |keys| - 1;
      HeldFaithful(chain, keys[..n]);
      HeldUnderFaithful(chain, keys[n]);
      FaithfulConcat(Held(chain, keys[..n]), HeldUnder(chain, keys[n]), keys[..n], [keys[n]], chain);
      assert keys[..n] + [keys[n]] == keys;
    }
  }

  lemma HeldUnderFaithful(chain: Chain, k: Key)
    ensures Faithful(HeldUnder(chain, k), [k], chain)
  {
    var es := HeldUnder(chain, k);
    forall e | e in es
      ensures Justified(e, [k], chain)
    {
      assert k in [k] && EntryOf(e, k, chain);
    }
    if es != [] {
      assert es[0] in es && EntryOf(es[0], k, chain);
    }
  }

  lemma NodeIsHonest(chain: Chain)
    ensures Honest(Node(chain), chain) && Reliable(Node(chain))
  {
    var rpc := Node(chain);
    forall n: nat, keys: seq<Key>
      ensures rpc(n, keys).Some? && Faithful(rpc(n, keys).value, keys, chain)
    {
      HeldFaithful(chain, keys);
    }
  }
}
