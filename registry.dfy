/** The expiry sweep over the registry (clean_old_contracts) and what it
    guarantees: it keeps exactly the live entries, in order, and it is the
    largest such subsequence. */
module Registry {
  import opened Cosmwasm
  import opened StateTypes
  import opened Sequences

  /** The retain condition: an entry survives a sweep at `now` while
      `createdAt + removeAfter > now`. */
  predicate Live(c: Contract, removeAfter: U64, now: U64) {
    c.createdAt + removeAfter > now
  }

  /** `Vec::retain` with the retain condition: the live entries in their
      original order. */
  function Retain(cs: seq<Contract>, removeAfter: U64, now: U64): (r: seq<Contract>)
    ensures |r| <= |cs|
    ensures forall c :: c in r <==> c in cs && Live(c, removeAfter, now)
  {
    if cs == [] then []
    else if Live(cs[0], removeAfter, now) then [cs[0]] + Retain(cs[1..], removeAfter, now)
    else Retain(cs[1..], removeAfter, now)
  }

  lemma {:induction false} RetainIsSubsequence(cs: seq<Contract>, removeAfter: U64, now: U64)
    ensures IsSubsequence(Retain(cs, removeAfter, now), cs)
  {
    if cs != [] {
      RetainIsSubsequence(cs[1..], removeAfter, now);
    }
  }

  /** Every order-preserving subsequence of live entries is contained in the
      result of the sweep, so no sweep could keep more. */
  lemma {:induction false} RetainIsLargest(t: seq<Contract>, cs: seq<Contract>, removeAfter: U64, now: U64)
    requires IsSubsequence(t, cs)
    requires forall i :: 0 <= i < |t| ==> Live(t[i], removeAfter, now)
    ensures IsSubsequence(t, Retain(cs, removeAfter, now))
  {
    if cs != [] {
      var rest := Retain(cs[1..], removeAfter, now);
      if IsSubsequence(t, cs[1..]) {
        RetainIsLargest(t, cs[1..], removeAfter, now);
        if Live(cs[0], removeAfter, now) {
          assert ([cs[0]] + rest)[1..] == rest;
        }
      } else {
        assert t[0] == cs[0] && IsSubsequence(t[1..], cs[1..]);
        assert Live(t[0], removeAfter, now);
        RetainIsLargest(t[1..], cs[1..], removeAfter, now);
        assert ([cs[0]] + rest)[1..] == rest;
      }
    }
  }

  /** A sweep at a later time after a sweep at an earlier one is just the
      later sweep: an expired entry never comes back. */
  lemma {:induction false} RetainLater(cs: seq<Contract>, removeAfter: U64, t1: U64, t2: U64)
    requires t1 <= t2
    ensures Retain(Retain(cs, removeAfter, t1), removeAfter, t2) == Retain(cs, removeAfter, t2)
  {
    if cs != [] {
      RetainLater(cs[1..], removeAfter, t1, t2);
      var rest := Retain(cs[1..], removeAfter, t1);
      if Live(cs[0], removeAfter, t1) {
        assert ([cs[0]] + rest)[0] == cs[0];
        assert ([cs[0]] + rest)[1..] == rest;
      }
    }
  }

  lemma {:induction false} RetainIdempotent(cs: seq<Contract>, removeAfter: U64, now: U64)
    ensures Retain(Retain(cs, removeAfter, now), removeAfter, now) == Retain(cs, removeAfter, now)
  {
    RetainLater(cs, removeAfter, now, now);
  }

  /** A registry that holds only live entries is left as it is. */
  lemma {:induction false} RetainAllLive(cs: seq<Contract>, removeAfter: U64, now: U64)
    requires forall i :: 0 <= i < |cs| ==> Live(cs[i], removeAfter, now)
    ensures Retain(cs, removeAfter, now) == cs
  {
    if cs != [] {
      RetainAllLive(cs[1..], removeAfter, now);
    }
  }

  /** The sweep works entry by entry, so it distributes over concatenation. */
  lemma {:induction false} RetainAppend(a: seq<Contract>, b: seq<Contract>, removeAfter: U64, now: U64)
    ensures Retain(a + b, removeAfter, now) == Retain(a, removeAfter, now) + Retain(b, removeAfter, now)
  {
    if a == [] {
      assert a + b == b;
    } else {
      assert (a + b)[0] == a[0];
      assert (a + b)[1..] == a[1..] + b;
      RetainAppend(a[1..], b, removeAfter, now);
    }
  }

  /** Sweeping a registry with one more entry at its end sweeps the old part
      and keeps the new entry exactly when it is live. */
  lemma RetainSnoc(cs: seq<Contract>, c: Contract, removeAfter: U64, now: U64)
    ensures Retain(cs + [c], removeAfter, now) == Retain(cs, removeAfter, now) + (if Live(c, removeAfter, now) then [c] else [])
  {
    RetainAppend(cs, [c], removeAfter, now);
    assert [c][1..] == [];
  }

  /** clean_old_contracts: replaces the registry by its sweep at the block time
      and changes no other field. */
  function CleanOldContracts(state: State, env: Env): (r: State)
    ensures r == state.(contracts := r.contracts)
    ensures IsSubsequence(r.contracts, state.contracts)
    ensures forall i :: 0 <= i < |r.contracts| ==> Live(r.contracts[i], state.removeAfter, env.block.time)
    ensures forall c :: c in state.contracts && Live(c, state.removeAfter, env.block.time) ==> c in r.contracts
  {
    var kept := Retain(state.contracts, state.removeAfter, env.block.time);
    RetainIsSubsequence(state.contracts, state.removeAfter, env.block.time);
    assert forall i :: 0 <= i < |kept| ==> kept[i] in kept;
    state.(contracts := kept)
  }

  lemma RetainIsLargestAll(cs: seq<Contract>, removeAfter: U64, now: U64)
    ensures forall t :: IsSubsequence(t, cs) && (forall i :: 0 <= i < |t| ==> Live(t[i], removeAfter, now))
                        ==> IsSubsequence(t, Retain(cs, removeAfter, now))
  {
    forall t | IsSubsequence(t, cs) && (forall i :: 0 <= i < |t| ==> Live(t[i], removeAfter, now))
      ensures IsSubsequence(t, Retain(cs, removeAfter, now))
    {
      RetainIsLargest(t, cs, removeAfter, now);
    }
  }
}
