/** What the claim tokens guarantee over whole runs of the delivery machine. */
module Leases {
  import opened Common
  import opened Entities
  import opened Delivery

  /** The events take the machine from `s` to `t`. */
  ghost predicate Run(s: State, es: seq<Event>, t: State)
    decreases |es|
  {
    if es == [] then s == t else Enabled(s, es[0]) && Run(Apply(s, es[0]), es[1..], t)
  }

  ghost predicate Reachable(s: State) {
    exists es :: Run(Init, es, s)
  }

  lemma {:induction false} RunKeepsInv(s: State, es: seq<Event>, t: State)
    requires Inv(s) && Run(s, es, t)
    ensures Inv(t)
    decreases |es|
  {
    if es != [] {
      InvStep(s, es[0]);
      RunKeepsInv(Apply(s, es[0]), es[1..], t);
    }
  }

  lemma ReachableInv(s: State)
    requires Reachable(s)
    ensures Inv(s)
  {
    var es :| Run(Init, es, s);
    RunKeepsInv(Init, es, s);
  }

  /** Published means enqueued: in every reachable state, the queue accepted the job of a published row
      after the row's latest reset. */
  lemma PublishedMeansEnqueued(s: State, k: Key)
    requires Reachable(s) && k in s.rows && s.rows[k].publishedAt.Some?
    ensures k in s.epoch && (k, s.epoch[k]) in s.accepted
  {
    ReachableInv(s);
    assert RowAccepted(s.epoch, s.accepted, k, s.rows[k]);
  }

  /** The queue never holds two jobs for one idempotency key. */
  lemma OneJobPerKey(s: State, id1: JobId, id2: JobId)
    requires Reachable(s) && id1 in s.queue && id2 in s.queue && s.queue[id1].data.key == s.queue[id2].data.key
    ensures id1 == id2
  {
    ReachableInv(s);
    assert JobFiled(s.rows, id1, s.queue[id1].data) && JobFiled(s.rows, id2, s.queue[id2].data);
  }

  // ---------------------------------------------------------------- exclusive leases

  /** The event gives the lease of `t` on row `k` back: a completion or failure by its holder, or a
      reset of the row. */
  ghost predicate Releases(s: State, e: Event, t: Token, k: Key) {
    || e == Reset(k)
    || ((e.Finish? || e.Fail?) && e.token == t && t in s.publishers && s.publishers[t].worklist != []
        && s.publishers[t].worklist[0] == k)
  }

  ghost predicate NeverReleased(s: State, es: seq<Event>, t: Token, k: Key)
    decreases |es|
  {
    es == [] || (Enabled(s, es[0]) && !Releases(s, es[0], t, k) && NeverReleased(Apply(s, es[0]), es[1..], t, k))
  }

  /** `t` leased row `k` at time `at` and the lease is still in place. */
  ghost predicate Leased(s: State, t: Token, k: Key, at: nat) {
    k in s.rows && s.rows[k].claimToken == Some(t) && s.rows[k].claimedAt == Some(at) && s.rows[k].publishedAt.None?
  }

  lemma LeasedStep(s: State, e: Event, t: Token, k: Key, at: nat)
    requires Inv(s) && Enabled(s, e) && Leased(s, t, k, at) && !Releases(s, e, t, k)
    requires s.now <= at + LEASE
    ensures Leased(Apply(s, e), t, k, at)
  {
  }

  lemma {:induction false} TimeIsMonotone(s: State, es: seq<Event>, u: State)
    requires Run(s, es, u)
    ensures s.now <= u.now
    decreases |es|
  {
    if es != [] { TimeIsMonotone(Apply(s, es[0]), es[1..], u); }
  }

  lemma {:induction false} LeaseLasts(s: State, es: seq<Event>, u: State, t: Token, k: Key, at: nat)
    requires Inv(s) && Run(s, es, u) && Leased(s, t, k, at) && NeverReleased(s, es, t, k)
    requires u.now <= at + LEASE
    ensures Leased(u, t, k, at)
    decreases |es|
  {
    if es != [] {
      TimeIsMonotone(s, es, u);
      LeasedStep(s, es[0], t, k, at);
      InvStep(s, es[0]);
      LeaseLasts(Apply(s, es[0]), es[1..], u, t, k, at);
    }
  }

  /** Lease exclusivity: when a second claim returns a row that an earlier claim returned, then in
      between the earlier lease ran out, or its holder completed or failed the row, or the row was reset. */
  lemma LeaseExclusive(s: State, t1: Token, batch1: seq<Key>, es: seq<Event>, u: State, t2: Token, batch2: seq<Key>, k: Key)
    requires Reachable(s) && Enabled(s, Claim(t1, batch1)) && k in batch1
    requires Run(Apply(s, Claim(t1, batch1)), es, u)
    requires Enabled(u, Claim(t2, batch2)) && k in batch2
    ensures s.now + 300_000 < u.now || !NeverReleased(Apply(s, Claim(t1, batch1)), es, t1, k)
  {
    var s1 := Apply(s, Claim(t1, batch1));
    ReachableInv(s);
    InvStep(s, Claim(t1, batch1));
    assert Leased(s1, t1, k, s.now);
    assert k in u.rows && Claimable(u.rows[k], u.now);
    if NeverReleased(s1, es, t1, k) && u.now <= s.now + LEASE {
      LeaseLasts(s1, es, u, t1, k, s.now);
    }
  }

  /** Two claims with no reset, completion, failure or expiry in between return disjoint sets. */
  lemma UndisturbedClaimsAreDisjoint(s: State, t1: Token, batch1: seq<Key>, es: seq<Event>, u: State, t2: Token, batch2: seq<Key>)
    requires Reachable(s) && Enabled(s, Claim(t1, batch1))
    requires Run(Apply(s, Claim(t1, batch1)), es, u)
    requires Enabled(u, Claim(t2, batch2)) && u.now <= s.now + 300_000
    requires forall k :: k in batch1 ==> NeverReleased(Apply(s, Claim(t1, batch1)), es, t1, k)
    ensures forall k :: k in batch1 ==> k !in batch2
  {
    forall k | k in batch1 ensures k !in batch2 {
      if k in batch2 { LeaseExclusive(s, t1, batch1, es, u, t2, batch2, k); }
    }
  }

  // ---------------------------------------------------------------- stale holders

  /** `t` was drawn and does not hold the lease of row `k`. */
  ghost predicate Stale(s: State, t: Token, k: Key) {
    t in s.usedTokens && k in s.rows && s.rows[k].claimToken != Some(t)
  }

  /** A lost lease never comes back. */
  lemma {:induction false} StaleForever(s: State, es: seq<Event>, u: State, t: Token, k: Key)
    requires Stale(s, t, k) && Run(s, es, u)
    ensures Stale(u, t, k)
    decreases |es|
  {
    if es != [] { StaleForever(Apply(s, es[0]), es[1..], u, t, k); }
  }

  /** Once a publisher lost its lease on a row, nothing it reports about that row, however late, changes
      the row. */
  lemma StaleHolderWritesNothing(s: State, es: seq<Event>, u: State, e: Event, k: Key)
    requires (e.Finish? || e.Fail?) && Stale(s, e.token, k) && Run(s, es, u)
    requires Enabled(u, e) && Head(u, e.token) == k
    ensures Apply(u, e).rows == u.rows
  {
    StaleForever(s, es, u, e.token, k);
  }

  /** A claim makes every other token stale on the rows it returns. */
  lemma ClaimSupersedes(s: State, t: Token, batch: seq<Key>, other: Token, k: Key)
    requires Inv(s) && Enabled(s, Claim(t, batch)) && k in batch && other in s.usedTokens
    ensures Stale(Apply(s, Claim(t, batch)), other, k)
  {
  }

  /** Two publishers with one row: if `t1` still has the row in its list when `t2` claims it, the first
      lease ran out or the row was reset in between, and whatever `t1` reports about the row from then on
      changes nothing. */
  lemma TwoHolders(s: State, t1: Token, batch1: seq<Key>, es: seq<Event>, u: State, t2: Token, batch2: seq<Key>,
                   k: Key, later: seq<Event>, v: State, e: Event)
    requires Reachable(s) && Enabled(s, Claim(t1, batch1)) && k in batch1
    requires Run(Apply(s, Claim(t1, batch1)), es, u)
    requires t1 in u.publishers && k in u.publishers[t1].worklist
    requires Enabled(u, Claim(t2, batch2)) && k in batch2
    requires Run(Apply(u, Claim(t2, batch2)), later, v)
    requires (e.Finish? || e.Fail?) && e.token == t1 && Enabled(v, e) && Head(v, t1) == k
    ensures s.now + 300_000 < u.now || Reset(k) in es
    ensures Apply(v, e).rows == v.rows
  {
    var s1 := Apply(s, Claim(t1, batch1));
    ReachableInv(s);
    InvStep(s, Claim(t1, batch1));
    RunKeepsInv(s1, es, u);
    LeaseExclusive(s, t1, batch1, es, u, t2, batch2, k);
    if Reset(k) !in es {
      HeldUnlessReset(s1, es, u, t1, k);
    }
    ClaimSupersedes(u, t2, batch2, t1, k);
    StaleHolderWritesNothing(Apply(u, Claim(t2, batch2)), later, v, e, k);
  }

  /** A publisher that dropped a row from its list never gets it back under the same token. */
  lemma {:induction false} DroppedForever(s: State, es: seq<Event>, u: State, t: Token, k: Key)
    requires t in s.usedTokens && (t in s.publishers ==> k !in s.publishers[t].worklist)
    requires Run(s, es, u)
    ensures t in u.publishers ==> k !in u.publishers[t].worklist
    decreases |es|
  {
    if es != [] {
      DroppedForever(Apply(s, es[0]), es[1..], u, t, k);
    }
  }

  /** A row still in the list was neither completed nor failed by that publisher. */
  lemma {:induction false} HeldUnlessReset(s: State, es: seq<Event>, u: State, t: Token, k: Key)
    requires Inv(s) && Run(s, es, u) && t in s.usedTokens && Reset(k) !in es
    requires t in u.publishers && k in u.publishers[t].worklist
    ensures NeverReleased(s, es, t, k)
    decreases |es|
  {
    if es != [] {
      var s1 := Apply(s, es[0]);
      InvStep(s, es[0]);
      assert Reset(k) !in es[1..];
      if Releases(s, es[0], t, k) {
        assert ListOk(s.rows, s.publishers[t]);
        DistinctTail(s.publishers[t].worklist);
        DroppedForever(s1, es[1..], u, t, k);
      }
      HeldUnlessReset(s1, es[1..], u, t, k);
    }
  }

  // ---------------------------------------------------------------- expired leases

  /** The event neither claims nor resets row `k`. */
  predicate LeavesRow(e: Event, k: Key) {
    e != Reset(k) && !(e.Claim? && k in e.batch)
  }

  /** Once its holder stopped, a leased row stays as it is until it is claimed again or reset. */
  lemma {:induction false} OrphanStays(s: State, es: seq<Event>, u: State, t: Token, k: Key)
    requires t in s.usedTokens && t !in s.publishers && k in s.rows && s.rows[k].claimToken == Some(t)
    requires Run(s, es, u) && forall e :: e in es ==> LeavesRow(e, k)
    ensures k in u.rows && u.rows[k] == s.rows[k]
    decreases |es|
  {
    if es != [] {
      assert LeavesRow(es[0], k);
      OrphanStays(Apply(s, es[0]), es[1..], u, t, k);
    }
  }

  /** No row is lost with its publisher: when the publisher that leased it stops, the row stays unpublished
      and leased, and a new claim may return it exactly once more than five minutes have passed since the lease
      began. */
  lemma CrashedLeaseReturns(s: State, t: Token, k: Key, at: nat, es: seq<Event>, u: State, t2: Token)
    requires Reachable(s) && t in s.publishers && k in s.rows && s.rows[k].claimToken == Some(t) && s.rows[k].claimedAt == Some(at)
    requires Run(Apply(s, Stop(t)), es, u) && (forall e :: e in es ==> LeavesRow(e, k)) && t2 !in u.usedTokens
    ensures k in u.rows && u.rows[k] == s.rows[k] && u.rows[k].publishedAt.None?
    ensures Enabled(u, Claim(t2, [k])) <==> u.now - at > 300_000
  {
    ReachableInv(s);
    assert RowOk(s.usedTokens, k, s.rows[k]);
    OrphanStays(Apply(s, Stop(t)), es, u, t, k);
  }

  /** A row without a lease may be claimed at once, unless it is published. */
  lemma OpenRowIsClaimable(s: State, k: Key, t: Token)
    requires k in s.rows && s.rows[k].claimedAt.None? && t !in s.usedTokens
    ensures Enabled(s, Claim(t, [k])) <==> s.rows[k].publishedAt.None?
  {
  }
}
