/** The services over their tables. Every statement, queue call or transaction is a method that performs
    exactly one event of the protocol; the services compose them, so each service call is a run. */
module Service {
  import opened Common
  import opened Entities
  import D = Delivery
  import L = Ledger
  import P = Protocol
  import Effects
  import Fields
  import ProtocolProofs
  import Recovery
  import Worker

  class Backend {
    var now: nat
    var outbox: map<Key, D.Row>
    var queue: map<JobId, D.Job>
    var versions: map<Uuid, L.Version>
    var documents: map<Uuid, L.Document>
    var runs: map<Key, L.Run>
    var artifacts: map<ObjectKey, L.Artifact>
    var reviews: set<Uuid>
    var audit: seq<L.AuditEntry>
    var confirmations: map<L.Tx, L.Confirmation>
    var fieldRows: seq<Fields.Field>

    // Who is publishing what, and the history that the guarantees speak about.
    ghost var publishers: map<D.Token, D.Publisher>
    ghost var usedTokens: set<D.Token>
    ghost var epoch: map<Key, nat>
    ghost var accepted: set<(Key, nat)>
    ghost var returned: set<D.Return>

    ghost function Delivered(): D.State
      reads this
    {
      D.State(now, outbox, queue, publishers, usedTokens, epoch, accepted, returned)
    }

    ghost function Recorded(): L.State
      reads this
    {
      L.State(versions, documents, runs, artifacts, reviews, audit, confirmations)
    }

    ghost function View(): P.State
      reads this
    {
      P.State(Delivered(), Recorded())
    }

    ghost predicate Valid()
      reads this
    {
      ProtocolProofs.Inv(View())
    }

    constructor ()
      ensures View() == P.Init && Valid() && fieldRows == []
    {
      now, outbox, queue, versions, documents, runs, artifacts, reviews := 0, map[], map[], map[], map[], map[], map[], {};
      audit, confirmations, fieldRows := [], map[], [];
      publishers, usedTokens, epoch, accepted, returned := map[], {}, map[], {}, {};
    }

    // ---------------------------------------------------------------- outbox statements and queue calls

    /** The candidates of `claim_outbox_events`: the first rows in scan order that are unpublished and not
        leased within the last five minutes. `scan` is the order in which the statement meets the rows it could
        lock. */
    method SelectCandidates(limit: nat, scan: seq<Key>) returns (batch: seq<Key>)
      requires Distinct(scan) && forall k :: k in scan ==> k in outbox
      ensures |batch| <= limit && Distinct(batch)
      ensures forall k :: k in batch ==>
        k in scan && outbox[k].publishedAt.None? && (outbox[k].claimedAt.Some? ==> now - outbox[k].claimedAt.value > 300_000)
      ensures forall k :: k in scan && k !in batch && |batch| < limit ==>
        outbox[k].publishedAt.Some? || (outbox[k].claimedAt.Some? && now - outbox[k].claimedAt.value <= 300_000)
    {
      batch := [];
      for i := 0 to |scan|
        invariant |batch| <= limit && Distinct(batch)
        invariant forall k :: k in batch ==> k in scan[..i] && D.Claimable(outbox[k], now)
        invariant forall k :: k in scan[..i] && k !in batch && |batch| < limit ==> !D.Claimable(outbox[k], now)
      {
        if |batch| < limit && D.Claimable(outbox[scan[i]], now) {
          batch := batch + [scan[i]];
        }
        assert scan[..i + 1] == scan[..i] + [scan[i]];
      }
      assert scan[..|scan|] == scan;
    }

    /** `claim_outbox_events`: leases the candidates, at most `limit` of them, and never more than 100 or fewer
        than one allows. When the claim has room, an unpublished row is among them exactly if it has no lease
        or its lease began more than five minutes ago. */
    method ClaimOutboxEvents(limit: int, token: D.Token, scan: seq<Key>) returns (batch: seq<Key>)
      requires token !in usedTokens && Distinct(scan) && forall k :: k in scan ==> k in outbox
      modifies this`outbox, this`publishers, this`usedTokens
      ensures P.Enabled(old(View()), P.Deliver(D.Claim(token, batch)))
      ensures View() == P.Apply(old(View()), P.Deliver(D.Claim(token, batch)))
      ensures |batch| <= (if limit > 100 then 100 else if limit < 1 then 1 else limit)
      ensures forall k :: k in batch ==>
        k in scan && old(outbox)[k].publishedAt.None? && (old(outbox)[k].claimedAt.Some? ==> now - old(outbox)[k].claimedAt.value > 300_000)
      ensures |batch| < (if limit > 100 then 100 else if limit < 1 then 1 else limit) ==>
        forall k :: k in scan && k !in batch ==>
          old(outbox)[k].publishedAt.Some? || (old(outbox)[k].claimedAt.Some? && now - old(outbox)[k].claimedAt.value <= 300_000)
      ensures outbox.Keys == old(outbox).Keys
      ensures forall k :: k in batch ==> k in outbox && outbox[k] == old(outbox)[k].(claimedAt := Some(now), claimToken := Some(token))
      ensures forall k :: k in outbox && k !in batch ==> outbox[k] == old(outbox)[k]
    {
      batch := SelectCandidates(if limit > 100 then 100 else if limit < 1 then 1 else limit, scan);
      outbox := D.ClaimRows(outbox, batch, now, token);
      publishers := publishers[token := D.Publisher(batch, D.Claimed)];
      usedTokens := usedTokens + {token};
    }

    /** `queue.add` for the row the publisher works on; the id it returns. */
    method AddToQueue(token: D.Token, key: Key) returns (id: JobId)
      requires P.Enabled(View(), P.Deliver(D.Add(token))) && key == publishers[token].worklist[0]
      modifies this`queue, this`publishers, this`accepted
      ensures View() == P.Apply(old(View()), P.Deliver(D.Add(token)))
      ensures id == BullJobId(outbox[key].payload.key)
      ensures queue == if id in old(queue) then old(queue) else old(queue)[id := D.Job(outbox[key].payload, D.Waiting, 0)]
    {
      var job := outbox[key].payload;
      id := BullJobId(job.key);
      if id !in queue {
        queue := queue[id := D.Job(job, D.Waiting, 0)];
      }
      accepted := accepted + if key in epoch then {(key, epoch[key])} else {};
      publishers := publishers[token := publishers[token].(phase := D.Queued)];
    }

    method LinkRun(token: D.Token, key: Key, id: JobId)
      requires P.Enabled(View(), P.LinkRun(token)) && key == publishers[token].worklist[0]
      requires id == BullJobId(outbox[key].payload.key)
      modifies this`runs, this`publishers
      ensures View() == P.Apply(old(View()), P.LinkRun(token))
      ensures runs == if key in old(runs) then old(runs)[key := old(runs)[key].(bullJobId := Some(id))] else old(runs)
    {
      if key in runs {
        runs := runs[key := runs[key].(bullJobId := Some(id))];
      }
      publishers := publishers[token := publishers[token].(phase := D.Linked)];
    }

    /** `complete_outbox_event`. */
    method CompleteOutboxEvent(key: Key, token: D.Token, code: Option<string>)
      requires token in publishers && publishers[token].worklist != [] && publishers[token].worklist[0] == key && key in outbox
      requires code.None? ==> publishers[token].phase == D.Linked
      modifies this`outbox, this`publishers
      ensures var e := P.Deliver(if code.None? then D.Finish(token) else D.Fail(token, code.value));
        P.Enabled(old(View()), e) && View() == P.Apply(old(View()), e)
      ensures old(outbox)[key].claimToken != Some(token) ==> outbox == old(outbox)
      ensures old(outbox)[key].claimToken == Some(token) ==>
        var row := old(outbox)[key];
        outbox == old(outbox)[key := D.Row(
          row.payload, if code.None? then Some(now) else row.publishedAt, None, None,
          if code.None? then None else Some(if |code.value| <= 80 then code.value else code.value[..80]))]
    {
      assert D.Holds(Delivered(), token, publishers[token].phase);
      if outbox[key].claimToken == Some(token) {
        var row := outbox[key];
        if code.None? {
          row := row.(publishedAt := Some(now), failure := None);
        } else {
          row := row.(failure := Some(if |code.value| <= 80 then code.value else code.value[..80]));
        }
        outbox := outbox[key := row.(claimedAt := None, claimToken := None)];
      } else {
        assert outbox[key := outbox[key]] == outbox;
      }
      publishers := publishers[token := D.Publisher(publishers[token].worklist[1..], D.Claimed)];
    }

    /** The reset transaction of the reconciler: it notes the repair on the run and reopens the row. */
    method ResetForReconcile(key: Key)
      requires key in outbox
      modifies this`outbox, this`runs, this`epoch
      ensures P.Enabled(old(View()), P.ResetRow(key)) && View() == P.Apply(old(View()), P.ResetRow(key))
      ensures outbox == old(outbox)[key := D.Row(old(outbox)[key].payload, None, None, None, old(outbox)[key].failure)]
      ensures runs == if key in old(runs) then old(runs)[key := old(runs)[key].(sanitizedError := Some(L.JOB_RECONCILED))] else old(runs)
    {
      MarkRun(key);
      ReopenRow(key);
    }

    method MarkRun(key: Key)
      modifies this`runs
      ensures Recorded() == L.Apply(old(Recorded()), L.Mark(key))
      ensures runs == if key in old(runs) then old(runs)[key := old(runs)[key].(sanitizedError := Some(L.JOB_RECONCILED))] else old(runs)
    {
      if key in runs {
        runs := runs[key := runs[key].(sanitizedError := Some(L.JOB_RECONCILED))];
      }
    }

    method ReopenRow(key: Key)
      requires key in outbox
      modifies this`outbox, this`epoch
      ensures Delivered() == D.Apply(old(Delivered()), D.Reset(key))
      ensures outbox == old(outbox)[key := D.Row(old(outbox)[key].payload, None, None, None, old(outbox)[key].failure)]
    {
      outbox := outbox[key := outbox[key].(publishedAt := None, claimedAt := None, claimToken := None)];
      epoch := if key in epoch then epoch[key := epoch[key] + 1] else epoch;
    }

    /** The publisher is done and forgets its token: the last step of a run from `s`. */
    ghost method StopPublisher(token: D.Token, s: P.State, done: seq<P.Event>)
      requires token in publishers && P.Run(s, done, View())
      modifies this`publishers
      ensures P.Run(s, done + [P.Deliver(D.Stop(token))], View())
    {
      var before := View();
      publishers := publishers - {token};
      Recovery.RunOne(before, P.Deliver(D.Stop(token)), View());
      P.RunAppend(s, done, before, [P.Deliver(D.Stop(token))], View());
    }

    /** The first two of them: the job is queued, then the run is linked to it. */
    method QueueAndLink(token: D.Token, key: Key)
      requires token in publishers && publishers[token].phase == D.Claimed
      requires publishers[token].worklist != [] && publishers[token].worklist[0] == key && key in outbox
      requires outbox[key].payload.wellFormed
      modifies this`queue, this`runs, this`publishers, this`accepted
      ensures var a, b := P.Deliver(D.Add(token)), P.LinkRun(token);
        P.Enabled(old(View()), a) && P.Enabled(P.Apply(old(View()), a), b) && View() == P.Apply(P.Apply(old(View()), a), b)
      ensures token in publishers && publishers[token] == D.Publisher(old(publishers)[token].worklist, D.Linked)
      ensures BullJobId(outbox[key].payload.key) in queue
    {
      assert D.Holds(Delivered(), token, D.Claimed);
      var id := AddToQueue(token, key);
      LinkRun(token, key, id);
    }

    /** The three events of a row whose payload passes the job schema. */
    method PublishValidRow(token: D.Token, key: Key)
      requires token in publishers && publishers[token].phase == D.Claimed
      requires publishers[token].worklist != [] && publishers[token].worklist[0] == key && key in outbox
      requires outbox[key].payload.wellFormed
      modifies this`outbox, this`queue, this`runs, this`publishers, this`accepted
      ensures P.Run(old(View()), Recovery.RowEvents(true, token), View())
      ensures token in publishers && publishers[token] == D.Publisher(old(publishers)[token].worklist[1..], D.Claimed)
      ensures outbox.Keys == old(outbox).Keys && forall k :: k in outbox ==> outbox[k].payload == old(outbox)[k].payload
      ensures old(outbox)[key].claimToken == Some(token) ==>
        outbox == old(outbox)[key := D.Row(old(outbox)[key].payload, Some(now), None, None, None)]
      ensures BullJobId(old(outbox)[key].payload.key) in queue
    {
      ghost var s := View();
      QueueAndLink(token, key);
      CompleteOutboxEvent(key, token, None);
      Recovery.RunThreeFrom(s, P.Deliver(D.Add(token)), P.LinkRun(token), P.Deliver(D.Finish(token)), View());
    }

    /** A row after its publication: published, or with the failure of a payload that the schema refuses. */
    static function Published(row: D.Row, now: nat): (r: D.Row)
      ensures r.payload == row.payload && r.claimedAt == None && r.claimToken == None
      ensures row.payload.wellFormed ==> r.publishedAt == Some(now) && r.failure == None
      ensures !row.payload.wellFormed ==> r.publishedAt == row.publishedAt && r.failure == Some("INVALID_JOB_SCHEMA")
    {
      if row.payload.wellFormed then D.Row(row.payload, Some(now), None, None, None)
      else D.Row(row.payload, row.publishedAt, None, None, Some("INVALID_JOB_SCHEMA"))
    }

    /** The first `i` rows of the list are done, and no other row was touched. */
    static ghost predicate PublishedSoFar(rows: map<Key, D.Row>, outbox: map<Key, D.Row>, events: seq<Key>, i: nat, now: nat)
      requires i <= |events| && outbox.Keys == rows.Keys
    {
      forall k :: k in rows ==> outbox[k] == if k in events[..i] then Published(rows[k], now) else rows[k]
    }

    static lemma PublishedNext(rows: map<Key, D.Row>, before: map<Key, D.Row>, after: map<Key, D.Row>, events: seq<Key>, i: nat, now: nat)
      requires i < |events| && Distinct(events) && before.Keys == rows.Keys && events[i] in rows
      requires PublishedSoFar(rows, before, events, i, now) && after == before[events[i] := Published(before[events[i]], now)]
      ensures after.Keys == rows.Keys && PublishedSoFar(rows, after, events, i + 1, now)
    {
      assert events[..i + 1] == events[..i] + [events[i]];
      assert events[i] !in events[..i];
    }

    /** One row of `publishPending`: its three events, or the failure of a payload the schema refuses. */
    method PublishRow(token: D.Token, key: Key)
      requires token in publishers && publishers[token].phase == D.Claimed
      requires publishers[token].worklist != [] && publishers[token].worklist[0] == key && key in outbox
      modifies this`outbox, this`queue, this`runs, this`publishers, this`accepted
      ensures P.Run(old(View()), Recovery.RowEvents(old(outbox)[key].payload.wellFormed, token), View())
      ensures token in publishers && publishers[token] == D.Publisher(old(publishers)[token].worklist[1..], D.Claimed)
      ensures outbox.Keys == old(outbox).Keys && forall k :: k in outbox ==> outbox[k].payload == old(outbox)[k].payload
      ensures old(outbox)[key].claimToken == Some(token) ==> outbox == old(outbox)[key := Published(old(outbox)[key], now)]
      ensures old(outbox)[key].payload.wellFormed ==> BullJobId(old(outbox)[key].payload.key) in queue
    {
      if !outbox[key].payload.wellFormed {
        ghost var s := View();
        CompleteOutboxEvent(key, token, Some("INVALID_JOB_SCHEMA"));
        Recovery.RunOne(s, P.Deliver(D.Fail(token, "INVALID_JOB_SCHEMA")), View());
      } else {
        PublishValidRow(token, key);
      }
    }

    /** `PublishRow` as the next step of a run from `s`. */
    method PublishNext(token: D.Token, key: Key, ghost s: P.State, ghost done: seq<P.Event>)
      requires token in publishers && publishers[token].phase == D.Claimed
      requires publishers[token].worklist != [] && publishers[token].worklist[0] == key && key in outbox
      requires P.Run(s, done, View())
      modifies this`outbox, this`queue, this`runs, this`publishers, this`accepted
      ensures P.Run(s, done + Recovery.RowEvents(old(outbox)[key].payload.wellFormed, token), View())
      ensures token in publishers && publishers[token] == D.Publisher(old(publishers)[token].worklist[1..], D.Claimed)
      ensures outbox.Keys == old(outbox).Keys && forall k :: k in outbox ==> outbox[k].payload == old(outbox)[k].payload
      ensures old(outbox)[key].claimToken == Some(token) ==> outbox == old(outbox)[key := Published(old(outbox)[key], now)]
    {
      ghost var before, row := View(), Recovery.RowEvents(outbox[key].payload.wellFormed, token);
      PublishRow(token, key);
      P.RunAppend(s, done, before, row, View());
    }

    /** The loop of `publishPending` over the rows it claimed. */
    method PublishClaimed(token: D.Token, events: seq<Key>)
      requires token in publishers && publishers[token] == D.Publisher(events, D.Claimed) && forall k :: k in events ==> k in outbox
      requires Distinct(events) && forall k :: k in events ==> outbox[k].claimToken == Some(token)
      modifies this`outbox, this`queue, this`runs, this`publishers, this`accepted
      ensures P.Run(old(View()), Recovery.WorkEvents(old(outbox), token, events), View())
      ensures outbox.Keys == old(outbox).Keys && PublishedSoFar(old(outbox), outbox, events, |events|, now)
    {
      ghost var s, rows := View(), outbox;
      ghost var done: seq<P.Event> := [];
      assert events[0..] == events;
      for i := 0 to |events|
        invariant token in publishers && publishers[token] == D.Publisher(events[i..], D.Claimed)
        invariant outbox.Keys == rows.Keys && forall k :: k in rows ==> outbox[k].payload == rows[k].payload
        invariant PublishedSoFar(rows, outbox, events, i, now)
        invariant P.Run(s, done, View())
        invariant Recovery.WorkDone(rows, token, events, i, done)
      {
        ghost var before := outbox;
        assert events[i] !in events[..i];
        PublishNext(token, events[i], s, done);
        PublishedNext(rows, before, outbox, events, i, now);
        Recovery.WorkDoneNext(rows, token, events, i, done);
        assert events[i..][1..] == events[i + 1..];
        done := done + Recovery.RowEvents(rows[events[i]].payload.wellFormed, token);
      }
      StopPublisher(token, s, done);
      Recovery.WorkDoneAll(rows, token, events, done);
    }

    /** The rows after a claim of all of them and their publication. */
    static lemma PublishedAll(rows: map<Key, D.Row>, claimed: map<Key, D.Row>, outbox: map<Key, D.Row>, events: seq<Key>, token: D.Token, now: nat)
      requires claimed.Keys == rows.Keys == outbox.Keys && PublishedSoFar(claimed, outbox, events, |events|, now)
      requires forall k :: k in events ==> k in rows && claimed[k] == rows[k].(claimedAt := Some(now), claimToken := Some(token))
      requires forall k :: k in rows && k !in events ==> claimed[k] == rows[k]
      ensures forall k :: k in rows ==> outbox[k] == if k in events then Published(rows[k], now) else rows[k]
    {
      assert events[..|events|] == events;
    }

    static lemma ClaimThenWork(s: P.State, rows: map<Key, D.Row>, s1: P.State, rows1: map<Key, D.Row>, token: D.Token, events: seq<Key>, t: P.State)
      requires P.Enabled(s, P.Deliver(D.Claim(token, events))) && s1 == P.Apply(s, P.Deliver(D.Claim(token, events)))
      requires rows.Keys == rows1.Keys && forall k :: k in rows ==> rows1[k].payload == rows[k].payload
      requires P.Run(s1, Recovery.WorkEvents(rows1, token, events), t)
      ensures P.Run(s, [P.Deliver(D.Claim(token, events))] + Recovery.WorkEvents(rows, token, events), t)
    {
      Recovery.WorkEventsSame(rows, rows1, token, events);
      Recovery.RunOne(s, P.Deliver(D.Claim(token, events)), s1);
      P.RunAppend(s, [P.Deliver(D.Claim(token, events))], s1, Recovery.WorkEvents(rows, token, events), t);
    }

    /** `publishPending`, undisturbed: a claim, then each claimed row in turn. Afterwards every claimed row is published,
        or carries the failure of its payload, and no other row was touched; with room in the batch, only published
        rows and rows leased within the last five minutes were left out. */
    method PublishPending(token: D.Token, scan: seq<Key>) returns (pass: Recovery.Pass)
      requires token !in usedTokens && Distinct(scan) && forall k :: k in scan ==> k in outbox
      modifies this`outbox, this`queue, this`runs, this`publishers, this`usedTokens, this`accepted
      ensures P.Run(old(View()), Recovery.PassEvents(old(outbox), pass), View())
      ensures pass.token == token && usedTokens == old(usedTokens) + {token}
      ensures outbox.Keys == old(outbox).Keys && |pass.batch| <= 100
      ensures forall k :: k in outbox ==> outbox[k] == if k in pass.batch then Published(old(outbox)[k], now) else old(outbox)[k]
      ensures |pass.batch| < 100 ==>
        forall k :: k in scan && k !in pass.batch ==>
          old(outbox)[k].publishedAt.Some? || (old(outbox)[k].claimedAt.Some? && now - old(outbox)[k].claimedAt.value <= 300_000)
    {
      ghost var s, rows := View(), outbox;
      var events := ClaimOutboxEvents(100, token, scan);
      ghost var s1, rows1 := View(), outbox;
      pass := Recovery.Pass(token, events, true);
      PublishClaimed(token, events);
      PublishedAll(rows, rows1, outbox, events, token, now);
      ClaimThenWork(s, rows, s1, rows1, token, events, View());
    }

    // ---------------------------------------------------------------- transactions on the ledger

    /** `persist`: a change takes place exactly if it is one of the legal transitions, listed here for the three
        states that the queue reports, and is dropped silently otherwise. */
    method Persist(organization: Uuid, key: Key, job: JobId, next: L.RunState, progress: int)
      modifies this`runs
      ensures Recorded() == L.PersistState(old(Recorded()), organization, key, job, next, progress)
      ensures next in {L.ACTIVE, L.RETRY_SCHEDULED, L.DEAD_LETTERED} ==>
        var takesPlace := 0 <= progress <= 100 && key in old(runs) && old(runs)[key].organization == organization
          && (old(runs)[key].state, next) in {(L.QUEUED, L.ACTIVE), (L.RETRY_SCHEDULED, L.ACTIVE), (L.ACTIVE, L.RETRY_SCHEDULED),
                                              (L.RETRY_SCHEDULED, L.DEAD_LETTERED)};
        runs == if takesPlace then old(runs)[key := old(runs)[key].(bullJobId := Some(job), state := next, progress := progress)]
                else old(runs)
    {
      if progress < 0 || progress > 100 { return; }
      if key !in runs || runs[key].organization != organization { return; }
      if next !in L.Successors(runs[key].state) { return; }
      runs := runs[key := runs[key].(bullJobId := Some(job), state := next, progress := progress)];
    }

    /** The artifact loop of `persistCompletion`; an insert that meets a foreign row aborts it. */
    method RegisterArtifacts(refs: seq<ObjectKey>, id: Uuid, v: L.Version, checksum: Checksum) returns (r: Result<(), L.Error>)
      modifies this`artifacts
      ensures match L.RegisterClean(old(artifacts), refs, id, v, checksum)
              case Ok(m) => r.Ok? && artifacts == m
              case Err(e) => r == Err(e)
    {
      for i := 0 to |refs|
        invariant L.RegisterClean(old(artifacts), refs[..i], id, v, checksum) == Ok(artifacts)
      {
        assert refs[..i + 1][..i] == refs[..i];
        var k := refs[i];
        if L.IsCleanRef(k, v.organization) {
          var existing := k in artifacts && artifacts[k].organization == v.organization && artifacts[k].version == id;
          if !existing {
            if k in artifacts {
              RegisterFails(old(artifacts), refs, i, id, v, checksum);
              return Err(L.UniqueViolation);
            }
            artifacts := artifacts[k := L.Artifact(v.organization, id, Clean, checksum, v.size, v.contentType)];
          }
        }
      }
      assert refs[..|refs|] == refs;
      r := Ok(());
    }

    /** A collision at one reference fails the whole list. */
    static lemma {:induction false} RegisterFails(artifacts: map<ObjectKey, L.Artifact>, refs: seq<ObjectKey>, i: nat,
                                                  id: Uuid, v: L.Version, checksum: Checksum)
      requires i < |refs| && L.RegisterClean(artifacts, refs[..i + 1], id, v, checksum) == Err(L.UniqueViolation)
      ensures L.RegisterClean(artifacts, refs, id, v, checksum) == Err(L.UniqueViolation)
      decreases |refs|
    {
      if i + 1 < |refs| {
        assert refs[..|refs| - 1][..i + 1] == refs[..i + 1];
        RegisterFails(artifacts, refs[..|refs| - 1], i, id, v, checksum);
      } else {
        assert refs[..i + 1] == refs;
      }
    }

    /** The field rows after the delivery of a result whose extraction made `records`; `None` if one of them is
        refused. Only an accepted completion that extracted something touches them. */
    static function FieldsAfter(l: L.State, rows: seq<Fields.Field>, key: Key, result: Completion, records: seq<Fields.Record>)
      : Option<seq<Fields.Field>>
    {
      if result.outcome == Completed && records != [] && L.Accepts(l, key, result)
      then Fields.UpsertAll(rows, result.tenant, result.version, records) else Some(rows)
    }

    /** `persistCompletion`, one transaction: an error, of a field row too, leaves every table as it was.
        `records` is what `buildFieldRecords` makes of the extraction, or nothing if it holds no field. */
    method PersistCompletion(key: Key, result: Completion, records: seq<Fields.Record>) returns (r: Result<(), L.Error>)
      modifies this`runs, this`artifacts, this`audit, this`versions, this`documents, this`reviews, this`fieldRows
      ensures var after := FieldsAfter(old(Recorded()), old(fieldRows), key, result, records);
        if after.None? then r == Err(L.FieldRefused) && Recorded() == old(Recorded()) && fieldRows == old(fieldRows)
        else
          && Recorded() == L.Commit(old(Recorded()), L.PersistCompletion(old(Recorded()), key, result))
          && fieldRows == after.value
          && (r.Ok? <==> L.PersistCompletion(old(Recorded()), key, result).Ok?)
          && (r.Err? ==> L.PersistCompletion(old(Recorded()), key, result) == Err(r.error))
    {
      if key !in runs || runs[key].organization != result.tenant { return Err(L.NotFound); }
      if runs[key].version != result.version { return Err(L.VersionMismatch); }
      var id := result.version;
      if id !in versions || versions[id].organization != result.tenant { return Err(L.NotFound); }
      if versions[id].checksum != result.checksum { return Err(L.ChecksumMismatch); }

      var next := L.NextState(result);
      if runs[key].state == next {
        var stored := if runs[key].result.Some? then runs[key].result.value else L.StoredResult(key, result);
        var same := L.Deduplicate(stored, key, result.checksum);
        return if same.Ok? then Ok(()) else Err(same.error);
      }
      var transition := L.ApplyTransition(runs[key].state, next);
      if transition.Err? { return Err(transition.error); }
      r := AcceptWithRows(key, result, records);
    }

    /** The writes of an accepted result: artifact rows, field rows, and the rest. */
    method AcceptWithRows(key: Key, result: Completion, records: seq<Fields.Record>) returns (r: Result<(), L.Error>)
      requires key in runs && result.version in versions
      modifies this`runs, this`artifacts, this`audit, this`versions, this`documents, this`reviews, this`fieldRows
      ensures
        var clean := if result.outcome == Completed
          then L.RegisterClean(old(artifacts), result.artifactRefs, result.version, old(versions)[result.version], result.checksum)
          else Ok(old(artifacts));
        var rows := if result.outcome == Completed && records != []
          then Fields.UpsertAll(old(fieldRows), result.tenant, result.version, records) else Some(old(fieldRows));
        if clean.Err? then r == Err(clean.error) && Recorded() == old(Recorded()) && fieldRows == old(fieldRows)
        else if rows.None? then r == Err(L.FieldRefused) && Recorded() == old(Recorded()) && fieldRows == old(fieldRows)
        else r.Ok? && Recorded() == L.Accept(old(Recorded()), key, result, clean.value) && fieldRows == rows.value
    {
      if L.NextState(result) == L.COMPLETED {
        var savedArtifacts := artifacts;
        var registered := RegisterArtifacts(result.artifactRefs, result.version, versions[result.version], result.checksum);
        if registered.Err? {
          artifacts := savedArtifacts;
          return Err(registered.error);
        }
        if |records| > 0 {
          var upserted := Fields.UpsertAll(fieldRows, result.tenant, result.version, records);
          if upserted.None? {
            artifacts := savedArtifacts;
            return Err(L.FieldRefused);
          }
          fieldRows := upserted.value;
        }
      }
      AcceptResult(key, result);
      r := Ok(());
    }

    /** The remaining writes of `persistCompletion`, once the artifact rows are in. */
    method AcceptResult(key: Key, result: Completion)
      requires key in runs && result.version in versions
      modifies this`runs, this`audit, this`versions, this`documents, this`reviews
      ensures Recorded() == L.Accept(old(Recorded()), key, result, artifacts)
    {
      var id, next := result.version, L.NextState(result);
      runs := runs[key := runs[key].(
        state := next, progress := 100, result := Some(L.StoredResult(key, result)),
        sanitizedError := if next == L.FAILED then Some(L.PROCESSING_REJECTED) else None)];
      audit := audit + [L.AuditEntry(result.tenant, L.Action(next), L.OfRun(key))];
      if next == L.COMPLETED {
        versions := versions[id := versions[id].(state := L.READY_FOR_REVIEW)];
        var d := versions[id].document;
        if d in documents {
          var current := documents[d].currentVersion;
          if current.None? || current.value !in versions || versions[id].number > versions[current.value].number {
            documents := documents[d := documents[d].(currentVersion := Some(id), status := L.READY_FOR_REVIEW)];
          }
        }
        reviews := reviews + {id};
      } else {
        versions := versions[id := versions[id].(state := L.REJECTED)];
        var d := versions[id].document;
        if d in documents {
          var current := documents[d].currentVersion;
          documents := documents[d := documents[d].(
            status := if current.Some? && current.value in versions then versions[current.value].state else L.REJECTED)];
        }
      }
    }

    /** The second transaction of `confirm` up to its read of the version. */
    method BeginConfirm(tx: L.Tx, c: L.Confirmation) returns (r: Result<(), L.Error>)
      requires tx !in confirmations
      modifies this`confirmations
      ensures View() == P.Apply(old(View()), P.Record(L.BeginConfirm(tx, c)))
      ensures r.Ok? <==> c.version in versions && versions[c.version].state == L.UPLOADING
      ensures confirmations == if r.Ok? then old(confirmations)[tx := c] else old(confirmations)
    {
      if c.version !in versions { return Err(L.NotFound); }
      if versions[c.version].state != L.UPLOADING { return Err(L.AlreadyConfirmed); }
      confirmations := confirmations[tx := c];
      r := Ok(());
    }

    /** The ledger side of `confirm`: all of its rows, or none when a unique constraint is violated. The
        result is the payload that the outbox row will carry. */
    method ConfirmLedger(tx: L.Tx) returns (r: Result<Payload, L.Error>)
      requires tx in confirmations
      modifies this`confirmations, this`versions, this`documents, this`artifacts, this`runs, this`audit
      ensures match L.CommitConfirm(old(Recorded()), tx)
              case Ok(t) => r.Ok? && Recorded() == t && P.InsertFor(old(Recorded()), tx) == Some(D.Insert(r.value.key, r.value))
              case Err(e) => r == Err(e) && Recorded() == L.AbortConfirm(old(Recorded()), tx)
    {
      var c := confirmations[tx];
      var before := L.State(versions, documents, runs, artifacts, reviews, audit, confirmations);
      assert before == old(Recorded());
      confirmations := confirmations - {tx};
      if c.version !in versions { return Err(L.NotFound); }
      var v := versions[c.version];
      var key := L.ScanKeyOf(v, c.version);
      if v.objectKey in artifacts || key in runs || L.RunTaken(before, v.organization, c.version, L.OPERATION, L.SCAN_VERSION) {
        return Err(L.UniqueViolation);
      }
      InsertConfirmed(c, v, key);
      r := Ok(L.PayloadFor(v, c));
    }

    method InsertOutboxRow(payload: Payload)
      requires payload.key !in outbox
      modifies this`outbox, this`epoch
      ensures Delivered() == D.Apply(old(Delivered()), D.Insert(payload.key, payload))
    {
      outbox := outbox[payload.key := D.Row(payload, None, None, None, None)];
      epoch := epoch[payload.key := 0];
    }

    /** The writes of `confirm`: version, document, quarantine artifact, run, outbox row and audit entry
        together, or none of them. */
    method WriteConfirm(tx: L.Tx) returns (r: Result<(), L.Error>)
      requires P.Enabled(View(), P.Confirm(tx))
      modifies this`confirmations, this`versions, this`documents, this`artifacts, this`runs, this`audit, this`outbox, this`epoch
      ensures View() == P.Apply(old(View()), P.Confirm(tx))
      ensures r.Ok? <==> L.CommitConfirm(old(Recorded()), tx).Ok?
    {
      var confirmed := ConfirmLedger(tx);
      if confirmed.Ok? {
        InsertOutboxRow(confirmed.value);
        r := Ok(());
      } else {
        r := Err(confirmed.error);
      }
    }

    /** The rows that a confirmation changes or adds in the ledger. */
    method InsertConfirmed(c: L.Confirmation, v: L.Version, key: Key)
      modifies this`versions, this`documents, this`artifacts, this`runs, this`audit
      ensures versions == old(versions)[c.version := v.(state := L.SCAN_QUEUED)]
      ensures documents == if v.document in old(documents)
                           then old(documents)[v.document := old(documents)[v.document].(status := L.PROCESSING)] else old(documents)
      ensures artifacts == old(artifacts)[v.objectKey := L.Artifact(v.organization, c.version, Quarantine, v.checksum, v.size, v.contentType)]
      ensures runs == old(runs)[key := L.Run(v.organization, c.version, L.OPERATION, L.SCAN_VERSION, None, L.QUEUED, 0, None, None)]
      ensures audit == old(audit) + [L.AuditEntry(v.organization, L.UPLOAD_CONFIRMED, L.OfVersion(c.version))]
    {
      versions := versions[c.version := v.(state := L.SCAN_QUEUED)];
      if v.document in documents {
        documents := documents[v.document := documents[v.document].(status := L.PROCESSING)];
      }
      artifacts := artifacts[v.objectKey := L.Artifact(v.organization, c.version, Quarantine, v.checksum, v.size, v.contentType)];
      runs := runs[key := L.Run(v.organization, c.version, L.OPERATION, L.SCAN_VERSION, None, L.QUEUED, 0, None, None)];
      audit := audit + [L.AuditEntry(v.organization, L.UPLOAD_CONFIRMED, L.OfVersion(c.version))];
    }

    /** The commit of a confirmation, which succeeds exactly while its version is still UPLOADING. */
    method CommitConfirm(tx: L.Tx) returns (r: Result<(), L.Error>)
      requires Valid() && tx in confirmations
      modifies this`confirmations, this`versions, this`documents, this`artifacts, this`runs, this`audit, this`outbox, this`epoch
      ensures P.Enabled(old(View()), P.Confirm(tx)) && View() == P.Apply(old(View()), P.Confirm(tx)) && Valid()
      ensures r.Ok? <==> L.CommitConfirm(old(Recorded()), tx).Ok?
      ensures old(confirmations)[tx].version in old(versions)
      ensures r.Ok? <==> old(versions)[old(confirmations)[tx].version].state == L.UPLOADING
    {
      ghost var s := View();
      ConfirmEnabled(s, tx);
      Effects.ConfirmSettles(s.l, tx);
      r := WriteConfirm(tx);
      ProtocolProofs.InvStep(s, P.Confirm(tx));
    }

    static lemma ConfirmEnabled(s: P.State, tx: L.Tx)
      requires ProtocolProofs.Inv(s) && tx in s.l.confirmations
      ensures P.Enabled(s, P.Confirm(tx))
    {
    }

    // ---------------------------------------------------------------- queue events

    /** `fromJob`: an active or progress event about a job that is still in the queue. */
    method FromJob(id: JobId, next: L.RunState, progress: int)
      requires Valid() && next == L.ACTIVE
      modifies this`runs
      ensures View() == old(View()) ||
        (id in queue && var e := P.QueueEvent(queue[id].data.key, next, progress); P.Enabled(old(View()), e) && View() == P.Apply(old(View()), e))
      ensures Valid()
    {
      if id !in queue || !queue[id].data.wellFormed { return; }
      PersistFromQueue(id, next, progress);
    }

    /** `persist` on behalf of a job is one queue event of the protocol. */
    method PersistEvent(id: JobId, job: Payload, next: L.RunState, progress: int)
      requires P.Enabled(View(), P.QueueEvent(job.key, next, progress))
      requires id == BullJobId(job.key) && outbox[job.key].payload == job
      modifies this`runs
      ensures View() == P.Apply(old(View()), P.QueueEvent(job.key, next, progress))
    {
      Persist(job.tenant, job.key, id, next, progress);
    }

    method PersistFromQueue(id: JobId, next: L.RunState, progress: int)
      requires Valid() && id in queue && next in {L.ACTIVE, L.RETRY_SCHEDULED, L.DEAD_LETTERED}
      modifies this`runs
      ensures var e := P.QueueEvent(queue[id].data.key, next, progress); P.Enabled(old(View()), e) && View() == P.Apply(old(View()), e)
      ensures Valid()
    {
      ghost var s := View();
      var job := queue[id].data;
      QueueEventEnabled(s, id, next, progress);
      ProtocolProofs.InvStep(s, P.QueueEvent(job.key, next, progress));
      PersistEvent(id, job, next, progress);
    }

    static lemma QueueEventEnabled(s: P.State, id: JobId, next: L.RunState, progress: int)
      requires ProtocolProofs.Inv(s) && id in s.d.queue && next in {L.ACTIVE, L.RETRY_SCHEDULED, L.DEAD_LETTERED}
      ensures var job := s.d.queue[id].data;
        P.Enabled(s, P.QueueEvent(job.key, next, progress)) && id == BullJobId(job.key) && s.d.rows[job.key].payload == job
    {
      assert D.JobFiled(s.d.rows, id, s.d.queue[id].data);
      assert D.JobKnown(s.d.accepted, s.d.returned, id, s.d.queue[id]);
    }

    /** `handleFailure`: a retry while attempts remain, a dead letter afterwards. */
    method HandleFailure(id: JobId)
      requires Valid()
      modifies this`runs
      ensures id !in queue ==> View() == old(View())
      ensures id in queue ==>
        var next := if queue[id].attemptsMade < 5 then L.RETRY_SCHEDULED else L.DEAD_LETTERED;
        P.Enabled(old(View()), P.QueueEvent(queue[id].data.key, next, 0)) && View() == P.Apply(old(View()), P.QueueEvent(queue[id].data.key, next, 0))
      ensures Valid()
    {
      if id !in queue { return; }
      assert D.JobFiled(outbox, id, queue[id].data);
      PersistFromQueue(id, if queue[id].attemptsMade < D.MAX_ATTEMPTS then L.RETRY_SCHEDULED else L.DEAD_LETTERED, 0);
    }

    static lemma CompletionEnabled(s: P.State, id: JobId) returns (x: Option<Worker.Execution>)
      requires ProtocolProofs.Inv(s) && id in s.d.queue && s.d.queue[id].status.Done?
      requires var v := s.d.queue[id].status.value; v.Compact? && SameIdentity(s.d.queue[id].data, v.result)
      ensures P.Enabled(s, P.CompletionRead(D.Return(id, s.d.queue[id].status.value, x)))
      ensures id == BullJobId(s.d.queue[id].data.key)
    {
      assert D.JobFiled(s.d.rows, id, s.d.queue[id].data);
      assert D.JobKnown(s.d.accepted, s.d.returned, id, s.d.queue[id]);
      x :| D.Return(id, s.d.queue[id].status.value, x) in s.d.returned;
    }

    /** `persistCompletion` on what a job returned is one event of the protocol, unless a field row is refused. */
    method CompletionEvent(key: Key, result: Completion, records: seq<Fields.Record>, ghost r: D.Return)
      returns (thrown: bool, refused: bool)
      requires P.Enabled(View(), P.CompletionRead(r)) && r.id.key == key && r.value == Compact(result)
      modifies this`runs, this`artifacts, this`audit, this`versions, this`documents, this`reviews, this`fieldRows
      ensures refused <==> FieldsAfter(old(Recorded()), old(fieldRows), key, result, records).None?
      ensures refused ==> thrown && View() == old(View()) && fieldRows == old(fieldRows)
      ensures !refused ==>
        && View() == P.Apply(old(View()), P.CompletionRead(r))
        && Some(fieldRows) == FieldsAfter(old(Recorded()), old(fieldRows), key, result, records)
        && (thrown <==> L.PersistCompletion(old(Recorded()), key, result).Err?)
    {
      var outcome := PersistCompletion(key, result, records);
      thrown, refused := outcome.Err?, outcome == Err(L.FieldRefused);
    }

    /** The value is a valid result with tenant, version and correlation of its envelope. */
    static predicate Belongs(data: Payload, value: ReturnValue) {
      && value.Compact? && value.result.tenant == data.tenant && value.result.version == data.version
      && value.result.correlation == data.correlation
    }

    /** `handleCompleted` accepts the value for persisting; a job that is not finished shows none. */
    predicate Valuable(job: D.Job) {
      job.status.Done? && job.status.value.Compact? && SameIdentity(job.data, job.status.value.result)
    }

    /** The records of the extraction that a result refers to, given what reading it yields; `None` if that
        raised. */
    static function RecordsRead(result: Completion, extraction: Option<seq<Fields.Record>>): Option<seq<Fields.Record>> {
      if result.extractedDataRef.None? then Some([]) else extraction
    }

    /** The extraction of the result can be read and its rows can be stored. */
    static predicate Storable(l: L.State, rows: seq<Fields.Field>, key: Key, result: Completion, extraction: Option<seq<Fields.Record>>) {
      RecordsRead(result, extraction).Some? && FieldsAfter(l, rows, key, result, RecordsRead(result, extraction).value).Some?
    }

    /** `handleCompleted`: persists a valid result that matches its envelope together with its extraction, and
        throws if it is not valid, if the extraction cannot be read, or if the transaction fails; a job that is
        gone is ignored. `stored` is false exactly if a valid result was held up by its extraction. */
    method HandleCompleted(id: JobId, extraction: Option<seq<Fields.Record>>)
      returns (thrown: bool, stored: bool, ghost x: Option<Worker.Execution>)
      requires Valid()
      modifies this`runs, this`artifacts, this`audit, this`versions, this`documents, this`reviews, this`fieldRows
      ensures Valid()
      ensures if id in queue && Valuable(queue[id]) && stored
        then var e := P.CompletionRead(D.Return(id, queue[id].status.value, x)); P.Enabled(old(View()), e) && View() == P.Apply(old(View()), e)
        else View() == old(View())
      ensures stored <==> (id in queue && Valuable(queue[id]) ==>
        Storable(old(Recorded()), old(fieldRows), queue[id].data.key, queue[id].status.value.result, extraction))
      ensures if id in queue && Valuable(queue[id]) && stored
        then Some(fieldRows) == FieldsAfter(old(Recorded()), old(fieldRows), queue[id].data.key, queue[id].status.value.result,
                                            RecordsRead(queue[id].status.value.result, extraction).value)
        else fieldRows == old(fieldRows)
      ensures id !in queue ==> !thrown
      ensures id in queue && !(queue[id].status.Done? && Belongs(queue[id].data, queue[id].status.value)) ==>
        thrown && View() == old(View()) && fieldRows == old(fieldRows)
      ensures id in queue && queue[id].status.Done? && Belongs(queue[id].data, queue[id].status.value) && stored ==>
        var e := P.CompletionRead(D.Return(id, queue[id].status.value, x)); P.Enabled(old(View()), e) && View() == P.Apply(old(View()), e)
      ensures id in queue && queue[id].status.Done? && Belongs(queue[id].data, queue[id].status.value) ==>
        var reference := queue[id].status.value.result.extractedDataRef;
        (reference.None? ==> stored && fieldRows == old(fieldRows)) && (reference.Some? && extraction.None? ==> !stored && thrown)
      ensures id in queue ==> (thrown <==>
        !Valuable(queue[id]) || !stored || L.PersistCompletion(old(Recorded()), queue[id].data.key, queue[id].status.value.result).Err?)
    {
      x, stored := None, true;
      if id !in queue { return false, true, None; }
      var job := queue[id];
      assert D.JobFiled(outbox, id, job.data);
      if !job.data.wellFormed { return false, true, None; }
      if !Valuable(job) { return true, true, None; }
      var result := job.status.value.result;
      var records := RecordsRead(result, extraction);
      if records.None? { return true, false, None; }
      x := CompletionEnabled(View(), id);
      ProtocolProofs.InvStep(View(), P.CompletionRead(D.Return(id, job.status.value, x)));
      var refused: bool;
      thrown, refused := CompletionEvent(job.data.key, result, records.value, D.Return(id, job.status.value, x));
      stored := !refused;
    }

    /** `reconcileCompleted`: the run is made ACTIVE first, so that the completion is legal. */
    method ReconcileCompleted(id: JobId, extraction: Option<seq<Fields.Record>>) returns (thrown: bool, stored: bool)
      requires Valid()
      modifies this`runs, this`artifacts, this`audit, this`versions, this`documents, this`reviews, this`fieldRows
      ensures Valid()
      ensures id !in queue ==> !thrown && View() == old(View()) && fieldRows == old(fieldRows)
      ensures id in queue && queue[id].status.Done? ==> Recovery.Recovers(old(View()), id, stored, View())
      ensures id in queue && Valuable(queue[id]) ==>
        var e := P.QueueEvent(queue[id].data.key, L.ACTIVE, 100);
        P.Enabled(old(View()), e)
        && (stored <==> Storable(P.Apply(old(View()), e).l, old(fieldRows), queue[id].data.key, queue[id].status.value.result, extraction))
      ensures id in queue && !queue[id].status.Done? ==>
        thrown && P.Run(old(View()), [P.QueueEvent(queue[id].data.key, L.ACTIVE, 100)], View())
      ensures !stored ==> thrown && fieldRows == old(fieldRows)
    {
      if id !in queue { return false, true; }
      ghost var s := View();
      ghost var k := queue[id].data.key;
      assert D.JobFiled(outbox, id, queue[id].data);
      PersistFromQueue(id, L.ACTIVE, 100);
      ghost var s1 := View();
      ghost var x: Option<Worker.Execution>;
      thrown, stored, x := HandleCompleted(id, extraction);
      if Valuable(queue[id]) && stored {
        Recovery.RunTwo(s, P.QueueEvent(k, L.ACTIVE, 100), P.CompletionRead(D.Return(id, queue[id].status.value, x)), View());
      } else {
        Recovery.RunOne(s, P.QueueEvent(k, L.ACTIVE, 100), View());
      }
    }

    // ---------------------------------------------------------------- reconcile

    /** `list_reconcilable_runs`: the first runs in the scan order of the query that are QUEUED, ACTIVE or
        RETRY_SCHEDULED, each with its link; at most 100 of them, and all if there is room. */
    method ListReconcilableRuns(limit: int, scan: seq<Key>) returns (entries: seq<Recovery.Entry>)
      requires Distinct(scan) && forall k :: k in scan ==> k in runs
      ensures Recovery.Listing(Recorded(), entries)
      ensures |entries| <= (if limit > 100 then 100 else if limit < 1 then 1 else limit)
      ensures forall i :: 0 <= i < |entries| ==>
        && entries[i].key in scan && entries[i].link == runs[entries[i].key].bullJobId
        && runs[entries[i].key].state in {L.QUEUED, L.ACTIVE, L.RETRY_SCHEDULED}
      ensures |entries| < (if limit > 100 then 100 else if limit < 1 then 1 else limit) || |scan| <= limit <= 100 ==>
        forall k :: k in scan && runs[k].state in {L.QUEUED, L.ACTIVE, L.RETRY_SCHEDULED} ==>
          exists i :: 0 <= i < |entries| && entries[i].key == k
    {
      var clamped := if limit > 100 then 100 else if limit < 1 then 1 else limit;
      entries := [];
      for i := 0 to |scan|
        invariant |entries| <= clamped && |entries| <= i
        invariant Recovery.Listing(Recorded(), entries)
        invariant forall j :: 0 <= j < |entries| ==> entries[j].key in scan[..i]
        invariant |entries| < clamped || |scan| <= clamped ==>
          forall k :: k in scan[..i] && runs[k].state in Recovery.OPEN ==> exists j :: 0 <= j < |entries| && entries[j].key == k
      {
        assert scan[..i + 1] == scan[..i] + [scan[i]];
        if |entries| < clamped && runs[scan[i]].state in Recovery.OPEN {
          ghost var before := entries;
          entries := entries + [Recovery.Entry(scan[i], runs[scan[i]].bullJobId)];
          assert forall j :: 0 <= j < |before| ==> entries[j] == before[j];
          assert entries[|before|].key == scan[i];
        }
      }
      assert scan[..|scan|] == scan;
    }

    /** One iteration of `reconcile`; `token` and `scan` serve the publishing it may trigger, `extraction` is what
        the extraction of the result yields that it may persist. */
    method ReconcileOne(entry: Recovery.Entry, token: D.Token, scan: seq<Key>, extraction: Option<seq<Fields.Record>>)
      returns (pass: Recovery.Pass)
      requires Valid() && entry.key in runs && token !in usedTokens && Distinct(scan) && forall k :: k in scan ==> k in outbox
      modifies this
      ensures Valid() && Recovery.Handles(old(View()), entry, pass, View())
      ensures entry.link.None? || entry.link.value !in old(queue) ==>
        P.Run(old(View()), [P.ResetRow(entry.key)] + Recovery.PassEvents(old(outbox), pass), View())
      ensures entry.link.Some? && entry.link.value in old(queue) && !old(queue)[entry.link.value].status.Done? ==> View() == old(View())
      ensures entry.link.Some? && entry.link.value in old(queue) && old(queue)[entry.link.value].status.Done? ==>
        Recovery.Recovers(old(View()), entry.link.value, pass.stored, View())
      ensures usedTokens <= old(usedTokens) + {token} && outbox.Keys == old(outbox).Keys && runs.Keys == old(runs).Keys
    {
      pass := Recovery.Pass(token, [], true);
      var id := if entry.link.Some? then entry.link.value else Verbatim(entry.key);
      if id in queue { assert D.JobFiled(outbox, id, queue[id].data); }
      if id !in queue {
        pass := Refresh(entry.key, token, scan);
      } else if queue[id].status.Done? {
        var stored := RecoverJob(id, extraction);
        pass := Recovery.Pass(token, [], stored);
      }
    }

    /** The branch for a completed job; what it throws is logged. */
    method RecoverJob(id: JobId, extraction: Option<seq<Fields.Record>>) returns (stored: bool)
      requires Valid() && id in queue && queue[id].status.Done?
      modifies this`runs, this`artifacts, this`audit, this`versions, this`documents, this`reviews, this`fieldRows
      ensures Valid() && Recovery.Recovers(old(View()), id, stored, View()) && runs.Keys == old(runs).Keys
    {
      KeysAgree(View());
      var thrown: bool;
      thrown, stored := ReconcileCompleted(id, extraction);
      KeysAgree(View());
    }

    /** The branch for a missing job: reset the row, then publish what is pending. */
    method Refresh(key: Key, token: D.Token, scan: seq<Key>) returns (pass: Recovery.Pass)
      requires Valid() && key in runs && token !in usedTokens && Distinct(scan) && forall k :: k in scan ==> k in outbox
      modifies this`outbox, this`queue, this`runs, this`publishers, this`usedTokens, this`accepted, this`epoch
      ensures Valid() && P.Run(old(View()), [P.ResetRow(key)] + Recovery.PassEvents(old(outbox), pass), View())
      ensures usedTokens == old(usedTokens) + {token} && outbox.Keys == old(outbox).Keys && runs.Keys == old(runs).Keys
    {
      ghost var s, rows := View(), outbox;
      ResetForReconcile(key);
      ghost var s1, rows1 := View(), outbox;
      pass := PublishPending(token, scan);
      ResetThenPass(s, key, s1, rows1, pass, View());
    }

    static lemma ResetThenPass(s: P.State, key: Key, s1: P.State, rows1: map<Key, D.Row>, pass: Recovery.Pass, t: P.State)
      requires ProtocolProofs.Inv(s) && P.Enabled(s, P.ResetRow(key)) && s1 == P.Apply(s, P.ResetRow(key))
      requires rows1 == s1.d.rows && P.Run(s1, Recovery.PassEvents(rows1, pass), t)
      ensures P.Run(s, [P.ResetRow(key)] + Recovery.PassEvents(s.d.rows, pass), t)
      ensures ProtocolProofs.Inv(t) && t.l.runs.Keys == t.d.rows.Keys
    {
      ProtocolProofs.InvStep(s, P.ResetRow(key));
      ProtocolProofs.RunKeepsInv(s1, Recovery.PassEvents(rows1, pass), t);
      JoinReset(s, key, s1, rows1, pass, t);
    }

    static lemma JoinReset(s: P.State, key: Key, s1: P.State, rows1: map<Key, D.Row>, pass: Recovery.Pass, t: P.State)
      requires P.Enabled(s, P.ResetRow(key)) && s1 == P.Apply(s, P.ResetRow(key))
      requires rows1 == s1.d.rows && P.Run(s1, Recovery.PassEvents(rows1, pass), t)
      ensures P.Run(s, [P.ResetRow(key)] + Recovery.PassEvents(s.d.rows, pass), t)
    {
      Recovery.WorkEventsSame(s.d.rows, rows1, pass.token, pass.batch);
      Recovery.RunOne(s, P.ResetRow(key), s1);
      P.RunAppend(s, [P.ResetRow(key)], s1, Recovery.PassEvents(rows1, pass), t);
    }

    static lemma KeysAgree(s: P.State)
      requires ProtocolProofs.Inv(s)
      ensures s.l.runs.Keys == s.d.rows.Keys
    {
      assert forall k :: k in s.l.runs <==> k in s.d.rows;
    }

    /** A scan of a table meets each row once. */
    static ghost predicate IsScan(scan: seq<Key>, table: set<Key>) {
      Distinct(scan) && forall k :: k in scan ==> k in table
    }

    /** The tokens from index `i` on were never drawn. */
    static ghost predicate FreshFrom(tokens: seq<D.Token>, i: nat, used: set<D.Token>) {
      forall j :: i <= j < |tokens| ==> tokens[j] !in used
    }

    static lemma FreshNext(tokens: seq<D.Token>, i: nat, used: set<D.Token>, after: set<D.Token>)
      requires i < |tokens| && Distinct(tokens) && FreshFrom(tokens, i, used) && after <= used + {tokens[i]}
      ensures FreshFrom(tokens, i + 1, after)
    {
    }

    static lemma NextOfRound(s: P.State, entries: seq<Recovery.Entry>, i: nat, passes: seq<Recovery.Pass>, m: P.State,
                             pass: Recovery.Pass, t: P.State)
      requires i < |entries| && |passes| == i && Recovery.Round(s, entries[..i], passes, m) && Recovery.Handles(m, entries[i], pass, t)
      ensures Recovery.Round(s, entries[..i + 1], passes + [pass], t)
    {
      Recovery.RoundExtend(s, entries[..i], passes, m, entries[i], pass, t);
      assert entries[..i] + [entries[i]] == entries[..i + 1];
    }

    /** `ReconcileOne` as the next iteration of a round from `s`. */
    method ReconcileNext(entries: seq<Recovery.Entry>, i: nat, passes: seq<Recovery.Pass>, token: D.Token, scan: seq<Key>,
                         extraction: Option<seq<Fields.Record>>, ghost s: P.State)
      returns (all: seq<Recovery.Pass>)
      requires i < |entries| && |passes| == i && Recovery.Round(s, entries[..i], passes, View())
      requires Valid() && entries[i].key in runs && token !in usedTokens && IsScan(scan, outbox.Keys)
      modifies this
      ensures |all| == i + 1 && Recovery.Round(s, entries[..i + 1], all, View())
      ensures Valid() && usedTokens <= old(usedTokens) + {token} && outbox.Keys == old(outbox).Keys && runs.Keys == old(runs).Keys
    {
      ghost var before := View();
      var pass := ReconcileOne(entries[i], token, scan, extraction);
      NextOfRound(s, entries, i, passes, before, pass, View());
      all := passes + [pass];
    }

    /** The loop of `reconcile`. `tokens` and `rowScans` serve the publishing that iterations may trigger,
        `extractions` the persisting. */
    method ReconcileAll(entries: seq<Recovery.Entry>, tokens: seq<D.Token>, rowScans: seq<seq<Key>>,
                        extractions: seq<Option<seq<Fields.Record>>>) returns (passes: seq<Recovery.Pass>)
      requires Valid() && |entries| <= |tokens| == |rowScans| == |extractions| && Distinct(tokens) && FreshFrom(tokens, 0, usedTokens)
      requires forall i :: 0 <= i < |rowScans| ==> IsScan(rowScans[i], outbox.Keys)
      requires forall i :: 0 <= i < |entries| ==> entries[i].key in runs
      modifies this
      ensures Valid() && |passes| == |entries| && Recovery.Round(old(View()), entries, passes, View())
    {
      ghost var s, runKeys, rowKeys := View(), runs.Keys, outbox.Keys;
      passes := [];
      for i := 0 to |entries|
        invariant Valid() && |passes| == i && runs.Keys == runKeys && outbox.Keys == rowKeys
        invariant FreshFrom(tokens, i, usedTokens)
        invariant Recovery.Round(s, entries[..i], passes, View())
      {
        ghost var used := usedTokens;
        assert IsScan(rowScans[i], rowKeys);
        passes := ReconcileNext(entries, i, passes, tokens[i], rowScans[i], extractions[i], s);
        FreshNext(tokens, i, used, usedTokens);
      }
      assert entries[..|entries|] == entries;
    }

    /** `reconcile`, undisturbed: list the open runs, then handle them one by one. */
    method Reconcile(runScan: seq<Key>, tokens: seq<D.Token>, rowScans: seq<seq<Key>>, extractions: seq<Option<seq<Fields.Record>>>)
      returns (entries: seq<Recovery.Entry>, passes: seq<Recovery.Pass>)
      requires Valid() && Distinct(runScan) && forall k :: k in runScan ==> k in runs
      requires |tokens| == |rowScans| == |extractions| == 100 && Distinct(tokens) && FreshFrom(tokens, 0, usedTokens)
      requires forall i :: 0 <= i < |rowScans| ==> IsScan(rowScans[i], outbox.Keys)
      modifies this
      ensures Valid() && Recovery.Listing(old(Recorded()), entries)
      ensures |passes| == |entries| && Recovery.Round(old(View()), entries, passes, View())
    {
      entries := ListReconcilableRuns(100, runScan);
      passes := ReconcileAll(entries, tokens, rowScans, extractions);
    }
  }
}
