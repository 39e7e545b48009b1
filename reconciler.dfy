/** The reconciler's sweep: in a fresh scope, load the intents that are
    still PENDING a second after their creation and drive each through the
    processor, in the order the query returned them; an error or an
    exception on one intent does not stop the others. */
module Reconciler {
  import opened Wrappers
  import opened PayDb
  import opened Intents
  import opened MainStore
  import opened PayApi

  const CutoffMs: int := 1000

  /** An intent the sweep picks up. */
  predicate Stuck(i: Intent, now: int)
  {
    i.status == Pending && i.createdAt < now - CutoffMs
  }

  /** Every stored intent is keyed by its own id. */
  predicate KeyedIntents(intents: map<string, Intent>)
  {
    forall id :: id in intents ==> intents[id].id == id
  }

  /** The ids the query returns, in `order`, the order the database lists its
      intents in: exactly the stored intents that are stuck. */
  function StuckIds(order: seq<string>, intents: map<string, Intent>, now: int): (ids: seq<string>)
    ensures forall id :: id in ids <==> id in order && id in intents && Stuck(intents[id], now)
    ensures Distinct(order) ==> Distinct(ids)
    ensures |ids| <= |order|
    decreases |order|
  {
    if order == [] then []
    else
      var rest := StuckIds(order[1..], intents, now);
      if order[0] in intents && Stuck(intents[order[0]], now) then [order[0]] + rest else rest
  }

  /** The stored rows of the selected ids. */
  function RowsOf(ids: seq<string>, intents: map<string, Intent>): (rows: seq<Intent>)
    requires forall id :: id in ids ==> id in intents
  {
    seq(|ids|, k requires 0 <= k < |ids| => intents[ids[k]])
  }

  /** When the listing covers every stored intent, an intent is selected
      exactly when it is PENDING and created more than a second ago; a
      CRACKED, SUCCESS or FAILURE intent is never selected. */
  lemma SelectsExactlyStuck(order: seq<string>, intents: map<string, Intent>, now: int, id: string)
    requires forall k :: k in intents <==> k in order
    ensures id in StuckIds(order, intents, now) <==>
      id in intents && intents[id].status == Pending && intents[id].createdAt < now - 1000
    ensures id in intents && intents[id].status in {Cracked, Succeeded, Failed} ==> id !in StuckIds(order, intents, now)
  {
  }

  /** Per selected intent, what its saves report and what the pay service answers. */
  datatype Run = Run(saves: Saves, transfer: nat -> Attempt, balance: nat -> Attempt)

  /** The state a sweep threads through its intents. */
  datatype Swept = Swept(stored: Rows, working: Rows, outcomes: seq<Result<TxProcRes, string>>, notified: seq<Option<Money>>)

  /** The sweep on values: each row is processed against what the previous
      ones left behind, stored rows and working copy alike. */
  function Drive(st: Swept, rows: seq<Intent>, runs: string -> Run, now: int): Swept
    decreases |rows|
  {
    if rows == [] then st
    else
      var run := runs(rows[0].id);
      var p := Process(st.stored, st.working, rows[0], run.saves, run.transfer, run.balance, now);
      Drive(Swept(p.stored, p.working, st.outcomes + [p.outcome], st.notified + [p.notified]), rows[1..], runs, now)
  }

  /** Every selected intent is processed exactly once, in list order: the
      sweep records one outcome per row whatever the earlier outcomes were. */
  lemma {:induction false} DriveProcessesEach(st: Swept, rows: seq<Intent>, runs: string -> Run, now: int)
    ensures |Drive(st, rows, runs, now).outcomes| == |st.outcomes| + |rows|
    ensures |Drive(st, rows, runs, now).notified| == |st.notified| + |rows|
    ensures Drive(st, rows, runs, now).outcomes[..|st.outcomes|] == st.outcomes
    decreases |rows|
  {
    if rows != [] {
      var run := runs(rows[0].id);
      var p := Process(st.stored, st.working, rows[0], run.saves, run.transfer, run.balance, now);
      var next := Swept(p.stored, p.working, st.outcomes + [p.outcome], st.notified + [p.notified]);
      DriveProcessesEach(next, rows[1..], runs, now);
      assert next.outcomes[..|st.outcomes|] == st.outcomes;
    }
  }

  /** Processing one intent changes the working copy only at that intent's id. */
  lemma ProcessTouchesOnlyItsIntent(stored: Rows, working: Rows, i: Intent, saves: Saves,
                                    transfer: nat -> Attempt, balance: nat -> Attempt, now: int, id: string)
    requires id != i.id
    ensures var p := Process(stored, working, i, saves, transfer, balance, now);
      && p.working.players == working.players && p.working.tables == working.tables && p.working.bets == working.bets
      && (id in p.working.intents <==> id in working.intents)
      && (id in working.intents ==> p.working.intents[id] == working.intents[id])
  {
  }

  /** A sweep over PENDING rows with distinct ids claims every one of them:
      none is PENDING in the working copy afterwards. */
  lemma {:induction false} DriveClaimsAll(st: Swept, rows: seq<Intent>, runs: string -> Run, now: int)
    requires forall k :: 0 <= k < |rows| ==> rows[k].status == Pending
    requires forall a, b :: 0 <= a < b < |rows| ==> rows[a].id != rows[b].id
    ensures forall k :: 0 <= k < |rows| ==>
      rows[k].id in Drive(st, rows, runs, now).working.intents &&
      Drive(st, rows, runs, now).working.intents[rows[k].id].status != Pending
    decreases |rows|
  {
    if rows != [] {
      var run := runs(rows[0].id);
      var p := Process(st.stored, st.working, rows[0], run.saves, run.transfer, run.balance, now);
      var next := Swept(p.stored, p.working, st.outcomes + [p.outcome], st.notified + [p.notified]);
      DriveClaimsAll(next, rows[1..], runs, now);
      assert rows[0].id in p.working.intents && p.working.intents[rows[0].id].status != Pending;
      DriveKeeps(next, rows[1..], runs, now, rows[0].id);
    }
  }

  /** Rows of other ids leave an intent's working entry alone. */
  lemma {:induction false} DriveKeeps(st: Swept, rows: seq<Intent>, runs: string -> Run, now: int, id: string)
    requires forall k :: 0 <= k < |rows| ==> rows[k].id != id
    requires id in st.working.intents
    ensures id in Drive(st, rows, runs, now).working.intents
    ensures Drive(st, rows, runs, now).working.intents[id] == st.working.intents[id]
    decreases |rows|
  {
    if rows != [] {
      var run := runs(rows[0].id);
      ProcessTouchesOnlyItsIntent(st.stored, st.working, rows[0], run.saves, run.transfer, run.balance, now, id);
      var p := Process(st.stored, st.working, rows[0], run.saves, run.transfer, run.balance, now);
      DriveKeeps(Swept(p.stored, p.working, st.outcomes + [p.outcome], st.notified + [p.notified]), rows[1..], runs, now, id);
    }
  }

  /** After a sweep, no intent it selected is PENDING in the working copy:
      each one was claimed, and the next sweep does not select it again once
      a save has written the working copy. */
  lemma SweepClaimsSelected(stored: Rows, order: seq<string>, runs: string -> Run, now: int)
    requires KeyedIntents(stored.intents) && Distinct(order)
    ensures var ids := StuckIds(order, stored.intents, now);
      var after := Drive(Swept(stored, stored, [], []), RowsOf(ids, stored.intents), runs, now);
      forall id :: id in ids ==> id in after.working.intents && after.working.intents[id].status != Pending
  {
    var ids := StuckIds(order, stored.intents, now);
    var rows := RowsOf(ids, stored.intents);
    DriveClaimsAll(Swept(stored, stored, [], []), rows, runs, now);
    forall id | id in ids
      ensures exists k :: 0 <= k < |rows| && rows[k].id == id
    {
      var k :| 0 <= k < |ids| && ids[k] == id;
      assert rows[k].id == id;
    }
  }

  /** Attaching one stored row: a new object carrying it joins the
      tracked intents, and the working copy still equals the stored rows. */
  method Attach(db: MainDb, row: Intent) returns (tx: PendingTx)
    requires db.Valid() && db.Working() == db.stored
    requires row.id in db.stored.intents && db.stored.intents[row.id] == row
    requires forall j :: 0 <= j < |db.tracked| ==> db.tracked[j].id != row.id
    modifies db
    ensures fresh(tx) && tx.Image() == row
    ensures db.Valid() && db.tracked == old(db.tracked) + [tx]
    ensures db.stored == old(db.stored) && db.Working() == db.stored
  {
    ghost var w := db.Working();
    tx := new PendingTx(row);
    assert db.Working() == w;
    db.Add(tx);
    assert db.Working() == w.(intents := w.intents[row.id := row]);
    assert w.intents[row.id := row] == w.intents;
  }

  /** Loading the selected rows: one tracked object per id, carrying its
      stored row; the working copy still equals the stored rows. */
  method Load(db: MainDb, ids: seq<string>) returns (txs: seq<PendingTx>)
    requires db.Valid() && db.tracked == [] && db.Working() == db.stored
    requires KeyedIntents(db.stored.intents) && Distinct(ids)
    requires forall id :: id in ids ==> id in db.stored.intents
    modifies db
    ensures db.Valid() && db.tracked == txs && |txs| == |ids|
    ensures db.stored == old(db.stored) && db.Working() == db.stored
    ensures forall j :: 0 <= j < |txs| ==> txs[j].Image() == db.stored.intents[ids[j]] && fresh(txs[j])
    ensures forall a, b :: 0 <= a < b < |txs| ==> txs[a] != txs[b]
  {
    txs := [];
    for k := 0 to |ids|
      invariant db.Valid() && db.tracked == txs && |txs| == k
      invariant db.stored == old(db.stored) && db.Working() == db.stored
      invariant forall j :: 0 <= j < k ==> txs[j].Image() == db.stored.intents[ids[j]] && fresh(txs[j])
      invariant forall a, b :: 0 <= a < b < k ==> txs[a] != txs[b]
    {
      var row := db.stored.intents[ids[k]];
      forall j | 0 <= j < |db.tracked|
        ensures db.tracked[j].id != row.id
      {
        assert db.tracked[j].Image() == db.stored.intents[ids[j]];
      }
      var tx := Attach(db, row);
      txs := txs + [tx];
    }
  }

  /** One row's step of the sweep on values. */
  function Step(st: Swept, row: Intent, runs: string -> Run, now: int): Swept
  {
    var run := runs(row.id);
    var p := Process(st.stored, st.working, row, run.saves, run.transfer, run.balance, now);
    Swept(p.stored, p.working, st.outcomes + [p.outcome], st.notified + [p.notified])
  }

  lemma DriveStep(st: Swept, rows: seq<Intent>, runs: string -> Run, now: int)
    requires rows != []
    ensures Drive(st, rows, runs, now) == Drive(Step(st, rows[0], runs, now), rows[1..], runs, now)
  {
  }

  /** Drives the loaded objects one after the other through the processor. */
  method DriveLoaded(db: MainDb, txs: seq<PendingTx>, ghost rows: seq<Intent>, runs: string -> Run, now: int)
    returns (outcomes: seq<Result<TxProcRes, string>>, notified: seq<Option<Money>>)
    requires db.Valid() && db.tracked == txs && |rows| == |txs|
    requires forall j :: 0 <= j < |txs| ==> txs[j].Image() == rows[j]
    requires forall a, b :: 0 <= a < b < |txs| ==> txs[a] != txs[b]
    modifies db, txs
    ensures db.Valid() && db.tracked == txs
    ensures Swept(db.stored, db.Working(), outcomes, notified)
      == Drive(Swept(old(db.stored), old(db.Working()), [], []), rows, runs, now)
  {
    outcomes, notified := [], [];
    ghost var goal := Drive(Swept(db.stored, db.Working(), [], []), rows, runs, now);
    for k := 0 to |txs|
      invariant db.Valid() && db.tracked == txs
      invariant forall j :: k <= j < |txs| ==> txs[j].Image() == rows[j]
      invariant Drive(Swept(db.stored, db.Working(), outcomes, notified), rows[k..], runs, now) == goal
    {
      ghost var before := Swept(db.stored, db.Working(), outcomes, notified);
      DriveStep(before, rows[k..], runs, now);
      assert rows[k..][1..] == rows[k + 1..];
      var run := runs(txs[k].id);
      var outcome, told := ProcessPendingTx(txs[k], db, run.saves, run.transfer, run.balance, now);
      outcomes, notified := outcomes + [outcome], notified + [told];
      assert Swept(db.stored, db.Working(), outcomes, notified) == Step(before, rows[k], runs, now);
    }
  }

  /** `TryCompletePendingTx`: one sweep. `order` is how the database lists
      its intents; `runs` gives each intent's saves and pay-service answers. */
  method Sweep(db: MainDb, order: seq<string>, runs: string -> Run, now: int)
    returns (outcomes: seq<Result<TxProcRes, string>>, notified: seq<Option<Money>>)
    requires KeyedIntents(db.stored.intents)
    requires forall id :: id in db.stored.intents <==> id in order
    requires Distinct(order)
    modifies db
    ensures db.Valid()
    ensures var ids := StuckIds(order, old(db.stored).intents, now);
      Swept(db.stored, db.Working(), outcomes, notified)
        == Drive(Swept(old(db.stored), old(db.stored), [], []), RowsOf(ids, old(db.stored).intents), runs, now)
  {
    db.BeginScope();
    var ids := StuckIds(order, db.stored.intents, now);
    var txs := Load(db, ids);
    outcomes, notified := DriveLoaded(db, txs, RowsOf(ids, db.stored.intents), runs, now);
  }
}
