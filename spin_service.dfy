/** The settlement scheduler: for every table whose spin is due it removes
    the idle players, then spins, resolving the table's open bets and
    queueing a PAYOUT intent for every winning one. Each table's tick runs
    in its own database scope, and the idle removal and the spin are saved
    separately. Times are milliseconds. */
module SpinService {
  import opened Wrappers
  import opened Text
  import opened PayDb
  import opened TableSchema
  import opened Intents
  import opened MainStore

  /** A seated player who has not acted for thirty minutes is idle. */
  const IdleMs: int := 30 * 60 * 1000

  /** The announcement a successful spin sends to the table's group. */
  datatype SpinResult = SpinResult(nextSpinTime: int, winningNumber: int)

  predicate Idle(p: Player, now: int)
  {
    p.lastActiveAt < now - IdleMs
  }

  /** The players seated at the table who are idle. */
  function IdleSeated(players: map<string, Player>, tableId: string, now: int): (s: set<string>)
    ensures forall id :: id in s <==> id in players && players[id].currentTableId == Some(tableId) && Idle(players[id], now)
  {
    set id | id in Seated(players, tableId) && Idle(players[id], now)
  }

  /** The players with the given ones taken off their table. */
  function Unseated(players: map<string, Player>, ids: set<string>): map<string, Player>
  {
    map id | id in players :: if id in ids then players[id].(currentTableId := None) else players[id]
  }

  /** Removing the idle players leaves exactly the active ones seated at the
      table, changes nothing but the removed players' table, and touches no
      player of another table. */
  lemma IdleRemovalExact(players: map<string, Player>, tableId: string, now: int)
    ensures var after := Unseated(players, IdleSeated(players, tableId, now));
      && after.Keys == players.Keys
      && Seated(after, tableId) == set id | id in Seated(players, tableId) && !Idle(players[id], now)
      && (forall id :: id in players && players[id].currentTableId != Some(tableId) ==> after[id] == players[id])
      && (forall id :: id in IdleSeated(players, tableId, now) ==> after[id] == players[id].(currentTableId := None))
  {
  }

  /** `RemoveIdlePlayers`: a missing table raises. Otherwise the idle players
      are taken off the table and the context is saved; the group is told
      who left only when that save succeeded. */
  method RemoveIdlePlayers(db: MainDb, tableId: string, save: DbSaveResult, now: int) returns (r: Result<set<string>, string>)
    requires db.Valid()
    modifies db
    ensures tableId !in old(db.tables) ==> r.Failure? && unchanged(db)
    ensures tableId in old(db.tables) ==>
      var idles := IdleSeated(old(db.players), tableId, now);
      && db.Valid() && db.tracked == old(db.tracked)
      && db.Working() == old(db.Working()).(players := Unseated(old(db.players), idles))
      && db.stored == (if save.Saved? then db.Working() else old(db.stored))
      && r == Success(if save.Saved? then idles else {})
  {
    if tableId !in db.tables {
      return Failure("Object reference not set to an instance of an object.");
    }
    var idles := IdleSeated(db.players, tableId, now);
    ghost var players0 := db.players;
    var todo := idles;
    while todo != {}
      invariant todo <= idles
      invariant db.players == Unseated(players0, idles - todo)
      invariant db.tracked == old(db.tracked) && db.tables == old(db.tables) && db.bets == old(db.bets)
      invariant db.stored == old(db.stored)
      decreases |todo|
    {
      var id :| id in todo;
      db.players := db.players[id := db.players[id].(currentTableId := None)];
      todo := todo - {id};
    }
    assert idles - todo == idles;
    var saved := db.TrySave(save);
    if saved.Saved? {
      return Success(idles);
    }
    return Success({});
  }

  /** What a bet pays: the stake and 36 times the stake on a hit, else nothing. */
  function Winnings(bet: Bet, winning: int): Money
  {
    if bet.chosenNumber == winning then bet.amount + bet.amount * 36 else 0
  }

  function Resolve(bet: Bet, winning: int, now: int): Bet
  {
    bet.(winningNumber := Some(winning), payout := Winnings(bet, winning), isResolved := true, resolvedAt := Some(now))
  }

  /** The table's unresolved bets. */
  function OpenBets(bets: map<string, Bet>, tableId: string): (s: set<string>)
    ensures forall id :: id in s <==> id in bets && bets[id].tableId == tableId && !bets[id].isResolved
  {
    set id | id in bets && bets[id].tableId == tableId && !bets[id].isResolved
  }

  /** The bets with the given ones resolved. */
  function ResolvedOn(bets: map<string, Bet>, done: set<string>, winning: int, now: int): map<string, Bet>
  {
    map id | id in bets :: if id in done then Resolve(bets[id], winning, now) else bets[id]
  }

  /** The id of a bet's payout intent within one spin. */
  function PayoutId(spinId: string, betId: string): (id: string)
    ensures StartsWith(id, spinId + "_")
    ensures id[|spinId| + 1..] == betId
  {
    spinId + "_" + betId
  }

  /** The bet a payout id of the spin names. */
  function BetOf(spinId: string, payoutId: string): string
  {
    if |payoutId| <= |spinId| then "" else payoutId[|spinId| + 1..]
  }

  /** The payout intents for the given bets: one PENDING PAYOUT per winning
      bet, for its player, of its winnings, keyed by the spin and the bet. */
  function PayoutsOn(bets: map<string, Bet>, done: set<string>, spinId: string, winning: int, now: int): map<string, Intent>
  {
    var keys := set b | b in done && b in bets && Winnings(bets[b], winning) > 0 :: PayoutId(spinId, b);
    map k | k in keys :: NewIntent(k, Payout, bets[BetOf(spinId, k)].playerId, Winnings(bets[BetOf(spinId, k)], winning), now)
  }

  function SpunTable(t: Table, winning: int, now: int): Table
  {
    t.(nextSpinTime := now + SpinIntervalSec(t.tier) * 1000, lastWinningNumber := Some(winning))
  }

  /** The rows after a spin of the table: its schedule advanced, its open
      bets resolved, and the payout intents queued. */
  function Spun(rows: Rows, tableId: string, winning: int, spinId: string, now: int): Rows
    requires tableId in rows.tables
  {
    var open := OpenBets(rows.bets, tableId);
    rows.(tables := rows.tables[tableId := SpunTable(rows.tables[tableId], winning, now)],
          bets := ResolvedOn(rows.bets, open, winning, now),
          intents := rows.intents + PayoutsOn(rows.bets, open, spinId, winning, now))
  }

  /** Resolving one more bet updates just that bet. */
  lemma ResolvedStep(bets: map<string, Bet>, done: set<string>, b: string, winning: int, now: int)
    requires b in bets && b !in done
    ensures ResolvedOn(bets, done + {b}, winning, now)
      == ResolvedOn(bets, done, winning, now)[b := Resolve(ResolvedOn(bets, done, winning, now)[b], winning, now)]
  {
  }

  lemma PayoutIdParts(spinId: string, b: string)
    ensures BetOf(spinId, PayoutId(spinId, b)) == b
  {
  }

  /** Adding one more resolved bet adds its payout intent, if it won. */
  lemma PayoutsStep(bets: map<string, Bet>, done: set<string>, b: string, spinId: string, winning: int, now: int)
    requires b in bets && b !in done
    ensures PayoutsOn(bets, done + {b}, spinId, winning, now) ==
      if Winnings(bets[b], winning) > 0
      then PayoutsOn(bets, done, spinId, winning, now)[PayoutId(spinId, b) := NewIntent(PayoutId(spinId, b), Payout, bets[b].playerId, Winnings(bets[b], winning), now)]
      else PayoutsOn(bets, done, spinId, winning, now)
  {
    PayoutIdParts(spinId, b);
    var before := PayoutsOn(bets, done, spinId, winning, now);
    var after := PayoutsOn(bets, done + {b}, spinId, winning, now);
    forall k | k in after
      ensures BetOf(spinId, k) in bets
    {
      var c :| c in done + {b} && c in bets && Winnings(bets[c], winning) > 0 && k == PayoutId(spinId, c);
      PayoutIdParts(spinId, c);
    }
    forall k | k in before
      ensures BetOf(spinId, k) in bets
    {
      var c :| c in done && c in bets && Winnings(bets[c], winning) > 0 && k == PayoutId(spinId, c);
      PayoutIdParts(spinId, c);
    }
  }

  /** Rows queued by one spin: unique ids, each carrying the spin's prefix
      and naming a settled bet. */
  ghost predicate SpinRows(added: seq<Intent>, done: set<string>, spinId: string)
  {
    && UniqueIds(added)
    && forall i :: 0 <= i < |added| ==> StartsWith(added[i].id, spinId + "_") && BetOf(spinId, added[i].id) in done
  }

  /** The payout rows a spin has queued so far: rows of the spin, keyed
      exactly as the payouts of the settled bets. */
  ghost predicate PayoutRows(added: seq<Intent>, bets0: map<string, Bet>, done: set<string>, spinId: string, winning: int, now: int)
  {
    && SpinRows(added, done, spinId)
    && ImageMap(added) == PayoutsOn(bets0, done, spinId, winning, now)
  }

  /** The payout row a settled bet queues: one when it won, none otherwise. */
  function PayoutSeq(spinId: string, b: string, bet: Bet, winning: int, now: int): seq<Intent>
  {
    if Winnings(bet, winning) > 0 then [NewIntent(PayoutId(spinId, b), Payout, bet.playerId, Winnings(bet, winning), now)] else []
  }

  /** Settling one more bet appends its payout row when it won. */
  lemma PayoutRowsStep(added: seq<Intent>, bets0: map<string, Bet>, done: set<string>, b: string, spinId: string, winning: int, now: int)
    requires b in bets0 && b !in done
    requires PayoutRows(added, bets0, done, spinId, winning, now)
    ensures PayoutRows(added + PayoutSeq(spinId, b, bets0[b], winning, now), bets0, done + {b}, spinId, winning, now)
  {
    PayoutsStep(bets0, done, b, spinId, winning, now);
    PayoutIdParts(spinId, b);
    if Winnings(bets0[b], winning) > 0 {
      var row := NewIntent(PayoutId(spinId, b), Payout, bets0[b].playerId, Winnings(bets0[b], winning), now);
      var added' := added + [row];
      assert added'[..|added'| - 1] == added;
      forall i | 0 <= i < |added|
        ensures added[i].id != row.id
      {
        assert BetOf(spinId, added[i].id) != BetOf(spinId, row.id);
      }
    } else {
      assert added + [] == added;
    }
  }

  /** Rows without the spin's prefix followed by payout rows of the spin keep
      their ids unique. */
  lemma UniqueAcrossSpin(imgs0: seq<Intent>, added: seq<Intent>, spinId: string)
    requires UniqueIds(imgs0) && UniqueIds(added)
    requires forall i :: 0 <= i < |imgs0| ==> !StartsWith(imgs0[i].id, spinId + "_")
    requires forall i :: 0 <= i < |added| ==> StartsWith(added[i].id, spinId + "_")
    ensures UniqueIds(imgs0 + added)
  {
    var all := imgs0 + added;
    forall i, j | 0 <= i < j < |all|
      ensures all[i].id != all[j].id
    {
      if i < |imgs0| && j >= |imgs0| {
        assert all[j] == added[j - |imgs0|];
      } else if i >= |imgs0| {
        assert all[i] == added[i - |imgs0|] && all[j] == added[j - |imgs0|];
      }
    }
  }

  /** One open bet settled: resolved, and its payout intent queued if it won. */
  method SettleBet(db: MainDb, bets: map<string, Bet>, b: string, ghost imgs0: seq<Intent>, ghost added: seq<Intent>,
                   ghost done: set<string>, spinId: string, winning: int, now: int)
    returns (bets': map<string, Bet>)
    requires b in bets && b !in done
    requires UniqueIds(imgs0) && forall i :: 0 <= i < |imgs0| ==> !StartsWith(imgs0[i].id, spinId + "_")
    requires SpinRows(added, done, spinId)
    requires ImageSeq(db.tracked) == imgs0 + added
    modifies db
    ensures bets' == bets[b := Resolve(bets[b], winning, now)]
    ensures ImageSeq(db.tracked) == imgs0 + added + PayoutSeq(spinId, b, bets[b], winning, now)
    ensures db.players == old(db.players) && db.tables == old(db.tables) && db.stored == old(db.stored) && db.bets == old(db.bets)
  {
    var bet := bets[b];
    bets' := bets[b := Resolve(bet, winning, now)];
    var payout := Winnings(bet, winning);
    if payout > 0 {
      AddPayout(db, NewIntent(PayoutId(spinId, b), Payout, bet.playerId, payout, now), imgs0, added, done, b, spinId);
    } else {
      assert imgs0 + added + [] == imgs0 + added;
    }
  }

  /** One step of settling the open bets: the next bet is resolved and its
      payout, if any, queued, and the settled set grows by that bet. */
  method SettleNext(db: MainDb, bets: map<string, Bet>, b: string, ghost imgs0: seq<Intent>, ghost added: seq<Intent>,
                    ghost bets0: map<string, Bet>, ghost done: set<string>, spinId: string, winning: int, now: int)
    returns (bets': map<string, Bet>, ghost added': seq<Intent>)
    requires b in bets0 && b !in done
    requires UniqueIds(imgs0) && forall i :: 0 <= i < |imgs0| ==> !StartsWith(imgs0[i].id, spinId + "_")
    requires bets == ResolvedOn(bets0, done, winning, now)
    requires PayoutRows(added, bets0, done, spinId, winning, now)
    requires ImageSeq(db.tracked) == imgs0 + added
    modifies db
    ensures bets' == ResolvedOn(bets0, done + {b}, winning, now)
    ensures PayoutRows(added', bets0, done + {b}, spinId, winning, now)
    ensures ImageSeq(db.tracked) == imgs0 + added'
    ensures db.players == old(db.players) && db.tables == old(db.tables) && db.stored == old(db.stored) && db.bets == old(db.bets)
  {
    assert bets[b] == bets0[b];
    ResolvedStep(bets0, done, b, winning, now);
    PayoutRowsStep(added, bets0, done, b, spinId, winning, now);
    var queued := PayoutSeq(spinId, b, bets0[b], winning, now);
    bets' := SettleBet(db, bets, b, imgs0, added, done, spinId, winning, now);
    assert imgs0 + added + queued == imgs0 + (added + queued);
    added' := added + queued;
  }

  /** Tracking more rows after the ones tracked adds their keyed rows to
      what a save would write. */
  lemma IntentsAppended(stored: map<string, Intent>, imgs0: seq<Intent>, added: seq<Intent>, payouts: map<string, Intent>)
    requires ImageMap(added) == payouts
    ensures stored + ImageMap(imgs0 + added) == (stored + ImageMap(imgs0)) + payouts
  {
    ImageMapAppend(imgs0, added);
  }

  /** Settles the given open bets one by one, queueing the payouts. */
  method SettleAll(db: MainDb, open: set<string>, spinId: string, winning: int, now: int)
    returns (bets: map<string, Bet>, ghost added: seq<Intent>)
    requires open <= db.bets.Keys
    requires db.Valid()
    requires forall i :: 0 <= i < |db.tracked| ==> !StartsWith(db.tracked[i].id, spinId + "_")
    modifies db
    ensures bets == ResolvedOn(old(db.bets), open, winning, now)
    ensures PayoutRows(added, old(db.bets), open, spinId, winning, now)
    ensures ImageSeq(db.tracked) == old(ImageSeq(db.tracked)) + added
    ensures db.players == old(db.players) && db.tables == old(db.tables) && db.stored == old(db.stored) && db.bets == old(db.bets)
  {
    bets := db.bets;
    ghost var bets0 := db.bets;
    ghost var imgs0 := ImageSeq(db.tracked);
    added := [];
    ghost var done: set<string> := {};
    assert imgs0 + added == imgs0;
    assert PayoutsOn(bets0, {}, spinId, winning, now) == map[];
    var todo := open;
    while todo != {}
      invariant todo <= open && done == open - todo
      invariant bets == ResolvedOn(bets0, done, winning, now)
      invariant PayoutRows(added, bets0, done, spinId, winning, now)
      invariant ImageSeq(db.tracked) == imgs0 + added
      invariant db.players == old(db.players) && db.tables == old(db.tables) && db.stored == old(db.stored) && db.bets == bets0
      decreases |todo|
    {
      var b :| b in todo;
      bets, added := SettleNext(db, bets, b, imgs0, added, bets0, done, spinId, winning, now);
      done := done + {b};
      todo := todo - {b};
    }
    assert done == open;
  }

  /** Resolves every open bet of the table, queueing a payout intent for
      each winning one. */
  method ResolveBets(db: MainDb, tableId: string, spinId: string, winning: int, now: int)
    requires db.Valid()
    requires forall i :: 0 <= i < |db.tracked| ==> !StartsWith(db.tracked[i].id, spinId + "_")
    modifies db
    ensures db.Valid()
    ensures db.bets == ResolvedOn(old(db.bets), OpenBets(old(db.bets), tableId), winning, now)
    ensures db.players == old(db.players) && db.tables == old(db.tables) && db.stored == old(db.stored)
    ensures db.Working().intents == old(db.Working()).intents + PayoutsOn(old(db.bets), OpenBets(old(db.bets), tableId), spinId, winning, now)
  {
    var open := OpenBets(db.bets, tableId);
    ghost var bets0, imgs0, stored0 := db.bets, ImageSeq(db.tracked), db.stored.intents;
    ghost var payouts := PayoutsOn(bets0, open, spinId, winning, now);
    assert db.Working().intents == stored0 + ImageMap(imgs0);
    var bets, added := SettleAll(db, open, spinId, winning, now);
    db.bets := bets;
    UniqueAcrossSpin(imgs0, added, spinId);
    IntentsAppended(stored0, imgs0, added, payouts);
    ghost var tracked := ImageSeq(db.tracked);
    assert tracked == imgs0 + added;
    ghost var keyed := ImageMap(tracked);
    assert db.Working().intents == stored0 + keyed;
    assert keyed == ImageMap(imgs0 + added);
  }

  /** Tracks the payout object of a winning bet. */
  method AddPayout(db: MainDb, row: Intent, ghost imgs0: seq<Intent>, ghost added: seq<Intent>,
                   ghost done: set<string>, ghost b: string, ghost spinId: string)
    requires UniqueIds(imgs0) && forall i :: 0 <= i < |imgs0| ==> !StartsWith(imgs0[i].id, spinId + "_")
    requires ImageSeq(db.tracked) == imgs0 + added
    requires SpinRows(added, done, spinId)
    requires b !in done && row.id == PayoutId(spinId, b)
    modifies db
    ensures ImageSeq(db.tracked) == imgs0 + added + [row]
    ensures db.players == old(db.players) && db.tables == old(db.tables) && db.stored == old(db.stored) && db.bets == old(db.bets)
  {
    UniqueAcrossSpin(imgs0, added, spinId);
    PayoutIdParts(spinId, b);
    var tx := new PendingTx(row);
    forall i | 0 <= i < |db.tracked|
      ensures db.tracked[i].id != tx.id
    {
      var all := imgs0 + added;
      assert ImageSeq(db.tracked)[i].id == db.tracked[i].id;
      if i >= |imgs0| {
        assert all[i] == added[i - |imgs0|];
      }
    }
    db.Add(tx);
  }

  /** `ProcessSpin` with the drawn number and the spin's GUID as parameters:
      a missing table raises; otherwise the schedule advances, every open
      bet of the table is resolved and queues its payout, and the context
      is saved. A failed save abandons the tick without an announcement,
      leaving the changes in the working copy. */
  method ProcessSpin(db: MainDb, tableId: string, winning: int, spinId: string, save: DbSaveResult, now: int)
    returns (r: Result<Option<SpinResult>, string>)
    requires 0 <= winning <= 36
    requires db.Valid()
    requires forall i :: 0 <= i < |db.tracked| ==> !StartsWith(db.tracked[i].id, spinId + "_")
    modifies db
    ensures tableId !in old(db.tables) ==> r.Failure? && unchanged(db)
    ensures tableId in old(db.tables) ==>
      && db.Valid()
      && db.Working() == Spun(old(db.Working()), tableId, winning, spinId, now)
      && db.stored == (if save.Saved? then db.Working() else old(db.stored))
      && r == Success(if save.Saved? then Some(SpinResult(db.tables[tableId].nextSpinTime, winning)) else None)
  {
    if tableId !in db.tables {
      return Failure("Object reference not set to an instance of an object.");
    }
    db.tables := db.tables[tableId := SpunTable(db.tables[tableId], winning, now)];
    ResolveBets(db, tableId, spinId, winning, now);
    var saved := db.TrySave(save);
    if saved.Saved? {
      return Success(Some(SpinResult(db.tables[tableId].nextSpinTime, winning)));
    }
    return Success(None);
  }

  /** What the scheduler draws and the database answers for one table's
      tick: the winning number, the spin's GUID, and the reports of the idle
      removal's save and of the spin's save. */
  datatype Tick = Tick(winning: int, spinId: string, idleSave: DbSaveResult, spinSave: DbSaveResult)

  /** A message to a table's group. */
  datatype Notice = PlayersLeft(tableId: string, players: set<string>) | SpinAnnounced(tableId: string, result: SpinResult)

  /** The tables the due query returns, in `order`, the order the database
      lists its tables in: exactly the stored tables whose spin time has come. */
  function DueIds(order: seq<string>, tables: map<string, Table>, now: int): (ids: seq<string>)
    ensures forall id :: id in ids <==> id in order && id in tables && tables[id].nextSpinTime <= now
    ensures Distinct(order) ==> Distinct(ids)
    decreases |order|
  {
    if order == [] then []
    else
      var rest := DueIds(order[1..], tables, now);
      if order[0] in tables && tables[order[0]].nextSpinTime <= now then [order[0]] + rest else rest
  }

  /** When the listing covers every stored table, a table is due exactly
      when its next spin time is not in the future. */
  lemma DueExactly(order: seq<string>, tables: map<string, Table>, now: int, id: string)
    requires forall k :: k in tables <==> k in order
    ensures id in DueIds(order, tables, now) <==> id in tables && tables[id].nextSpinTime <= now
  {
  }

  /** A fresh scope's rows once the table's idle players are off it. */
  function IdleRemoved(rows: Rows, tableId: string, now: int): Rows
  {
    rows.(players := Unseated(rows.players, IdleSeated(rows.players, tableId, now)))
  }

  /** The stored rows after one table's tick. Idle removal and spin are saved
      separately, and in one context: a spin save also writes an idle
      removal whose own save failed. */
  function Ticked(stored: Rows, tableId: string, t: Tick, now: int): (r: Rows)
    requires tableId in stored.tables
    ensures r.tables.Keys == stored.tables.Keys
  {
    var working := IdleRemoved(stored, tableId, now);
    if t.spinSave.Saved? then Spun(working, tableId, t.winning, t.spinId, now)
    else if t.idleSave.Saved? then working
    else stored
  }

  /** What one table's tick tells its group: who left, if that was saved,
      then the spin, if that was saved. */
  function TickNotices(stored: Rows, tableId: string, t: Tick, now: int): seq<Notice>
    requires tableId in stored.tables
  {
    var idles := IdleSeated(stored.players, tableId, now);
    var next := now + SpinIntervalSec(stored.tables[tableId].tier) * 1000;
    (if t.idleSave.Saved? && idles != {} then [PlayersLeft(tableId, idles)] else [])
    + (if t.spinSave.Saved? then [SpinAnnounced(tableId, SpinResult(next, t.winning))] else [])
  }

  /** The state a pass of the scheduler threads through the due tables. */
  datatype Passed = Passed(stored: Rows, notices: seq<Notice>)

  /** `DoSpinsAsync` on values: each due table is ticked in a fresh scope
      over what the previous ticks stored. A table that is gone raises,
      which ends the pass. */
  function Spins(p: Passed, ids: seq<string>, ticks: string -> Tick, now: int): Passed
    decreases |ids|
  {
    if ids == [] || ids[0] !in p.stored.tables then p
    else
      var t := ticks(ids[0]);
      Spins(Passed(Ticked(p.stored, ids[0], t, now), p.notices + TickNotices(p.stored, ids[0], t, now)), ids[1..], ticks, now)
  }

  /** One table's tick in its own scope: idle removal, then the spin. A
      missing table raises out of the idle removal, before anything is saved. */
  method TickTable(db: MainDb, tableId: string, t: Tick, now: int) returns (r: Result<seq<Notice>, string>)
    requires 0 <= t.winning <= 36
    modifies db
    ensures tableId !in old(db.stored).tables ==> r.Failure? && db.stored == old(db.stored)
    ensures tableId in old(db.stored).tables ==>
      db.stored == Ticked(old(db.stored), tableId, t, now) && r == Success(TickNotices(old(db.stored), tableId, t, now))
  {
    db.BeginScope();
    ghost var rows := db.stored;
    var left := RemoveIdlePlayers(db, tableId, t.idleSave, now);
    if left.Failure? {
      return Failure(left.error);
    }
    var spun := ProcessSpin(db, tableId, t.winning, t.spinId, t.spinSave, now);
    if spun.Failure? {
      assert false;
      return;
    }
    assert left.value == if t.idleSave.Saved? then IdleSeated(rows.players, tableId, now) else {};
    assert db.tables[tableId].nextSpinTime == now + SpinIntervalSec(rows.tables[tableId].tier) * 1000;
    var leftNotices := if left.value != {} then [PlayersLeft(tableId, left.value)] else [];
    var spinNotices := if spun.value.Some? then [SpinAnnounced(tableId, spun.value.value)] else [];
    return Success(leftNotices + spinNotices);
  }

  /** `DoSpinsAsync` with the draws, GUIDs and save reports of each table as
      `ticks`: the due tables are listed first, then each gets its own scope
      in which its idle players are removed and its spin is processed. */
  method DoSpins(db: MainDb, order: seq<string>, ticks: string -> Tick, now: int) returns (notices: seq<Notice>)
    requires forall id :: 0 <= ticks(id).winning <= 36
    modifies db
    ensures var p := Spins(Passed(old(db.stored), []), DueIds(order, old(db.stored).tables, now), ticks, now);
      db.stored == p.stored && notices == p.notices
  {
    var due := DueIds(order, db.stored.tables, now);
    ghost var goal := Spins(Passed(db.stored, []), due, ticks, now);
    notices := [];
    for k := 0 to |due|
      invariant Spins(Passed(db.stored, notices), due[k..], ticks, now) == goal
    {
      var id := due[k];
      assert due[k..][0] == id && due[k..][1..] == due[k + 1..];
      var r := TickTable(db, id, ticks(id), now);
      if r.Failure? {
        return;
      }
      notices := notices + r.value;
    }
  }

  /** A saved spin of a due table moves its spin time past both the old
      spin time and the moment of the spin. */
  lemma TickAdvancesSchedule(stored: Rows, tableId: string, t: Tick, now: int)
    requires tableId in stored.tables && stored.tables[tableId].nextSpinTime <= now
    requires t.spinSave.Saved?
    ensures Ticked(stored, tableId, t, now).tables[tableId].nextSpinTime == now + 30000
    ensures Ticked(stored, tableId, t, now).tables[tableId].nextSpinTime > stored.tables[tableId].nextSpinTime
    ensures Ticked(stored, tableId, t, now).tables[tableId].lastWinningNumber == Some(t.winning)
  {
  }

  /** After a spin every bet of the table is resolved, every other bet and
      table and every player is as before, and the only intents written are
      the spin's payouts. */
  lemma SpinTouchesOnlyItsTable(rows: Rows, tableId: string, winning: int, spinId: string, now: int)
    requires tableId in rows.tables
    ensures var after := Spun(rows, tableId, winning, spinId, now);
      && after.players == rows.players
      && after.tables.Keys == rows.tables.Keys
      && (forall id :: id in rows.tables && id != tableId ==> after.tables[id] == rows.tables[id])
      && after.bets.Keys == rows.bets.Keys
      && (forall id :: id in rows.bets && rows.bets[id].tableId == tableId ==> after.bets[id].isResolved)
      && (forall id :: id in rows.bets && (rows.bets[id].tableId != tableId || rows.bets[id].isResolved) ==> after.bets[id] == rows.bets[id])
      && (forall k :: k in after.intents ==> k in rows.intents || StartsWith(k, spinId + "_"))
      && (forall k :: k in rows.intents && !StartsWith(k, spinId + "_") ==> after.intents[k] == rows.intents[k])
  {
    var payouts := PayoutsOn(rows.bets, OpenBets(rows.bets, tableId), spinId, winning, now);
    forall k | k in payouts
      ensures StartsWith(k, spinId + "_")
    {
      var b :| b in OpenBets(rows.bets, tableId) && b in rows.bets && Winnings(rows.bets[b], winning) > 0 && k == PayoutId(spinId, b);
    }
  }

  /** Payout ids of one spin name their bets one to one. */
  lemma PayoutIdInjective(spinId: string, b: string, c: string)
    requires PayoutId(spinId, b) == PayoutId(spinId, c)
    ensures b == c
  {
    PayoutIdParts(spinId, b);
    PayoutIdParts(spinId, c);
  }

  /** With positive stakes, a spin queues a payout for a bet exactly when
      the bet is open on the table and names the winning number; the payout
      is PENDING, for the bet's player, of 37 times the stake. Every payout
      of the spin is for such a bet. */
  lemma PayoutsExactlyWinners(bets: map<string, Bet>, tableId: string, spinId: string, winning: int, now: int, b: string)
    requires forall id :: id in bets ==> bets[id].amount > 0
    ensures var payouts := PayoutsOn(bets, OpenBets(bets, tableId), spinId, winning, now);
      && (PayoutId(spinId, b) in payouts <==> b in OpenBets(bets, tableId) && bets[b].chosenNumber == winning)
      && (PayoutId(spinId, b) in payouts ==>
            payouts[PayoutId(spinId, b)] == NewIntent(PayoutId(spinId, b), Payout, bets[b].playerId, 37 * bets[b].amount, now))
      && (forall k :: k in payouts ==> exists c :: c in OpenBets(bets, tableId) && bets[c].chosenNumber == winning && k == PayoutId(spinId, c))
  {
    var open := OpenBets(bets, tableId);
    var payouts := PayoutsOn(bets, open, spinId, winning, now);
    PayoutIdParts(spinId, b);
    if PayoutId(spinId, b) in payouts {
      var c :| c in open && c in bets && Winnings(bets[c], winning) > 0 && PayoutId(spinId, b) == PayoutId(spinId, c);
      PayoutIdInjective(spinId, b, c);
    }
  }

  /** A bet without a stake is paid nothing even on the winning number:
      the payout guard skips it. */
  lemma ZeroStakeUnpaid(bets: map<string, Bet>, done: set<string>, spinId: string, winning: int, now: int, b: string)
    requires b in bets && bets[b].amount == 0
    ensures PayoutId(spinId, b) !in PayoutsOn(bets, done, spinId, winning, now)
  {
    PayoutIdParts(spinId, b);
  }

  /** A saved idle removal stays when the spin's save fails: the players are
      off the table while its bets stay open and its schedule stays put. */
  lemma IdleSavedSpinLost(stored: Rows, tableId: string, t: Tick, now: int)
    requires tableId in stored.tables && t.idleSave.Saved? && !t.spinSave.Saved?
    ensures Ticked(stored, tableId, t, now) == IdleRemoved(stored, tableId, now)
    ensures Ticked(stored, tableId, t, now).bets == stored.bets && Ticked(stored, tableId, t, now).tables == stored.tables
  {
  }

  /** An idle removal whose save failed is still written by the spin's save,
      since both run in one context. */
  lemma FailedIdleRemovalSavedBySpin(stored: Rows, tableId: string, t: Tick, now: int)
    requires tableId in stored.tables && !t.idleSave.Saved? && t.spinSave.Saved?
    ensures Ticked(stored, tableId, t, now).players == Unseated(stored.players, IdleSeated(stored.players, tableId, now))
    ensures TickNotices(stored, tableId, t, now) == [SpinAnnounced(tableId, SpinResult(now + 30000, t.winning))]
  {
  }

  /** A tick changes no other table and no bet of another table. */
  lemma TickKeepsOtherTables(stored: Rows, tableId: string, t: Tick, now: int, other: string)
    requires tableId in stored.tables && other != tableId
    ensures var after := Ticked(stored, tableId, t, now);
      && (other in stored.tables ==> after.tables[other] == stored.tables[other])
      && after.bets.Keys == stored.bets.Keys
      && forall id :: id in stored.bets && stored.bets[id].tableId == other ==> after.bets[id] == stored.bets[id]
  {
    if t.spinSave.Saved? {
      SpinTouchesOnlyItsTable(IdleRemoved(stored, tableId, now), tableId, t.winning, t.spinId, now);
    }
  }

  /** A pass leaves a table that was not due, and its bets, as they were. */
  lemma {:induction false} SpinsKeepTablesNotDue(p: Passed, ids: seq<string>, ticks: string -> Tick, now: int, other: string)
    requires other !in ids
    ensures var q := Spins(p, ids, ticks, now);
      && (other in p.stored.tables ==> other in q.stored.tables && q.stored.tables[other] == p.stored.tables[other])
      && q.stored.bets.Keys == p.stored.bets.Keys
      && forall id :: id in p.stored.bets && p.stored.bets[id].tableId == other ==> q.stored.bets[id] == p.stored.bets[id]
    decreases |ids|
  {
    if ids != [] && ids[0] in p.stored.tables {
      var t := ticks(ids[0]);
      TickKeepsOtherTables(p.stored, ids[0], t, now, other);
      SpinsKeepTablesNotDue(Passed(Ticked(p.stored, ids[0], t, now), p.notices + TickNotices(p.stored, ids[0], t, now)), ids[1..], ticks, now, other);
    }
  }
}
