/** The table routes of the game server: joining and leaving a table, and
    placing a bet. A bet is first charged through a SPEND intent processed
    inline against the pay service; the bet row is written only once the
    charge succeeded. */
module TableRoutes {
  import opened Wrappers
  import opened Text
  import opened PayDb
  import opened TableSchema
  import opened Wire
  import opened Intents
  import opened MainStore
  import opened PayApi
  import opened Handlers

  const TableNotFound: string := "Table not found"
  const AlreadyHere: string := "Player already at this table"
  const AlreadyElsewhere: string := "You are already at another table. Leave it first."
  const TableFull: string := "Table is full"
  const NotAtTable: string := "Player not at this table"
  const JoinFirst: string := "You must join the table first"
  const NumberOutOfRange: string := "Number must be between 0 and 36"
  const NotPositive: string := "Bet amount must be positive"
  const TooClose: string := "Too close to next spin, wait a moment"

  /** Bets close two seconds before the spin. */
  const BetCutoffMs: int := 2000

  /** No table of a named tier seats more players than its tier allows. */
  predicate WithinSeats(players: map<string, Player>, tables: map<string, Table>)
  {
    forall t :: t in tables && MaxSeats(tables[t].tier).Success? ==> |Seated(players, t)| <= MaxSeats(tables[t].tier).value
  }

  /** The player seated at the table, active now. */
  function Seat(players: map<string, Player>, playerId: string, tableId: string, now: int): map<string, Player>
    requires playerId in players
  {
    players[playerId := players[playerId].(currentTableId := Some(tableId), lastActiveAt := now)]
  }

  /** The player off any table, active now. */
  function Unseat(players: map<string, Player>, playerId: string, now: int): map<string, Player>
    requires playerId in players
  {
    players[playerId := players[playerId].(currentTableId := None, lastActiveAt := now)]
  }

  /** Seating a player who sits nowhere adds exactly that player to the
      table's seats and leaves every other table's seats alone. */
  lemma SeatAddsOne(players: map<string, Player>, playerId: string, tableId: string, now: int)
    requires playerId in players && players[playerId].currentTableId.None?
    ensures Seated(Seat(players, playerId, tableId, now), tableId) == Seated(players, tableId) + {playerId}
    ensures |Seated(Seat(players, playerId, tableId, now), tableId)| == |Seated(players, tableId)| + 1
    ensures forall t :: t != tableId ==> Seated(Seat(players, playerId, tableId, now), t) == Seated(players, t)
  {
    assert playerId !in Seated(players, tableId);
    forall t | t != tableId
      ensures Seated(Seat(players, playerId, tableId, now), t) == Seated(players, t)
    {
    }
  }

  /** Unseating a player seated at the table removes exactly that player
      from its seats and leaves every other table's seats alone. */
  lemma UnseatRemovesOne(players: map<string, Player>, playerId: string, tableId: string, now: int)
    requires playerId in Seated(players, tableId)
    ensures Seated(Unseat(players, playerId, now), tableId) == Seated(players, tableId) - {playerId}
    ensures |Seated(Unseat(players, playerId, now), tableId)| == |Seated(players, tableId)| - 1
    ensures forall t :: t != tableId ==> Seated(Unseat(players, playerId, now), t) == Seated(players, t)
  {
    forall t | t != tableId
      ensures Seated(Unseat(players, playerId, now), t) == Seated(players, t)
    {
    }
  }

  /** `JoinTable`'s guards, in the handler's order: the reply that refuses
      the join, or `None` when the caller may sit down. */
  function JoinRefusal(tables: map<string, Table>, players: map<string, Player>, tableId: string, user: Principal): (r: Option<Reply>)
    ensures r.None? <==>
      && tableId in tables && PlayerIdOf(user).0 && PlayerIdOf(user).1 in players
      && players[PlayerIdOf(user).1].currentTableId.None?
      && MaxSeats(tables[tableId].tier).Success?
      && |Seated(players, tableId)| < MaxSeats(tables[tableId].tier).value
    ensures r.Some? && tableId in tables && PlayerIdOf(user).0 && PlayerIdOf(user).1 in players ==>
      (r.value.Conflict? <==> players[PlayerIdOf(user).1].currentTableId.Some?)
  {
    var (found, playerId) := PlayerIdOf(user);
    if tableId !in tables then Some(NotFound(Err(TableNotFound)))
    else if !found || playerId !in players then Some(NotFound(Err(PlayerNotFound)))
    else if players[playerId].currentTableId == Some(tableId) then Some(Conflict(Err(AlreadyHere)))
    else if players[playerId].currentTableId.Some? then Some(Conflict(Err(AlreadyElsewhere)))
    else match MaxSeats(tables[tableId].tier)
      case Failure(e) => Some(Raised(e))
      case Success(seats) => if |Seated(players, tableId)| >= seats then Some(BadRequest(Err(TableFull))) else None
  }

  /** A join that passes the guards keeps every table within its seats. */
  lemma JoinKeepsSeatLimit(tables: map<string, Table>, players: map<string, Player>, tableId: string, user: Principal, now: int)
    requires WithinSeats(players, tables)
    requires JoinRefusal(tables, players, tableId, user).None?
    ensures WithinSeats(Seat(players, PlayerIdOf(user).1, tableId, now), tables)
  {
    SeatAddsOne(players, PlayerIdOf(user).1, tableId, now);
  }

  /** A leave keeps every table within its seats. */
  lemma LeaveKeepsSeatLimit(tables: map<string, Table>, players: map<string, Player>, tableId: string, playerId: string, now: int)
    requires WithinSeats(players, tables)
    requires playerId in Seated(players, tableId)
    ensures WithinSeats(Unseat(players, playerId, now), tables)
  {
    UnseatRemovesOne(players, playerId, tableId, now);
  }

  /** Leaving right after joining puts the player back where they were,
      up to the time of their last action. */
  lemma LeaveUndoesJoin(players: map<string, Player>, playerId: string, tableId: string, now: int, later: int)
    requires playerId in players && players[playerId].currentTableId.None?
    ensures playerId in Seated(Seat(players, playerId, tableId, now), tableId)
    ensures Unseat(Seat(players, playerId, tableId, now), playerId, later) == players[playerId := players[playerId].(lastActiveAt := later)]
  {
  }

  /** `JoinTable`, with the save's report and the clock as parameters: a
      refused join changes nothing; otherwise the caller is seated and the
      table is answered with its new seat count once the save succeeded. */
  method JoinTable(tableId: string, user: Principal, db: MainDb, save: DbSaveResult, now: int) returns (reply: Reply)
    requires db.Valid()
    modifies db
    ensures db.Valid() && db.tracked == old(db.tracked)
    ensures JoinRefusal(old(db.tables), old(db.players), tableId, user).Some? ==>
      reply == JoinRefusal(old(db.tables), old(db.players), tableId, user).value && unchanged(db)
    ensures JoinRefusal(old(db.tables), old(db.players), tableId, user).None? ==>
      && db.Working() == old(db.Working()).(players := Seat(old(db.players), PlayerIdOf(user).1, tableId, now))
      && db.stored == (if save.Saved? then db.Working() else old(db.stored))
      && reply == (if save.Saved? then OkTable(View(db.tables, db.players, tableId)) else SaveFailed(save))
  {
    var refusal := JoinRefusal(db.tables, db.players, tableId, user);
    if refusal.Some? {
      return refusal.value;
    }
    var (_, playerId) := PlayerIdOf(user);
    db.players := Seat(db.players, playerId, tableId, now);
    var saved := db.TrySave(save);
    if !saved.Saved? {
      return SaveFailed(saved);
    }
    return OkTable(View(db.tables, db.players, tableId));
  }

  /** `LeaveTable`'s guards, in the handler's order. */
  function LeaveRefusal(tables: map<string, Table>, players: map<string, Player>, tableId: string, user: Principal): (r: Option<Reply>)
    ensures r.None? <==> tableId in tables && PlayerIdOf(user).0 && PlayerIdOf(user).1 in Seated(players, tableId)
    ensures r.Some? ==> r.value.NotFound?
  {
    var (found, playerId) := PlayerIdOf(user);
    if tableId !in tables then Some(NotFound(Err(TableNotFound)))
    else if !found then Some(NotFound(Err(PlayerNotFound)))
    else if playerId !in Seated(players, tableId) then Some(NotFound(Err(NotAtTable)))
    else None
  }

  /** `LeaveTable`: a caller not seated at the table gets 404 and nothing
      changes; otherwise the caller leaves the table. */
  method LeaveTable(tableId: string, user: Principal, db: MainDb, save: DbSaveResult, now: int) returns (reply: Reply)
    requires db.Valid()
    modifies db
    ensures db.Valid() && db.tracked == old(db.tracked)
    ensures LeaveRefusal(old(db.tables), old(db.players), tableId, user).Some? ==>
      reply == LeaveRefusal(old(db.tables), old(db.players), tableId, user).value && unchanged(db)
    ensures LeaveRefusal(old(db.tables), old(db.players), tableId, user).None? ==>
      && db.Working() == old(db.Working()).(players := Unseat(old(db.players), PlayerIdOf(user).1, now))
      && db.stored == (if save.Saved? then db.Working() else old(db.stored))
      && reply == (if save.Saved? then OkTable(View(db.tables, db.players, tableId)) else SaveFailed(save))
  {
    var refusal := LeaveRefusal(db.tables, db.players, tableId, user);
    if refusal.Some? {
      return refusal.value;
    }
    var (_, playerId) := PlayerIdOf(user);
    db.players := Unseat(db.players, playerId, now);
    var saved := db.TrySave(save);
    if !saved.Saved? {
      return SaveFailed(saved);
    }
    return OkTable(View(db.tables, db.players, tableId));
  }

  /** The bet-range message, with the bounds rendered as C# renders them. */
  function RangeMessage(min: Money, max: Money): string
  {
    "Bet must be between " + MoneyText(min) + " and " + MoneyText(max)
  }

  /** `PlaceBet`'s guards before the balance read, in the handler's order:
      the reply that refuses the bet, or `None` when it may be charged. */
  function BetRefusal(user: Principal, players: map<string, Player>, tables: map<string, Table>,
                      tableId: string, amount: Money, number: int, now: int): (r: Option<Reply>)
    ensures r.None? <==>
      && PlayerSecure(user, players).Some?
      && tableId in tables && PlayerIdOf(user).1 in Seated(players, tableId)
      && MinBet(tables[tableId].tier).Success?
      && MinBet(tables[tableId].tier).value <= amount <= MaxBet(tables[tableId].tier).value
      && 0 <= number <= 36
      && tables[tableId].nextSpinTime - now >= BetCutoffMs
  {
    var (found, playerId) := PlayerIdOf(user);
    if !found then Some(NotFound(Err(PlayerNotFound)))
    else if PlayerSecure(user, players).None? then Some(Unauthorized)
    else if tableId !in tables then Some(NotFound(Err(TableNotFound)))
    else if playerId !in Seated(players, tableId) then Some(BadRequest(Err(JoinFirst)))
    else
      var tier := tables[tableId].tier;
      if MinBet(tier).Failure? then Some(Raised(MinBet(tier).error))
      else if amount < MinBet(tier).value || amount > MaxBet(tier).value then Some(BadRequest(Err(RangeMessage(MinBet(tier).value, MaxBet(tier).value))))
      else if number < 0 || number > 36 then Some(BadRequest(Err(NumberOutOfRange)))
      else if amount <= 0 then Some(BadRequest(Err(NotPositive)))
      else if tables[tableId].nextSpinTime - now < BetCutoffMs then Some(BadRequest(Err(TooClose)))
      else None
  }

  /** The positivity guard is dead: the bet-range guard before it already
      refuses every amount below the tier's positive minimum. */
  lemma PositivityGuardUnreachable(user: Principal, players: map<string, Player>, tables: map<string, Table>,
                                   tableId: string, amount: Money, number: int, now: int)
    ensures BetRefusal(user, players, tables, tableId, amount, number, now) != Some(BadRequest(Err(NotPositive)))
  {
  }

  /** The id of a bet's SPEND intent. */
  function SpendId(betId: string): (id: string)
    ensures StartsWith(id, "BetId_") && id[6..] == betId
  {
    "BetId_" + betId
  }

  function NewBet(betId: string, playerId: string, tableId: string, number: int, amount: Money, now: int): Bet
  {
    Bet(betId, playerId, tableId, number, amount, now, false, None, 0, None)
  }

  /** What the three stages of a charged bet see from the database: the
      save of the SPEND intent, the saves of its processing, and the save
      of the bet row. */
  datatype BetSaves = BetSaves(intent: DbSaveResult, processing: Saves, bet: DbSaveResult)

  /** The end of a bet: the reply, the stored rows and the working copy. */
  datatype Placed = Placed(reply: Reply, stored: Rows, working: Rows)

  /** `PlaceBet` on values once the guards and the balance check passed:
      save the SPEND intent, then settle it. */
  function Charged(stored: Rows, working: Rows, playerId: string, tableId: string, betId: string, number: int,
                   amount: Money, saves: BetSaves, transfer: nat -> Attempt, balance: nat -> Attempt, now: int): Placed
    requires playerId in working.players
  {
    var intent := NewIntent(SpendId(betId), Spend, playerId, amount, now);
    var w1 := WithIntent(working, intent);
    if !saves.intent.Saved? then Placed(SaveFailed(saves.intent), stored, w1)
    else Settled(w1, intent, tableId, betId, number, saves, transfer, balance, now)
  }

  /** The rows with the bet added and its player marked active at the
      bet's time. */
  function WithBet(w: Rows, bet: Bet): Rows
    requires bet.playerId in w.players
  {
    w.(bets := w.bets[bet.id := bet],
       players := w.players[bet.playerId := w.players[bet.playerId].(lastActiveAt := bet.placedAt)])
  }

  /** The saved SPEND intent processed inline; only when that returned no
      error is the unresolved bet added, the player marked active, and the
      context saved. */
  function Settled(rows: Rows, intent: Intent, tableId: string, betId: string, number: int,
                   saves: BetSaves, transfer: nat -> Attempt, balance: nat -> Attempt, now: int): Placed
    requires intent.playerId in rows.players
  {
    var p := Process(rows, rows, intent, saves.processing, transfer, balance, now);
    if p.outcome.Failure? then Placed(Raised(p.outcome.error), p.stored, p.working)
    else if p.outcome.value.error.Some? then Placed(BadRequest(Err(p.outcome.value.error.value)), p.stored, p.working)
    else
      var w2 := WithBet(p.working, NewBet(betId, intent.playerId, tableId, number, intent.amount, now));
      if saves.bet.Saved? then Placed(NoContent, w2, w2) else Placed(SaveFailed(saves.bet), p.stored, w2)
  }

  /** `PlaceBet`, with the bet's GUID, the pay service's answers, the saves'
      reports and the clock as parameters. A refused bet, a failed balance
      read and an amount above the balance change nothing; otherwise the
      bet is charged as `Charged` says. */
  method PlaceBet(tableId: string, user: Principal, amount: Money, number: int, db: MainDb, betId: string,
                  balanceRead: nat -> Attempt, saves: BetSaves, transfer: nat -> Attempt, balance: nat -> Attempt, now: int)
    returns (reply: Reply)
    requires db.Valid() && forall i :: 0 <= i < |db.tracked| ==> db.tracked[i].id != SpendId(betId)
    modifies db, db.tracked
    ensures db.Valid()
    ensures var refusal := BetRefusal(user, old(db.players), old(db.tables), tableId, amount, number, now);
      var read := IsSuccess(BalanceLoop(balanceRead).res);
      && (refusal.Some? ==> reply == refusal.value && unchanged(db))
      && (refusal.None? && !read.0 ==> reply == BadRequest(Err(read.1)) && unchanged(db))
      && (refusal.None? && read.0 && amount > read.2 ==> reply == BadRequest(Err(InsufficientFunds)) && unchanged(db))
      && (refusal.None? && read.0 && amount <= read.2 ==>
            var c := Charged(old(db.stored), old(db.Working()), PlayerIdOf(user).1, tableId, betId, number, amount, saves, transfer, balance, now);
            reply == c.reply && db.stored == c.stored && db.Working() == c.working)
  {
    var refusal := BetRefusal(user, db.players, db.tables, tableId, amount, number, now);
    if refusal.Some? {
      return refusal.value;
    }
    var (_, playerId) := PlayerIdOf(user);
    var read, _, _ := GetPlayerBalance(balanceRead);
    var (ok, error, value) := IsSuccess(read);
    if !ok {
      return BadRequest(Err(error));
    }
    if amount > value {
      return BadRequest(Err(InsufficientFunds));
    }
    reply := Charge(db, playerId, tableId, betId, number, amount, saves, transfer, balance, now);
  }

  /** The charging half of `PlaceBet`: queue the SPEND intent and save it. */
  method Charge(db: MainDb, playerId: string, tableId: string, betId: string, number: int, amount: Money,
                saves: BetSaves, transfer: nat -> Attempt, balance: nat -> Attempt, now: int)
    returns (reply: Reply)
    requires db.Valid() && forall i :: 0 <= i < |db.tracked| ==> db.tracked[i].id != SpendId(betId)
    requires playerId in db.players
    modifies db, db.tracked
    ensures db.Valid()
    ensures var c := Charged(old(db.stored), old(db.Working()), playerId, tableId, betId, number, amount, saves, transfer, balance, now);
      reply == c.reply && db.stored == c.stored && db.Working() == c.working
  {
    var intent := NewIntent(SpendId(betId), Spend, playerId, amount, now);
    var pending := new PendingTx(intent);
    db.Add(pending);
    var intentSaved := db.TrySave(saves.intent);
    if !intentSaved.Saved? {
      return SaveFailed(intentSaved);
    }
    reply := Settle(db, pending, tableId, betId, number, saves, transfer, balance, now);
  }

  /** The settling half of `PlaceBet`, from a saved SPEND intent. */
  method Settle(db: MainDb, pending: PendingTx, tableId: string, betId: string, number: int,
                saves: BetSaves, transfer: nat -> Attempt, balance: nat -> Attempt, now: int)
    returns (reply: Reply)
    requires db.Valid() && pending in db.tracked && db.stored == db.Working()
    requires pending.playerId in db.players
    modifies db, db.tracked
    ensures db.Valid()
    ensures var c := Settled(old(db.stored), old(pending.Image()), tableId, betId, number, saves, transfer, balance, now);
      reply == c.reply && db.stored == c.stored && db.Working() == c.working
  {
    var playerId, amount := pending.playerId, pending.amount;
    ghost var p := Process(db.stored, db.Working(), pending.Image(), saves.processing, transfer, balance, now);
    var outcome, _ := ProcessPendingTx(pending, db, saves.processing, transfer, balance, now);
    assert outcome == p.outcome && db.stored == p.stored && db.Working() == p.working;
    if outcome.Failure? {
      return Raised(outcome.error);
    }
    if outcome.value.error.Some? {
      return BadRequest(Err(outcome.value.error.value));
    }
    reply := RecordBet(db, NewBet(betId, playerId, tableId, number, amount, now), saves.bet);
  }

  /** The bet row and the player's activity join the working copy, and the
      context is saved. */
  method RecordBet(db: MainDb, bet: Bet, save: DbSaveResult) returns (reply: Reply)
    requires db.Valid() && bet.playerId in db.players
    modifies db
    ensures db.Valid() && db.tracked == old(db.tracked)
    ensures db.Working() == WithBet(old(db.Working()), bet)
    ensures db.stored == if save.Saved? then db.Working() else old(db.stored)
    ensures reply == if save.Saved? then NoContent else SaveFailed(save)
  {
    db.bets := db.bets[bet.id := bet];
    db.players := db.players[bet.playerId := db.players[bet.playerId].(lastActiveAt := bet.placedAt)];
    var saved := db.TrySave(save);
    if !saved.Saved? {
      return SaveFailed(saved);
    }
    return NoContent;
  }

  /** A bet row exists only after its charge is recorded: whenever the
      working copy gains the bet, the stored SPEND intent is SUCCESS for the
      bet's amount. The bet is stored exactly when the handler answers 204;
      when the last save fails the player stays charged without a bet. */
  lemma BetFollowsCharge(rows: Rows, intent: Intent, tableId: string, betId: string, number: int,
                         saves: BetSaves, transfer: nat -> Attempt, balance: nat -> Attempt, now: int)
    requires intent.status == Pending && intent.playerId in rows.players && betId !in rows.bets
    ensures var c := Settled(rows, intent, tableId, betId, number, saves, transfer, balance, now);
      && (betId in c.working.bets ==>
            && intent.id in c.stored.intents
            && c.stored.intents[intent.id].status == Succeeded
            && c.stored.intents[intent.id].amount == intent.amount)
      && (betId in c.stored.bets <==> c.reply == NoContent)
      && (c.reply == NoContent ==> c.stored.bets[betId] == NewBet(betId, intent.playerId, tableId, number, intent.amount, now))
      && (betId in c.working.bets && !saves.bet.Saved? ==> betId !in c.stored.bets)
  {
  }
}
