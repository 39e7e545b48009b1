/** The wallet routes of the game server: reading the balance from the pay
    service, and queueing deposits and withdrawals as PENDING intents. A
    deposit or withdrawal is not sent to the pay service here; the
    reconciler picks it up once it is older than its cutoff. */
module WalletRoutes {
  import opened Wrappers
  import opened PayDb
  import opened Wire
  import opened Validation
  import opened Intents
  import opened MainStore
  import opened PayApi
  import opened Reconciler
  import opened Handlers

  /** `Balance`, with the pay service's answers to the balance requests as
      `attempts`: the balance read, or 400 with the read's error. */
  method Balance(user: Principal, attempts: nat -> Attempt) returns (reply: Reply)
    ensures !PlayerIdOf(user).0 ==> reply == NotFound(Err(PlayerNotFound))
    ensures PlayerIdOf(user).0 ==>
      var read := BalanceLoop(attempts).res;
      && (reply.OkBalance? <==> read.error.None? && read.txValue.Some?)
      && (reply.OkBalance? ==> read == TxProcRes(Some(reply.value), None))
      && (!reply.OkBalance? ==> reply == BadRequest(Err(if read.error.Some? then read.error.value else "")))
  {
    var (found, playerId) := PlayerIdOf(user);
    if !found {
      return NotFound(Err(PlayerNotFound));
    }
    var read, _, _ := GetPlayerBalance(attempts);
    IsSuccessMeaning(read);
    var (ok, error, value) := IsSuccess(read);
    if !ok {
      return BadRequest(Err(error));
    }
    return OkBalance(value);
  }

  /** `Deposit`, with the intent's GUID, the save's report and the clock as
      parameters: an unknown caller gets 404 and an amount out of bounds 400,
      with nothing changed; otherwise one PENDING DEPOSIT intent for the
      caller and the amount is added and saved, and nothing else. */
  method Deposit(user: Principal, amount: Money, db: MainDb, guid: string, save: DbSaveResult, now: int)
    returns (reply: Reply)
    requires db.Valid() && forall i :: 0 <= i < |db.tracked| ==> db.tracked[i].id != guid
    modifies db
    ensures db.Valid()
    ensures !PlayerIdOf(user).0 ==> reply == NotFound(Err(PlayerNotFound)) && unchanged(db)
    ensures PlayerIdOf(user).0 && IsValidDeposit(amount).Some? ==>
      reply == BadRequest(Err(IsValidDeposit(amount).value)) && unchanged(db)
    ensures PlayerIdOf(user).0 && IsValidDeposit(amount).None? ==>
      var intent := NewIntent(guid, Intents.Deposit, PlayerIdOf(user).1, amount, now);
      && db.Working() == old(db.Working()).(intents := old(db.Working()).intents[guid := intent])
      && db.stored == (if save.Saved? then db.Working() else old(db.stored))
      && reply == (if save.Saved? then NoContent else SaveFailed(save))
  {
    var (found, playerId) := PlayerIdOf(user);
    if !found {
      return NotFound(Err(PlayerNotFound));
    }
    var depositError := IsValidDeposit(amount);
    if depositError.Some? {
      return BadRequest(Err(depositError.value));
    }
    var pending := new PendingTx(NewIntent(guid, Intents.Deposit, playerId, amount, now));
    db.Add(pending);
    var saved := db.TrySave(save);
    if !saved.Saved? {
      return SaveFailed(saved);
    }
    return NoContent;
  }

  /** `Withdraw`, with the intent's GUID, the balance answers, the save's
      report and the clock as parameters. A caller whose token is not
      current gets 401, an amount under the minimum 400, a failed balance
      read 400 with its error, an amount above the balance 400; none of
      these changes anything. Otherwise one PENDING WITHDRAWAL intent is
      added and saved. */
  method Withdraw(user: Principal, amount: Money, db: MainDb, guid: string, attempts: nat -> Attempt,
                  save: DbSaveResult, now: int)
    returns (reply: Reply)
    requires db.Valid() && forall i :: 0 <= i < |db.tracked| ==> db.tracked[i].id != guid
    modifies db
    ensures db.Valid()
    ensures PlayerSecure(user, old(db.players)).None? ==> reply == Unauthorized && unchanged(db)
    ensures PlayerSecure(user, old(db.players)).Some? ==>
      var read := IsSuccess(BalanceLoop(attempts).res);
      var intent := NewIntent(guid, Withdrawal, PlayerSecure(user, old(db.players)).value.id, amount, now);
      && (IsValidWithdrawal(amount).Some? ==> reply == BadRequest(Err(IsValidWithdrawal(amount).value)) && unchanged(db))
      && (IsValidWithdrawal(amount).None? && !read.0 ==> reply == BadRequest(Err(read.1)) && unchanged(db))
      && (IsValidWithdrawal(amount).None? && read.0 && amount > read.2 ==>
            reply == BadRequest(Err(InsufficientFunds)) && unchanged(db))
      && (IsValidWithdrawal(amount).None? && read.0 && amount <= read.2 ==>
            && db.Working() == old(db.Working()).(intents := old(db.Working()).intents[guid := intent])
            && db.stored == (if save.Saved? then db.Working() else old(db.stored))
            && reply == (if save.Saved? then NoContent else SaveFailed(save)))
  {
    var player := PlayerSecure(user, db.players);
    if player.None? {
      return Unauthorized;
    }
    var playerId := player.value.id;
    var withdrawalError := IsValidWithdrawal(amount);
    if withdrawalError.Some? {
      return BadRequest(Err(withdrawalError.value));
    }
    var read, _, _ := GetPlayerBalance(attempts);
    var (ok, error, value) := IsSuccess(read);
    if !ok {
      return BadRequest(Err(error));
    }
    if amount > value {
      return BadRequest(Err(InsufficientFunds));
    }
    var pending := new PendingTx(NewIntent(guid, Withdrawal, playerId, amount, now));
    db.Add(pending);
    var saved := db.TrySave(save);
    if !saved.Saved? {
      return SaveFailed(saved);
    }
    return NoContent;
  }

  /** A queued deposit or withdrawal waits for the reconciler: the saved
      intent is PENDING, and a sweep selects it exactly once more than the
      cutoff has passed since it was queued. */
  lemma QueuedForReconciler(guid: string, txType: string, playerId: string, amount: Money, now: int, later: int)
    ensures NewIntent(guid, txType, playerId, amount, now).status == Pending
    ensures Stuck(NewIntent(guid, txType, playerId, amount, now), later) <==> later > now + CutoffMs
  {
  }

  /** An accepted withdrawal is at least the minimum and at most the balance
      the pay service reported. */
  lemma AcceptedWithdrawalCovered(amount: Money, attempts: nat -> Attempt)
    requires IsValidWithdrawal(amount).None?
    requires IsSuccess(BalanceLoop(attempts).res).0 && amount <= IsSuccess(BalanceLoop(attempts).res).2
    ensures MinWithdrawal <= amount <= BalanceLoop(attempts).res.txValue.value
    ensures BalanceLoop(attempts).res.error.None?
  {
  }
}
