/** The two services together: the pay service's answer to a transfer, as
    the transfer endpoint builds it from the ledger, read by the game
    server's client and recorded on the intent that asked for it. */
module Settlement {
  import opened Wrappers
  import opened LedgerAccounts
  import opened PayDb
  import opened LedgerEngine
  import opened Wire
  import opened PayRoutes
  import opened Intents
  import opened MainStore
  import opened PayApi

  /** What a transfer request meets when the pay service handles it against
      the ledger state `s`: the answer of the transfer endpoint. */
  function Served(s: LedgerState, req: TxRequest, entryId: string, payNow: int, fault: Option<string>): Attempt
  {
    var (s1, error) := Transfer(s, req, entryId, payNow, fault);
    Answered(TransferResponse(error, s1.accounts, req.legs))
  }

  /** Every ledger error, the replay code included, reaches the client as a
      400 whose record has no code: the client returns "BadRequest" and
      never falls back to the balance read. */
  lemma ErrorOverWire(accountId: string, code: string, accounts: map<string, Account>, legs: seq<TxLeg>, onReplay: TxProcRes)
    ensures TransferVerdict(accountId, Answered(TransferResponse(Some(code), accounts, legs)), onReplay)
      == Return(ErrorResult("BadRequest"))
  {
    ErrorIsBadRequestWithoutCode(Some(code), accounts, legs);
  }

  /** A transfer the ledger books is read by the client as the new balance
      of any account among its legs: the stored balance plus that account's
      legs. */
  lemma SuccessOverWire(s: LedgerState, req: TxRequest, entryId: string, payNow: int, fault: Option<string>,
                        accountId: string, onReplay: TxProcRes)
    requires Keyed(s.accounts)
    requires Transfer(s, req, entryId, payNow, fault).1 == None
    requires accountId in LegIds(req.legs)
    ensures TransferVerdict(accountId, Served(s, req, entryId, payNow, fault), onReplay)
      == Return(TxProcRes(Some(BalanceOf(s.accounts, accountId) + LegSumFor(req.legs, accountId)), None))
  {
    TransferOutcome(s, req, entryId, payNow, fault);
    SuccessReportsMovedBalances(s, req, entryId, payNow);
  }

  /** Both answers of the transfer endpoint end the client's loop at the
      first request: whatever later requests would meet, the loop returns
      the first answer's verdict. */
  lemma {:induction false} ServedEndsLoop(s: LedgerState, req: TxRequest, entryId: string, payNow: int, fault: Option<string>,
                                         accountId: string, transfer: nat -> Attempt, balance: nat -> Attempt)
    requires Keyed(s.accounts)
    requires accountId in LegIds(req.legs)
    requires transfer(0) == Served(s, req, entryId, payNow, fault)
    ensures var t := TransferLoop(accountId, transfer, balance);
      var (s1, error) := Transfer(s, req, entryId, payNow, fault);
      && t.attempts == 1 && t.delays == 0
      && (error.Some? ==> t.res == ErrorResult("BadRequest"))
      && (error.None? ==> t.res == TxProcRes(Some(BalanceOf(s.accounts, accountId) + LegSumFor(req.legs, accountId)), None))
  {
    var onReplay := BalanceLoop(balance).res;
    var vs := TransferVerdicts(accountId, transfer, onReplay);
    var error := Transfer(s, req, entryId, payNow, fault).1;
    assert vs(0) == TransferVerdict(accountId, transfer(0), onReplay);
    if error.Some? {
      ErrorOverWire(accountId, error.value, Transfer(s, req, entryId, payNow, fault).0.accounts, req.legs, onReplay);
    } else {
      SuccessOverWire(s, req, entryId, payNow, fault, accountId, onReplay);
    }
    assert vs(0).Return?;
  }

  /** An intent whose request the pay service answers with any error, a
      replay included, is failed with "BadRequest" once its claim is
      persisted: the run returns that error and the stored row is the
      FAILURE the client recorded. */
  lemma ReplayOverWireFails(stored: Rows, working: Rows, i: Intent, saves: Saves, code: string,
                            accounts: map<string, Account>, legs: seq<TxLeg>,
                            transfer: nat -> Attempt, balance: nat -> Attempt, now: int)
    requires i.status == Pending && KnownType(i.txType)
    requires saves.recheck.Saved? && saves.pay.Saved?
    requires forall k :: transfer(k) == Answered(TransferResponse(Some(code), accounts, legs))
    ensures var p := Process(stored, working, i, saves, transfer, balance, now);
      && p.outcome == Success(ErrorResult("BadRequest"))
      && p.notified == None
      && p.stored.intents[i.id] == FailedIntent(CrackedIntent(i, now), "BadRequest", now)
  {
    var onReplay := BalanceLoop(balance).res;
    var vs := TransferVerdicts(GetAccountId(i.playerId), transfer, onReplay);
    assert vs(0) == TransferVerdict(GetAccountId(i.playerId), transfer(0), onReplay);
    ErrorOverWire(GetAccountId(i.playerId), code, accounts, legs, onReplay);
    FormedRequest(CrackedIntent(i, now));
  }

  /** One intent settled end to end: its request, served by the ledger in
      state `s`, is failed with "BadRequest" whenever the ledger refused it,
      and completed with the player's new balance (the stored one moved by
      the intent's signed amount) whenever the ledger booked it; once the
      final save succeeds, that is what is stored and told to the player. */
  lemma ServedIntentSettles(stored: Rows, working: Rows, i: Intent, saves: Saves,
                            s: LedgerState, entryId: string, payNow: int, fault: Option<string>,
                            transfer: nat -> Attempt, balance: nat -> Attempt, now: int)
    requires i.status == Pending && KnownType(i.txType) && saves.recheck.Saved?
    requires Keyed(s.accounts)
    requires transfer(0) == Served(s, FormTxRequest(i).value, entryId, payNow, fault)
    ensures var p := Process(stored, working, i, saves, transfer, balance, now);
      var error := Transfer(s, FormTxRequest(i).value, entryId, payNow, fault).1;
      var player := GetAccountId(i.playerId);
      && (error.Some? ==> p.intent == FailedIntent(CrackedIntent(i, now), "BadRequest", now))
      && (error.None? ==> p.intent == CompletedIntent(CrackedIntent(i, now), now))
      && (saves.pay.Saved? ==>
            && p.stored.intents[i.id] == p.intent
            && (error.Some? ==> p.outcome == Success(ErrorResult("BadRequest")) && p.notified == None)
            && (error.None? ==> p.notified == Some(BalanceOf(s.accounts, player) + PlayerSign(i.txType) * i.amount)))
  {
    FormedRequest(i);
    TransitionsKeepRequest(i, "", now);
    var req := FormTxRequest(i).value;
    ServedEndsLoop(s, req, entryId, payNow, fault, GetAccountId(i.playerId), transfer, balance);
  }

  /** A retry of a booked transfer is refused, as a replay when its legs
      still pass, and changes nothing. */
  lemma BookedRetryRefused(s: LedgerState, req: TxRequest, e1: string, t1: int, e2: string, t2: int, fault: Option<string>)
    requires Consistent(s)
    requires Transfer(s, req, e1, t1, None).1 == None
    ensures var s1 := Transfer(s, req, e1, t1, None).0;
      && Keyed(s1.accounts)
      && Transfer(s1, req, e2, t2, fault).0 == s1
      && Transfer(s1, req, e2, t2, fault).1.Some?
      && (Admissible(s1.accounts, req.legs) ==> Transfer(s1, req, e2, t2, fault).1 == Some(IdempotentReplay))
  {
    var s1 := Transfer(s, req, e1, t1, None).0;
    RetryIsReplay(s, req, e1, t1, req, e2, t2, fault);
    TransferEffects(s, req, e1, t1, None);
    assert s1.journal[|s.journal|].idempotencyKey == req.idempotencyKey;
    assert req.idempotencyKey in IdempotencyKeys(s1.journal);
    TransferKeepsConsistent(s, req, e1, t1, None);
    TransferOutcome(s1, req, e2, t2, fault);
  }

  /** A retry of a transfer the ledger has already booked is refused, with
      the replay code when its legs still pass, which the client cannot
      see: the intent is failed with "BadRequest" although the player's
      balance moved once by the intent's signed amount. */
  lemma BookedRetryIsFailed(stored: Rows, working: Rows, i: Intent, saves: Saves,
                            s: LedgerState, e1: string, t1: int, e2: string, t2: int, fault: Option<string>,
                            transfer: nat -> Attempt, balance: nat -> Attempt, now: int)
    requires i.status == Pending && KnownType(i.txType) && saves.recheck.Saved? && saves.pay.Saved?
    requires Consistent(s)
    requires Transfer(s, FormTxRequest(i).value, e1, t1, None).1 == None
    requires var s1 := Transfer(s, FormTxRequest(i).value, e1, t1, None).0;
      transfer(0) == Served(s1, FormTxRequest(i).value, e2, t2, fault)
    ensures var s1 := Transfer(s, FormTxRequest(i).value, e1, t1, None).0;
      var p := Process(stored, working, i, saves, transfer, balance, now);
      && Transfer(s1, FormTxRequest(i).value, e2, t2, fault).0 == s1
      && (Admissible(s1.accounts, FormTxRequest(i).value.legs) ==>
            Transfer(s1, FormTxRequest(i).value, e2, t2, fault).1 == Some(IdempotentReplay))
      && p.outcome == Success(ErrorResult("BadRequest"))
      && p.stored.intents[i.id] == FailedIntent(CrackedIntent(i, now), "BadRequest", now)
      && BalanceOf(s1.accounts, GetAccountId(i.playerId))
           == BalanceOf(s.accounts, GetAccountId(i.playerId)) + PlayerSign(i.txType) * i.amount
  {
    var req := FormTxRequest(i).value;
    var s1 := Transfer(s, req, e1, t1, None).0;
    BookedRetryRefused(s, req, e1, t1, e2, t2, fault);
    TransferEffects(s, req, e1, t1, None);
    FormedRequest(i);
    ServedIntentSettles(stored, working, i, saves, s1, e2, t2, fault, transfer, balance, now);
  }
}
