/** The game server's client of the pay service: the retry loops that
    submit a transfer or read a balance, and the processor that claims an
    intent, submits its request and records the outcome. The network is an
    oracle: `attempts(i)` is what the `i`-th request of a loop met, either an
    exception or a response. */
module PayApi {
  import opened Wrappers
  import opened LedgerAccounts
  import opened PayDb
  import opened LedgerEngine
  import opened Wire
  import opened Intents
  import opened MainStore

  const MaxRetries: nat := 3
  const DelayMs: nat := 100

  const SchemaMismatch: string := "Communication schema mismatch."
  const TimeOut: string := "Time Out."
  const InternalError: string := "Internal Error"
  const DatabaseFailurePrefix: string := "Database failure: "

  /** The result of a pay operation: a balance, an error, or both absent. */
  datatype TxProcRes = TxProcRes(txValue: Option<Money>, error: Option<string>)

  function ErrorResult(message: string): TxProcRes
  {
    TxProcRes(None, Some(message))
  }

  /** `IsSuccess` with its two out-values: the error text or "", the value or 0. */
  function IsSuccess(r: TxProcRes): (bool, string, Money)
  {
    (r.error.None? && r.txValue.Some?,
     if r.error.Some? then r.error.value else "",
     if r.txValue.Some? then r.txValue.value else 0)
  }

  /** A successful result is exactly the value it reports; an unsuccessful
      one reports its error text, or "" when it carries no error. */
  lemma IsSuccessMeaning(r: TxProcRes)
    ensures var (ok, error, value) := IsSuccess(r);
      && (ok <==> r == TxProcRes(Some(value), None))
      && (!ok && r.error.Some? ==> error == r.error.value)
      && (!ok && r.error.None? ==> error == "")
  {
  }

  /** What one request of a retry loop met. */
  datatype Attempt = Threw | Answered(response: HttpResponse)

  /** How a loop goes on after one request: return a result, try again at
      once, or try again after the delay. */
  datatype Verdict = Return(res: TxProcRes) | Next | NextAfterDelay

  /** One transfer request: a 2xx answer is read as the balance dictionary
      and yields the player's new balance; an error record coded as a replay
      yields `onReplay`, the result of reading the balance instead; any other
      4xx yields the status name; an exception, including an unreadable body,
      moves on at once; anything else moves on after the delay. */
  function TransferVerdict(accountId: string, a: Attempt, onReplay: TxProcRes): (v: Verdict)
    ensures a.Threw? ==> v == Next
    ensures v == NextAfterDelay <==>
      && a.Answered?
      && !IsSuccessStatus(a.response.status)
      && ReadErrorCode(a.response.body).Success?
      && ReadErrorCode(a.response.body).value != Some(IdempotentReplay)
      && !IsClientError(a.response.status)
    ensures a.Answered? && IsSuccessStatus(a.response.status) && a.response.body.Balances? ==>
      v == Return(if accountId in a.response.body.balances
                  then TxProcRes(Some(a.response.body.balances[accountId]), None)
                  else ErrorResult(SchemaMismatch))
    ensures a.Answered? && !IsSuccessStatus(a.response.status) && ReadErrorCode(a.response.body) == Success(Some(IdempotentReplay)) ==>
      v == Return(onReplay)
    ensures a.Answered? && IsClientError(a.response.status) && ReadErrorCode(a.response.body).Success? &&
            ReadErrorCode(a.response.body).value != Some(IdempotentReplay) ==>
              v == Return(ErrorResult(StatusName(a.response.status)))
  {
    match a
    case Threw => Next
    case Answered(response) =>
      if IsSuccessStatus(response.status) then
        match ReadBalances(response.body)
        case Failure(_) => Next
        case Success(None) => Return(ErrorResult(SchemaMismatch))
        case Success(Some(balances)) =>
          if accountId in balances then Return(TxProcRes(Some(balances[accountId]), None))
          else Return(ErrorResult(SchemaMismatch))
      else
        match ReadErrorCode(response.body)
        case Failure(_) => Next
        case Success(code) =>
          if code == Some(IdempotentReplay) then Return(onReplay)
          else if IsClientError(response.status) then Return(ErrorResult(StatusName(response.status)))
          else NextAfterDelay
  }

  /** One balance request: a 2xx answer is read as a `TxValue`, `null`
      meaning a schema mismatch; a 4xx yields the status name; an exception
      moves on at once; anything else after the delay. */
  function BalanceVerdict(a: Attempt): (v: Verdict)
    ensures a.Threw? ==> v == Next
    ensures v == NextAfterDelay <==> a.Answered? && !IsSuccessStatus(a.response.status) && !IsClientError(a.response.status)
    ensures a.Answered? && IsSuccessStatus(a.response.status) && a.response.body.Value? ==>
      v == Return(TxProcRes(Some(a.response.body.value), None))
    ensures a.Answered? && IsClientError(a.response.status) ==> v == Return(ErrorResult(StatusName(a.response.status)))
  {
    match a
    case Threw => Next
    case Answered(response) =>
      if IsSuccessStatus(response.status) then
        match ReadValue(response.body)
        case Failure(_) => Next
        case Success(txValue) => Return(TxProcRes(txValue, if txValue.None? then Some(SchemaMismatch) else None))
      else if IsClientError(response.status) then Return(ErrorResult(StatusName(response.status)))
      else NextAfterDelay
  }

  function TransferVerdicts(accountId: string, attempts: nat -> Attempt, onReplay: TxProcRes): nat -> Verdict
  {
    (i: nat) => TransferVerdict(accountId, attempts(i), onReplay)
  }

  function BalanceVerdicts(attempts: nat -> Attempt): nat -> Verdict
  {
    (i: nat) => BalanceVerdict(attempts(i))
  }

  /** What a loop returned, how many requests it sent and how often it waited. */
  datatype Tried = Tried(res: TxProcRes, attempts: nat, delays: nat)

  /** The counted retry loop from request `i` on, `delays` waits so far. */
  function Loop(vs: nat -> Verdict, i: nat, delays: nat): Tried
    requires i <= MaxRetries
    decreases MaxRetries - i
  {
    if i == MaxRetries then Tried(ErrorResult(TimeOut), i, delays)
    else match vs(i)
      case Return(r) => Tried(r, i + 1, delays)
      case Next => Loop(vs, i + 1, delays)
      case NextAfterDelay => Loop(vs, i + 1, if i < MaxRetries - 1 then delays + 1 else delays)
  }

  function BalanceLoop(attempts: nat -> Attempt): Tried
  {
    Loop(BalanceVerdicts(attempts), 0, 0)
  }

  function TransferLoop(accountId: string, attempts: nat -> Attempt, balance: nat -> Attempt): Tried
  {
    Loop(TransferVerdicts(accountId, attempts, BalanceLoop(balance).res), 0, 0)
  }

  /** How many of the requests `lo` up to `hi` (exclusive) asked for the delay. */
  function DelaysAsked(vs: nat -> Verdict, lo: nat, hi: nat): nat
    decreases hi
  {
    if hi <= lo then 0 else DelaysAsked(vs, lo, hi - 1) + (if vs(hi - 1).NextAfterDelay? then 1 else 0)
  }

  lemma {:induction false} DelaysAskedFirst(vs: nat -> Verdict, lo: nat, hi: nat)
    requires lo < hi
    ensures DelaysAsked(vs, lo, hi) == (if vs(lo).NextAfterDelay? then 1 else 0) + DelaysAsked(vs, lo + 1, hi)
    decreases hi
  {
    if lo + 1 < hi {
      DelaysAskedFirst(vs, lo, hi - 1);
    }
  }

  function Min(a: nat, b: nat): nat
  {
    if a < b then a else b
  }

  /** The loop from request `i`: it sends at most the remaining requests;
      every request but the last it sent let it go on; it returns the last
      one's result if that one returned, else times out after all of them;
      and it waited once for each request that asked for the delay, except
      after the final request. */
  lemma {:induction false} LoopTrace(vs: nat -> Verdict, i: nat, d: nat)
    requires i <= MaxRetries
    ensures var t := Loop(vs, i, d);
      && (i < MaxRetries ==> i < t.attempts) && t.attempts <= MaxRetries
      && (forall j :: i <= j < t.attempts - 1 ==> !vs(j).Return?)
      && (if i < t.attempts && vs(t.attempts - 1).Return?
          then t.res == vs(t.attempts - 1).res
          else t.attempts == MaxRetries && t.res == ErrorResult(TimeOut))
      && t.delays == d + DelaysAsked(vs, i, Min(t.attempts, MaxRetries - 1))
    decreases MaxRetries - i
  {
    if i < MaxRetries && !vs(i).Return? {
      LoopTrace(vs, i + 1, if vs(i).NextAfterDelay? && i < MaxRetries - 1 then d + 1 else d);
      var t := Loop(vs, i, d);
      if i < Min(t.attempts, MaxRetries - 1) {
        DelaysAskedFirst(vs, i, Min(t.attempts, MaxRetries - 1));
      }
    }
  }

  /** A whole loop sends one to three requests; it returns the result of the
      first request that returned one, and times out only when all three
      went on; it waits at most twice, and only after requests that asked
      for it. */
  lemma WholeLoop(vs: nat -> Verdict)
    ensures var t := Loop(vs, 0, 0);
      && 1 <= t.attempts <= MaxRetries
      && t.delays < t.attempts
      && (forall j :: 0 <= j < t.attempts - 1 ==> !vs(j).Return?)
      && ((t.res == ErrorResult(TimeOut) && t.attempts == MaxRetries) || (vs(t.attempts - 1).Return? && t.res == vs(t.attempts - 1).res))
      && t.delays == DelaysAsked(vs, 0, Min(t.attempts, MaxRetries - 1))
  {
    LoopTrace(vs, 0, 0);
    var t := Loop(vs, 0, 0);
    DelaysAskedBound(vs, 0, Min(t.attempts, MaxRetries - 1));
  }

  lemma {:induction false} DelaysAskedBound(vs: nat -> Verdict, lo: nat, hi: nat)
    ensures DelaysAsked(vs, lo, hi) <= if hi <= lo then 0 else hi - lo
    decreases hi
  {
    if lo < hi {
      DelaysAskedBound(vs, lo, hi - 1);
    }
  }

  /** `GetPlayerBalance`: up to three balance requests. */
  method GetPlayerBalance(attempts: nat -> Attempt) returns (result: TxProcRes, tries: nat, delays: nat)
    ensures Tried(result, tries, delays) == BalanceLoop(attempts)
  {
    delays := 0;
    for i := 0 to MaxRetries
      invariant Loop(BalanceVerdicts(attempts), i, delays) == BalanceLoop(attempts)
    {
      match attempts(i)
      case Threw =>
        continue;
      case Answered(response) =>
        if IsSuccessStatus(response.status) {
          var read := ReadValue(response.body);
          if read.Failure? {
            continue;
          }
          var txValue := read.value;
          result := TxProcRes(txValue, None);
          if txValue.None? {
            result := result.(error := Some(SchemaMismatch));
          }
          return result, i + 1, delays;
        }
        if IsClientError(response.status) {
          return ErrorResult(StatusName(response.status)), i + 1, delays;
        }
      if i < MaxRetries - 1 {
        delays := delays + 1;
      }
    }
    return ErrorResult(TimeOut), MaxRetries, delays;
  }

  /** `ProcessTxRequest`: up to three transfer requests for the player's
      intent; a replay answer falls back to reading the balance. */
  method ProcessTxRequest(playerId: string, attempts: nat -> Attempt, balance: nat -> Attempt)
    returns (result: TxProcRes, tries: nat, delays: nat)
    ensures Tried(result, tries, delays) == TransferLoop(GetAccountId(playerId), attempts, balance)
  {
    ghost var vs := TransferVerdicts(GetAccountId(playerId), attempts, BalanceLoop(balance).res);
    delays := 0;
    for i := 0 to MaxRetries
      invariant Loop(vs, i, delays) == TransferLoop(GetAccountId(playerId), attempts, balance)
    {
      match attempts(i)
      case Threw =>
        continue;
      case Answered(response) =>
        if IsSuccessStatus(response.status) {
          var read := ReadBalances(response.body);
          if read.Failure? {
            continue;
          }
          var balances := read.value;
          if balances.None? || GetAccountId(playerId) !in balances.value {
            return ErrorResult(SchemaMismatch), i + 1, delays;
          }
          return TxProcRes(Some(balances.value[GetAccountId(playerId)]), None), i + 1, delays;
        }
        var error := ReadErrorCode(response.body);
        if error.Failure? {
          continue;
        }
        if error.value == Some(IdempotentReplay) {
          var replayed, _, _ := GetPlayerBalance(balance);
          return replayed, i + 1, delays;
        }
        if IsClientError(response.status) {
          return ErrorResult(StatusName(response.status)), i + 1, delays;
        }
      if i < MaxRetries - 1 {
        delays := delays + 1;
      }
    }
    return ErrorResult(TimeOut), MaxRetries, delays;
  }

  /** Every result a loop can return is either a value without an error or
      an error without a value. */
  predicate WellFormed(r: TxProcRes)
  {
    r.txValue.Some? <==> r.error.None?
  }

  lemma {:induction false} LoopWellFormed(vs: nat -> Verdict, i: nat, d: nat)
    requires i <= MaxRetries
    requires forall j :: vs(j).Return? ==> WellFormed(vs(j).res)
    ensures WellFormed(Loop(vs, i, d).res)
    decreases MaxRetries - i
  {
    if i < MaxRetries && !vs(i).Return? {
      LoopWellFormed(vs, i + 1, if vs(i).NextAfterDelay? && i < MaxRetries - 1 then d + 1 else d);
    }
  }

  /** A transfer, with its replay fallback, reports a value exactly when it
      reports no error. */
  lemma TransferLoopWellFormed(accountId: string, attempts: nat -> Attempt, balance: nat -> Attempt)
    ensures WellFormed(TransferLoop(accountId, attempts, balance).res)
  {
    var bs := BalanceVerdicts(balance);
    forall j | bs(j).Return?
      ensures WellFormed(bs(j).res)
    {
      assert bs(j) == BalanceVerdict(balance(j));
    }
    LoopWellFormed(bs, 0, 0);
    var ts := TransferVerdicts(accountId, attempts, BalanceLoop(balance).res);
    forall j | ts(j).Return?
      ensures WellFormed(ts(j).res)
    {
      assert ts(j) == TransferVerdict(accountId, attempts(j), BalanceLoop(balance).res);
    }
    LoopWellFormed(ts, 0, 0);
  }

  /** What the three saves of one processing run report. */
  datatype Saves = Saves(crack: DbSaveResult, recheck: DbSaveResult, pay: DbSaveResult)

  /** The end of a processing run: what it returned (a `Failure` is the
      exception an unknown type raises), the balance it pushed to the
      player, the intent's row, the stored rows and the working copy. */
  datatype Processed = Processed(
    outcome: Result<TxProcRes, string>,
    notified: Option<Money>,
    intent: Intent,
    stored: Rows,
    working: Rows)

  function WithIntent(rows: Rows, i: Intent): Rows
  {
    rows.(intents := rows.intents[i.id := i])
  }

  function DatabaseFailure(r: DbSaveResult): TxProcRes
  {
    ErrorResult(DatabaseFailurePrefix + SaveResultName(r))
  }

  /** `ProcessPendingTx` on values: claim the intent, save twice and give up
      unless the second save succeeded (reporting the first save's result),
      form the request, run the transfer loop, record the outcome on the
      intent, save, and push the new balance only after that save. */
  function Process(stored: Rows, working: Rows, i: Intent, saves: Saves,
                   transfer: nat -> Attempt, balance: nat -> Attempt, now: int): (r: Processed)
    ensures r.working.players == working.players && r.working.tables == working.tables && r.working.bets == working.bets
  {
    if i.status != Pending then Processed(Success(ErrorResult(InternalError)), None, i, stored, working)
    else
      var claimed := CrackedIntent(i, now);
      var w1 := WithIntent(working, claimed);
      var s1 := if saves.crack.Saved? || saves.recheck.Saved? then w1 else stored;
      if !saves.recheck.Saved? then Processed(Success(DatabaseFailure(saves.crack)), None, claimed, s1, w1)
      else match FormTxRequest(claimed)
        case Failure(message) => Processed(Failure(message), None, claimed, s1, w1)
        case Success(_) =>
          var r := TransferLoop(GetAccountId(i.playerId), transfer, balance).res;
          var settled := if r.error.None? then CompletedIntent(claimed, now) else FailedIntent(claimed, r.error.value, now);
          var w2 := WithIntent(w1, settled);
          if saves.pay.Saved? then Processed(Success(r), r.txValue, settled, w2, w2)
          else Processed(Success(DatabaseFailure(saves.pay)), None, settled, s1, w2)
  }

  /** `ProcessPendingTx`: the intent object is tracked by the context; the
      transfer and balance oracles stand for the pay service's answers to
      this intent's request and to the player's balance query. */
  method ProcessPendingTx(pending: PendingTx, db: MainDb, saves: Saves,
                          transfer: nat -> Attempt, balance: nat -> Attempt, now: int)
    returns (outcome: Result<TxProcRes, string>, notified: Option<Money>)
    requires db.Valid() && pending in db.tracked
    modifies pending, db
    ensures db.Valid() && db.tracked == old(db.tracked)
    ensures db.players == old(db.players) && db.tables == old(db.tables) && db.bets == old(db.bets)
    ensures var p := Process(old(db.stored), old(db.Working()), old(pending.Image()), saves, transfer, balance, now);
      && outcome == p.outcome && notified == p.notified
      && pending.Image() == p.intent && db.stored == p.stored && db.Working() == p.working
  {
    var ok, crackSaved, recheck := Claim(pending, db, saves, now);
    if !ok {
      return Success(ErrorResult(InternalError)), None;
    }
    if !recheck.Saved? {
      return Success(DatabaseFailure(crackSaved)), None;
    }
    var request := FormTxRequest(pending.Image());
    if request.Failure? {
      return Failure(request.error), None;
    }
    var result, _, _ := ProcessTxRequest(pending.playerId, transfer, balance);
    var paySaved := Record(pending, db, result, saves.pay, now);
    if !paySaved.Saved? {
      return Success(DatabaseFailure(paySaved)), None;
    }
    if result.txValue.Some? {
      notified := result.txValue;
    } else {
      notified := None;
    }
    return Success(result), notified;
  }

  /** The claim and its two saves: a PENDING intent becomes CRACKED in the
      working copy, which is stored when either save succeeds; any other
      intent is refused and nothing changes. */
  method Claim(pending: PendingTx, db: MainDb, saves: Saves, now: int)
    returns (ok: bool, crackSaved: DbSaveResult, recheck: DbSaveResult)
    requires db.Valid() && pending in db.tracked
    modifies pending, db
    ensures db.Valid() && db.tracked == old(db.tracked)
    ensures db.players == old(db.players) && db.tables == old(db.tables) && db.bets == old(db.bets)
    ensures ok <==> old(pending.status) == Pending
    ensures !ok ==> unchanged(pending) && unchanged(db)
    ensures ok ==>
      && crackSaved == saves.crack && recheck == saves.recheck
      && pending.Image() == CrackedIntent(old(pending.Image()), now)
      && db.Working() == WithIntent(old(db.Working()), pending.Image())
      && db.stored == if saves.crack.Saved? || saves.recheck.Saved? then db.Working() else old(db.stored)
  {
    ok := pending.Crack(now);
    if !ok {
      return false, saves.crack, saves.recheck;
    }
    db.IntentChanged(pending);
    crackSaved := db.TrySave(saves.crack);
    recheck := db.TrySave(saves.recheck);
  }

  /** The pay service's answer recorded on the claimed intent, SUCCESS or
      FAILURE with the error, and the context saved. */
  method Record(pending: PendingTx, db: MainDb, result: TxProcRes, save: DbSaveResult, now: int)
    returns (saved: DbSaveResult)
    requires db.Valid() && pending in db.tracked
    modifies pending, db
    ensures db.Valid() && db.tracked == old(db.tracked)
    ensures db.players == old(db.players) && db.tables == old(db.tables) && db.bets == old(db.bets)
    ensures pending.Image() == if result.error.None? then CompletedIntent(old(pending.Image()), now)
                               else FailedIntent(old(pending.Image()), result.error.value, now)
    ensures db.Working() == WithIntent(old(db.Working()), pending.Image())
    ensures db.stored == if save.Saved? then db.Working() else old(db.stored)
    ensures saved == save
  {
    if result.error.None? {
      pending.Complete(now);
    } else {
      pending.Fail(result.error.value, now);
    }
    db.IntentChanged(pending);
    saved := db.TrySave(save);
  }

  /** A claim the intent refuses (it is not PENDING) ends the run at once:
      "Internal Error", no save, no notification, nothing changed. */
  lemma ClaimRefused(stored: Rows, working: Rows, i: Intent, saves: Saves,
                     transfer: nat -> Attempt, balance: nat -> Attempt, now: int)
    requires i.status != Pending
    ensures Process(stored, working, i, saves, transfer, balance, now)
      == Processed(Success(ErrorResult(InternalError)), None, i, stored, working)
  {
  }

  /** The pay service is contacted only for a claimed intent whose claim
      the second save persisted and whose type forms a request: otherwise
      the run ends the same whatever the service would have answered. */
  lemma NoContactWithoutPersistedClaim(stored: Rows, working: Rows, i: Intent, saves: Saves,
                                       transfer: nat -> Attempt, balance: nat -> Attempt,
                                       transfer': nat -> Attempt, balance': nat -> Attempt, now: int)
    requires i.status != Pending || !saves.recheck.Saved? || !KnownType(i.txType)
    ensures Process(stored, working, i, saves, transfer, balance, now)
      == Process(stored, working, i, saves, transfer', balance', now)
  {
    FormedRequest(CrackedIntent(i, now));
  }

  /** When the second save fails, the run reports the first save's result,
      which reads "Success" when only the second one failed; the claim is
      stored if the first save succeeded. */
  lemma RecheckFailureReportsFirstSave(stored: Rows, working: Rows, i: Intent, saves: Saves,
                                       transfer: nat -> Attempt, balance: nat -> Attempt, now: int)
    requires i.status == Pending && !saves.recheck.Saved?
    ensures var p := Process(stored, working, i, saves, transfer, balance, now);
      && p.outcome == Success(ErrorResult(DatabaseFailurePrefix + SaveResultName(saves.crack)))
      && (saves.crack.Saved? ==> p.outcome.value.error == Some("Database failure: Success"))
      && p.notified == None
      && p.stored == if saves.crack.Saved? then WithIntent(working, CrackedIntent(i, now)) else stored
  {
    assert DatabaseFailurePrefix + SaveResultName(Saved) == "Database failure: Success";
  }

  /** Once the request is submitted, the stored intent is never PENDING
      again: it is the claimed row until the final save succeeds and the
      settled row after, SUCCESS exactly when the loop reported no error. */
  lemma SubmittedIsNeverPendingAgain(stored: Rows, working: Rows, i: Intent, saves: Saves,
                                     transfer: nat -> Attempt, balance: nat -> Attempt, now: int)
    requires i.status == Pending && saves.recheck.Saved? && KnownType(i.txType)
    ensures var p := Process(stored, working, i, saves, transfer, balance, now);
      var r := TransferLoop(GetAccountId(i.playerId), transfer, balance).res;
      && i.id in p.stored.intents
      && p.stored.intents[i.id].status != Pending
      && (p.stored.intents[i.id].status == Cracked <==> !saves.pay.Saved?)
      && (saves.pay.Saved? ==>
            && p.outcome == Success(r)
            && (p.stored.intents[i.id].status == Succeeded <==> r.error.None?)
            && (r.error.Some? ==> p.stored.intents[i.id] == FailedIntent(CrackedIntent(i, now), r.error.value, now)))
      && (!saves.pay.Saved? ==> p.outcome == Success(DatabaseFailure(saves.pay)) && p.notified == None)
  {
    FormedRequest(CrackedIntent(i, now));
  }

  /** An intent of unknown type raises after its claim was persisted: it
      stays CRACKED in the database, where no sweep selects it again. */
  lemma UnknownTypeStaysCracked(stored: Rows, working: Rows, i: Intent, saves: Saves,
                                transfer: nat -> Attempt, balance: nat -> Attempt, now: int)
    requires i.status == Pending && saves.recheck.Saved? && !KnownType(i.txType)
    ensures var p := Process(stored, working, i, saves, transfer, balance, now);
      && p.outcome == Failure("Unknown tx type: " + i.txType)
      && p.stored.intents[i.id].status == Cracked
      && p.notified == None
  {
    FormedRequest(CrackedIntent(i, now));
  }

  /** The player is told a balance only after the settled intent was saved
      as SUCCESS, and the balance told is the value the run returns. */
  lemma NotifiedOnlyAfterSave(stored: Rows, working: Rows, i: Intent, saves: Saves,
                              transfer: nat -> Attempt, balance: nat -> Attempt, now: int)
    ensures var p := Process(stored, working, i, saves, transfer, balance, now);
      p.notified.Some? ==>
        && saves.recheck.Saved?
        && saves.pay.Saved?
        && p.stored.intents[i.id] == CompletedIntent(CrackedIntent(i, now), now)
        && p.outcome == Success(TxProcRes(p.notified, None))
  {
    TransferLoopWellFormed(GetAccountId(i.playerId), transfer, balance);
  }
}
