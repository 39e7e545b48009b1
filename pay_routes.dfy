/** The pay service's two internal endpoints: a transfer, answered with the
    new balance of every account it names or with the ledger's error code,
    and a balance query that always succeeds. */
module PayRoutes {
  import opened Wrappers
  import opened PayDb
  import opened LedgerEngine
  import opened Wire

  /** The balance dictionary of a successful transfer: every distinct
      account id among the legs, and no other, with its current balance. */
  function NewBalances(accounts: map<string, Account>, legs: seq<TxLeg>): (m: map<string, Money>)
  {
    map id | id in LegIds(legs) :: BalanceOf(accounts, id)
  }

  /** The answer to a transfer: 400 with the error code wrapped as an error
      message, or 200 with the new balances. */
  function TransferResponse(error: Option<string>, accounts: map<string, Account>, legs: seq<TxLeg>): HttpResponse
  {
    match error
    case Some(code) => HttpResponse(BadRequest, Error(Err(code)))
    case None => HttpResponse(Ok, Balances(NewBalances(accounts, legs)))
  }

  /** Every ledger error, a conflict or a fatal error included, is a 400
      whose record carries the code as its message and no code. */
  lemma ErrorIsBadRequestWithoutCode(error: Option<string>, accounts: map<string, Account>, legs: seq<TxLeg>)
    requires error.Some?
    ensures var r := TransferResponse(error, accounts, legs);
      && r.status == BadRequest && !IsSuccessStatus(r.status)
      && r.body.Error? && r.body.error.message == error.value
      && ReadErrorCode(r.body) == Success(None)
  {
  }

  /** The answer to a successful transfer maps exactly the accounts it named,
      each to its balance before the transfer plus the sum of its legs. */
  lemma SuccessReportsMovedBalances(s: LedgerState, req: TxRequest, entryId: string, now: int)
    requires Keyed(s.accounts)
    requires Transfer(s, req, entryId, now, None).1 == None
    ensures var s1 := Transfer(s, req, entryId, now, None).0;
      var r := TransferResponse(None, s1.accounts, req.legs);
      && r.status == Ok
      && r.body.Balances?
      && r.body.balances.Keys == LegIds(req.legs)
      && forall id :: id in r.body.balances ==> r.body.balances[id] == BalanceOf(s.accounts, id) + LegSumFor(req.legs, id)
  {
    TransferEffects(s, req, entryId, now, None);
  }

  /** The balance endpoint: always 200 with the stored balance. */
  function BalanceResponse(ledger: Ledger, accountId: string): (r: HttpResponse)
    reads ledger
    ensures r.status == Ok && r.body.Value?
    ensures Consistent(ledger.State()) ==> r.body.value == LineSumFor(ledger.lines, accountId)
  {
    HttpResponse(Ok, Value(ledger.GetBalance(accountId)))
  }

  /** The transfer endpoint: run the transfer, then answer it. */
  method HandleTransfer(ledger: Ledger, req: TxRequest, entryId: string, now: int, fault: Option<string>) returns (r: HttpResponse)
    modifies ledger
    ensures ledger.State() == Transfer(old(ledger.State()), req, entryId, now, fault).0
    ensures r == TransferResponse(Transfer(old(ledger.State()), req, entryId, now, fault).1, ledger.accounts, req.legs)
  {
    var errorCode := ledger.ExecuteTransfer(req, entryId, now, fault);
    if errorCode.Some? {
      return HttpResponse(BadRequest, Error(Err(errorCode.value)));
    }
    var newBalances := map id | id in LegIds(req.legs) :: ledger.GetBalance(id);
    assert newBalances == NewBalances(ledger.accounts, req.legs);
    return HttpResponse(Ok, Balances(newBalances));
  }
}
