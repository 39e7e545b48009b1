/** A pending transaction intent of the game server: what the game owes or
    is owed by a player, and the status machine that drives it through the
    pay service (PENDING, then CRACKED once claimed, then SUCCESS or
    FAILURE), with an append-only log. Times are milliseconds and are
    rendered in the log as decimal numbers. */
module Intents {
  import opened Wrappers
  import opened Text
  import opened LedgerAccounts
  import opened PayDb

  const Spend: string := "SPEND"
  const Payout: string := "PAYOUT"
  const Deposit: string := "DEPOSIT"
  const Withdrawal: string := "WITHDRAWAL"

  const Pending: string := "PENDING"
  const Cracked: string := "CRACKED"
  const Succeeded: string := "SUCCESS"
  const Failed: string := "FAILURE"

  /** The stored row of an intent; its id is also the ledger idempotency key. */
  datatype Intent = Intent(
    id: string,
    txType: string,
    status: string,
    playerId: string,
    amount: Money,
    createdAt: int,
    processedAt: Option<int>,
    log: Option<string>)

  /** A new intent as the handlers and the scheduler create it. */
  function NewIntent(id: string, txType: string, playerId: string, amount: Money, now: int): (i: Intent)
    ensures i.id == id && i.txType == txType && i.playerId == playerId && i.amount == amount
    ensures i.status == Pending && i.createdAt == now && i.processedAt == None && i.log == None
  {
    Intent(id, txType, Pending, playerId, amount, now, None, None)
  }

  /** The ledger request an intent stands for: keyed by the intent's id,
      with its type as reason and two legs between a system account and the
      player's account. An unknown type raises. */
  function FormTxRequest(i: Intent): Result<TxRequest, string>
  {
    var player := GetAccountId(i.playerId);
    if i.txType == Deposit then Success(TxRequest(i.id, i.txType, [TxLeg(External, -i.amount), TxLeg(player, i.amount)]))
    else if i.txType == Withdrawal then Success(TxRequest(i.id, i.txType, [TxLeg(External, i.amount), TxLeg(player, -i.amount)]))
    else if i.txType == Spend then Success(TxRequest(i.id, i.txType, [TxLeg(House, i.amount), TxLeg(player, -i.amount)]))
    else if i.txType == Payout then Success(TxRequest(i.id, i.txType, [TxLeg(House, -i.amount), TxLeg(player, i.amount)]))
    else Failure("Unknown tx type: " + i.txType)
  }

  predicate KnownType(txType: string)
  {
    txType in {Deposit, Withdrawal, Spend, Payout}
  }

  /** How much a known type moves into the player's account per unit of amount. */
  function PlayerSign(txType: string): int
  {
    if txType in {Deposit, Payout} then 1 else -1
  }

  /** Every known type forms a balanced two-leg request keyed by the
      intent's id, with its type as reason, which moves the player's account
      by the amount (in for DEPOSIT and PAYOUT, out for WITHDRAWAL and SPEND)
      and the system account by the opposite; an unknown type is refused
      with its name. */
  lemma FormedRequest(i: Intent)
    ensures FormTxRequest(i).Success? <==> KnownType(i.txType)
    ensures FormTxRequest(i).Failure? ==> FormTxRequest(i).error == "Unknown tx type: " + i.txType
    ensures KnownType(i.txType) ==>
      var req := FormTxRequest(i).value;
      var player := GetAccountId(i.playerId);
      var system := if i.txType in {Deposit, Withdrawal} then External else House;
      && req.idempotencyKey == i.id
      && req.reason == i.txType
      && |req.legs| == 2
      && LegSum(req.legs) == 0
      && LegIds(req.legs) == {system, player}
      && LegSumFor(req.legs, player) == PlayerSign(i.txType) * i.amount
      && LegSumFor(req.legs, system) == -PlayerSign(i.txType) * i.amount
  {
    var player := GetAccountId(i.playerId);
    PlayerAccountIsNotSystem(i.playerId);
    SystemAccountIds();
    assert player != External && player != House;
    if KnownType(i.txType) {
      var legs := FormTxRequest(i).value.legs;
      TwoLegSums(legs[0], legs[1], player);
      TwoLegSums(legs[0], legs[1], if i.txType in {Deposit, Withdrawal} then External else House);
      assert legs == [legs[0], legs[1]];
      assert LegIds(legs) == {legs[0].accountId, legs[1].accountId};
    }
  }

  lemma TwoLegSums(a: TxLeg, b: TxLeg, id: string)
    ensures LegSum([a, b]) == a.amount + b.amount
    ensures LegSumFor([a, b], id) == (if a.accountId == id then a.amount else 0) + (if b.accountId == id then b.amount else 0)
  {
    var legs := [a, b];
    assert legs[..|legs| - 1] == [a];
    assert [a][..0] == [];
    assert LegSum([a]) == a.amount;
    assert LegSumFor([a], id) == if a.accountId == id then a.amount else 0;
  }

  /** The log line for an event at time `now`. */
  function Stamp(now: int, line: string): string
  {
    IntToString(now) + ": " + line
  }

  /** The log after appending one line: a newline separates it from a
      non-empty log; an absent or empty log is replaced. */
  function AppendLog(log: Option<string>, now: int, line: string): (r: string)
  {
    Joined(log, Stamp(now, line))
  }

  function Joined(log: Option<string>, entry: string): string
  {
    if log.Some? && log.value != "" then log.value + "\n" + entry else entry
  }

  /** Joining keeps the old log as a prefix and ends with the entry; there
      is a separating newline exactly when the old log was non-empty. */
  lemma JoinedExtends(log: Option<string>, entry: string)
    ensures var old_ := if log.Some? then log.value else "";
      var r := Joined(log, entry);
      && StartsWith(r, old_)
      && r[|old_|..] == (if old_ == "" then "" else "\n") + entry
  {
    var old_ := if log.Some? then log.value else "";
    if old_ != "" {
      assert Joined(log, entry) == old_ + ("\n" + entry);
    }
  }

  /** Appending keeps the old log as a prefix and ends with the stamped
      line; there is a separating newline exactly when the old log was
      non-empty. */
  lemma AppendLogExtends(log: Option<string>, now: int, line: string)
    ensures var old_ := if log.Some? then log.value else "";
      var r := AppendLog(log, now, line);
      && StartsWith(r, old_)
      && r[|old_|..] == (if old_ == "" then "" else "\n") + Stamp(now, line)
  {
    JoinedExtends(log, Stamp(now, line));
  }

  function CrackedIntent(i: Intent, now: int): Intent
  {
    i.(status := Cracked, log := Some(AppendLog(i.log, now, Cracked)))
  }

  function CompletedIntent(i: Intent, now: int): Intent
  {
    i.(status := Succeeded, processedAt := Some(now), log := Some(AppendLog(i.log, now, Succeeded)))
  }

  function FailedIntent(i: Intent, err: string, now: int): Intent
  {
    i.(status := Failed, processedAt := Some(now), log := Some(AppendLog(i.log, now, err)))
  }

  /** Each transition changes only status, processing time and log; the
      identity, type, player, amount and creation time stay, and so does
      the request the intent forms. */
  lemma TransitionsKeepRequest(i: Intent, err: string, now: int)
    ensures var c, s, f := CrackedIntent(i, now), CompletedIntent(i, now), FailedIntent(i, err, now);
      && FormTxRequest(c) == FormTxRequest(i)
      && FormTxRequest(s) == FormTxRequest(i)
      && FormTxRequest(f) == FormTxRequest(i)
      && c.processedAt == i.processedAt
      && s.processedAt == Some(now) && f.processedAt == Some(now)
  {
  }

  /** An intent object as the game server's database context tracks it. */
  class PendingTx {
    var id: string
    var txType: string
    var status: string
    var playerId: string
    var amount: Money
    var createdAt: int
    var processedAt: Option<int>
    var log: Option<string>

    function Image(): Intent
      reads this
    {
      Intent(id, txType, status, playerId, amount, createdAt, processedAt, log)
    }

    /** An object carrying a stored row or a freshly created intent. */
    constructor(row: Intent)
      ensures Image() == row
    {
      id, txType, status, playerId := row.id, row.txType, row.status, row.playerId;
      amount, createdAt, processedAt, log := row.amount, row.createdAt, row.processedAt, row.log;
    }

    /** Claims the intent: only a PENDING one becomes CRACKED, with one log
        line; any other is left as it was. */
    method Crack(now: int) returns (ok: bool)
      modifies this
      ensures ok <==> old(status) == Pending
      ensures Image() == if ok then CrackedIntent(old(Image()), now) else old(Image())
      ensures !ok ==> unchanged(this)
    {
      if status != Pending {
        return false;
      }
      status := Cracked;
      AppendLogLine(now, Cracked);
      return true;
    }

    /** Marks the intent SUCCESS, whatever its status was. */
    method Complete(now: int)
      modifies this
      ensures Image() == CompletedIntent(old(Image()), now)
    {
      status := Succeeded;
      processedAt := Some(now);
      AppendLogLine(now, Succeeded);
    }

    /** Marks the intent FAILURE with the error as its log line, whatever its status was. */
    method Fail(err: string, now: int)
      modifies this
      ensures Image() == FailedIntent(old(Image()), err, now)
    {
      status := Failed;
      processedAt := Some(now);
      AppendLogLine(now, err);
    }

    method AppendLogLine(now: int, line: string)
      modifies this
      ensures Image() == old(Image()).(log := Some(AppendLog(old(log), now, line)))
    {
      if log.Some? && log.value != "" {
        log := Some(log.value + "\n");
      } else {
        log := Some("");
      }
      ghost var sep := log.value;
      log := Some(log.value + Stamp(now, line));
      assert sep == "" ==> log.value == Stamp(now, line);
    }
  }
}
