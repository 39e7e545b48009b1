/** Well-known ledger account ids shared by the game service and the
    accounting service. System accounts carry the "SYS_" prefix, player
    accounts the "PLAYER_" prefix followed by the player id. */
module LedgerAccounts {
  import opened Text

  const SysPrefix: string := "SYS_"
  const PlayerPrefix: string := "PLAYER_"

  /** The counterparty of deposits and withdrawals (money entering or leaving the system). */
  const External: string := SysPrefix + "EXTERNAL"

  /** The counterparty of bets and payouts. */
  const House: string := SysPrefix + "HOUSE"

  /** The ledger account of a player. Stripping the player prefix gives the
      player id back. */
  function GetAccountId(playerId: string): (id: string)
    ensures StartsWith(id, PlayerPrefix)
    ensures id[|PlayerPrefix|..] == playerId
  {
    PlayerPrefix + playerId
  }

  /** Distinct players never share a ledger account. */
  lemma {:induction false} GetAccountIdInjective(p: string, q: string)
    requires GetAccountId(p) == GetAccountId(q)
    ensures p == q
  {
    calc {
      p;
      GetAccountId(p)[|PlayerPrefix|..];
      GetAccountId(q)[|PlayerPrefix|..];
      q;
    }
  }

  /** A player account is never a system account. */
  lemma PlayerAccountIsNotSystem(playerId: string)
    ensures !StartsWith(GetAccountId(playerId), SysPrefix)
  {
    var id := GetAccountId(playerId);
    assert id[1] == 'L' && SysPrefix[1] == 'Y';
  }

  /** Both counterparties are system accounts with the documented names. */
  lemma SystemAccountIds()
    ensures External == "SYS_EXTERNAL" && House == "SYS_HOUSE"
    ensures StartsWith(External, SysPrefix) && StartsWith(House, SysPrefix)
    ensures External != House
  {
    assert External[4] != House[4];
  }
}
