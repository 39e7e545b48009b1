/** What the game server's route handlers share: the claims of the caller's
    token, the lookup of the calling player, and the HTTP results the
    handlers answer with. */
module Handlers {
  import opened Wrappers
  import opened PayDb
  import opened TableSchema
  import opened Wire
  import opened MainStore

  /** Error texts that more than one handler answers with. */
  const PlayerNotFound: string := "Player not found"
  const InsufficientFunds: string := "Insufficient funds"

  /** The claims of the caller's token the handlers read: the name
      identifier, which carries the player id, and the token version. */
  datatype Principal = Principal(nameId: Option<string>, version: Option<string>)

  /** `TableDto` as `Table.Wrap` fills it. */
  datatype TableDto = TableDto(id: string, name: string, tier: TableTier, playerCount: nat)

  /** The HTTP results of the handlers. `SaveFailed` is whatever
      `TrySaveAsync_HTTP` answers for a failed save; `Raised` is an exception
      that leaves the handler, which the framework answers with a 500. */
  datatype Reply =
    | OkBalance(value: Money)
    | OkTable(table: TableDto)
    | NoContent
    | NotFound(error: ErrorResponse)
    | BadRequest(error: ErrorResponse)
    | Conflict(error: ErrorResponse)
    | Unauthorized
    | SaveFailed(reason: DbSaveResult)
    | Raised(message: string)

  /** `GetPlayerId`: the id claim, or "" when there is none; found exactly
      when it is not empty. */
  function PlayerIdOf(user: Principal): (r: (bool, string))
    ensures r.0 <==> user.nameId.Some? && user.nameId.value != ""
    ensures r.1 == if user.nameId.Some? then user.nameId.value else ""
  {
    var id := if user.nameId.Some? then user.nameId.value else "";
    (id != "", id)
  }

  /** `GetPlayerSecure`: the calling player, only when the token carries a
      non-empty id and version and the player exists with that very token
      version; a token issued before the player's last login is refused. */
  function PlayerSecure(user: Principal, players: map<string, Player>): (r: Option<Player>)
    ensures r.Some? <==>
      && PlayerIdOf(user).0
      && user.version.Some? && user.version.value != ""
      && user.nameId.value in players
      && players[user.nameId.value].jwtVersion == user.version.value
    ensures r.Some? ==> r.value == players[user.nameId.value]
  {
    var (found, id) := PlayerIdOf(user);
    if !found then None
    else if user.version.None? || user.version.value == "" then None
    else if id !in players || players[id].jwtVersion != user.version.value then None
    else Some(players[id])
  }

  /** The table as the handlers answer it, with its seat count. */
  function View(tables: map<string, Table>, players: map<string, Player>, tableId: string): TableDto
    requires tableId in tables
  {
    var t := tables[tableId];
    TableDto(t.id, t.name, t.tier, |Seated(players, tableId)|)
  }
}
