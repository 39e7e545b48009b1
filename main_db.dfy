/** The game server's database as one unit of work sees it. Rows of
    players, tables and bets are values that the handlers replace in the
    working copy; intents are objects the context tracks. A save either
    writes the whole working copy or nothing. The context's save is not
    part of this model: a failed save is assumed to leave the changes in the
    working copy, where the next save of the same context writes them. */
module MainStore {
  import opened Wrappers
  import opened PayDb
  import opened TableSchema
  import opened Intents

  datatype Player = Player(id: string, name: string, currentTableId: Option<string>, lastActiveAt: int, jwtVersion: string)

  datatype Table = Table(id: string, name: string, tier: TableTier, nextSpinTime: int, lastWinningNumber: Option<int>)

  datatype Bet = Bet(
    id: string,
    playerId: string,
    tableId: string,
    chosenNumber: int,
    amount: Money,
    placedAt: int,
    isResolved: bool,
    winningNumber: Option<int>,
    payout: Money,
    resolvedAt: Option<int>)

  /** All rows of the database, keyed by id. */
  datatype Rows = Rows(
    players: map<string, Player>,
    tables: map<string, Table>,
    bets: map<string, Bet>,
    intents: map<string, Intent>)

  /** What a save reports: success, or the name of the failure. */
  datatype DbSaveResult = Saved | NotSaved(reason: string)

  /** A save result as string interpolation renders the enum. */
  function SaveResultName(r: DbSaveResult): string
  {
    match r
    case Saved => "Success"
    case NotSaved(reason) => reason
  }

  /** A listing that names no row twice. */
  predicate Distinct(ids: seq<string>)
  {
    forall a, b :: 0 <= a < b < |ids| ==> ids[a] != ids[b]
  }

  /** `Table.Players`: the players whose `CurrentTableId` is the table. */
  function Seated(players: map<string, Player>, tableId: string): (s: set<string>)
    ensures forall id :: id in s <==> id in players && players[id].currentTableId == Some(tableId)
  {
    set id | id in players && players[id].currentTableId == Some(tableId)
  }

  /** The rows the tracked intent objects currently stand for, in tracking order. */
  function ImageSeq(ts: seq<PendingTx>): (imgs: seq<Intent>)
    reads ts
  {
    seq(|ts|, i requires 0 <= i < |ts| reads ts => ts[i].Image())
  }

  predicate UniqueIds(imgs: seq<Intent>)
  {
    forall i, j :: 0 <= i < j < |imgs| ==> imgs[i].id != imgs[j].id
  }

  /** Rows keyed by id, a later row replacing an earlier one with its id. */
  function ImageMap(imgs: seq<Intent>): (m: map<string, Intent>)
    decreases |imgs|
  {
    if imgs == [] then map[]
    else ImageMap(imgs[..|imgs| - 1])[imgs[|imgs| - 1].id := imgs[|imgs| - 1]]
  }

  /** The ids of some rows. */
  function Ids(imgs: seq<Intent>): set<string>
  {
    set i | 0 <= i < |imgs| :: imgs[i].id
  }

  /** The keyed rows have exactly the rows' ids as keys. */
  lemma {:induction false} ImageMapKeys(imgs: seq<Intent>)
    ensures ImageMap(imgs).Keys == Ids(imgs)
    decreases |imgs|
  {
    if imgs != [] {
      var n := |imgs| - 1;
      var init := imgs[..n];
      ImageMapKeys(init);
      forall id | id in Ids(imgs) ensures id in Ids(init) + {imgs[n].id} {
        var i :| 0 <= i < |imgs| && imgs[i].id == id;
        if i < n {
          assert init[i].id == id;
        }
      }
      forall id | id in Ids(init) ensures id in Ids(imgs) {
        var i :| 0 <= i < n && init[i].id == id;
        assert imgs[i].id == id;
      }
      assert imgs[n].id in Ids(imgs);
    }
  }

  /** With unique ids, each row's id is keyed to that row. */
  lemma {:induction false} ImageMapAt(imgs: seq<Intent>)
    requires UniqueIds(imgs)
    ensures forall i :: 0 <= i < |imgs| ==> imgs[i].id in ImageMap(imgs) && ImageMap(imgs)[imgs[i].id] == imgs[i]
    decreases |imgs|
  {
    if imgs != [] {
      var n := |imgs| - 1;
      var init, last := imgs[..n], imgs[n];
      assert UniqueIds(init) by {
        forall i, j | 0 <= i < j < n ensures init[i].id != init[j].id {
          assert init[i] == imgs[i] && init[j] == imgs[j];
        }
      }
      ImageMapAt(init);
      forall i | 0 <= i < n ensures imgs[i].id in ImageMap(imgs) && ImageMap(imgs)[imgs[i].id] == imgs[i] {
        assert init[i] == imgs[i];
        assert imgs[i].id != last.id;
      }
    }
  }

  /** With unique ids, the keyed rows are exactly the rows: the keys are the
      rows' ids and each id maps to the row that carries it. */
  lemma ImageMapRows(imgs: seq<Intent>)
    requires UniqueIds(imgs)
    ensures ImageMap(imgs).Keys == Ids(imgs)
    ensures forall i :: 0 <= i < |imgs| ==> ImageMap(imgs)[imgs[i].id] == imgs[i]
  {
    ImageMapKeys(imgs);
    ImageMapAt(imgs);
  }

  /** Keying two runs of rows one after the other: the later run wins. */
  lemma {:induction false} ImageMapAppend(a: seq<Intent>, b: seq<Intent>)
    ensures ImageMap(a + b) == ImageMap(a) + ImageMap(b)
    decreases |b|
  {
    if b == [] {
      assert a + b == a;
    } else {
      var n := |b| - 1;
      assert (a + b)[..|a + b| - 1] == a + b[..n];
      assert (a + b)[|a + b| - 1] == b[n];
      ImageMapAppend(a, b[..n]);
    }
  }

  /** Replacing one row by another with the same id keeps the ids unique and
      replaces exactly that id's entry among the keyed rows. */
  lemma {:induction false} ImageMapUpdate(imgs: seq<Intent>, k: nat, v: Intent)
    requires UniqueIds(imgs) && k < |imgs| && imgs[k].id == v.id
    ensures UniqueIds(imgs[k := v])
    ensures ImageMap(imgs[k := v]) == ImageMap(imgs)[v.id := v]
    decreases |imgs|
  {
    var n := |imgs| - 1;
    var updated := imgs[k := v];
    var init, init' := imgs[..n], updated[..n];
    assert UniqueIds(updated) by {
      forall i, j | 0 <= i < j < |imgs| ensures updated[i].id != updated[j].id {
        assert updated[i].id == imgs[i].id && updated[j].id == imgs[j].id;
      }
    }
    if k == n {
      assert init' == init;
    } else {
      assert UniqueIds(init) by {
        forall i, j | 0 <= i < j < n ensures init[i].id != init[j].id {
          assert init[i] == imgs[i] && init[j] == imgs[j];
        }
      }
      assert init' == init[k := v];
      assert updated[n] == imgs[n] && imgs[n].id != v.id;
      ImageMapUpdate(init, k, v);
    }
  }

  /** Updating the right operand of a merge updates the merge. */
  lemma MergeUpdate<V>(a: map<string, V>, b: map<string, V>, k: string, v: V)
    ensures a + b[k := v] == (a + b)[k := v]
  {
  }

  /** The database context of one scope. */
  class MainDb {
    /** What the database holds. */
    var stored: Rows
    /** The context's working copy of the value rows. */
    var players: map<string, Player>
    var tables: map<string, Table>
    var bets: map<string, Bet>
    /** The intent objects attached to the context, loaded or added. */
    var tracked: seq<PendingTx>

    ghost predicate Valid()
      reads this, tracked
    {
      UniqueIds(ImageSeq(tracked))
    }

    /** What a save of this context would write. */
    function Working(): Rows
      reads this, tracked
    {
      Rows(players, tables, bets, stored.intents + ImageMap(ImageSeq(tracked)))
    }

    constructor(rows: Rows)
      ensures stored == rows && tracked == [] && Working() == rows && Valid()
    {
      stored := rows;
      players, tables, bets := rows.players, rows.tables, rows.bets;
      tracked := [];
    }

    /** A fresh context over the same database: nothing tracked, nothing changed. */
    method BeginScope()
      modifies this
      ensures stored == old(stored) && tracked == [] && Working() == stored && Valid()
    {
      players, tables, bets := stored.players, stored.tables, stored.bets;
      tracked := [];
      assert ImageSeq(tracked) == [];
      assert stored.intents + map[] == stored.intents;
    }

    /** `PendingTxs.Add` or attaching a loaded row: the object joins the
        tracked intents. A second object with a tracked id is refused by the
        context, so callers add only new ids. */
    method Add(p: PendingTx)
      requires Valid() && forall i :: 0 <= i < |tracked| ==> tracked[i].id != p.id
      modifies this
      ensures Valid() && tracked == old(tracked) + [p]
      ensures stored == old(stored) && players == old(players) && tables == old(tables) && bets == old(bets)
      ensures Working() == old(Working()).(intents := old(Working()).intents[p.id := p.Image()])
      ensures ImageSeq(tracked) == old(ImageSeq(tracked)) + [p.Image()]
    {
      ghost var before := ImageSeq(tracked);
      tracked := tracked + [p];
      ghost var after := before + [p.Image()];
      assert ImageSeq(tracked) == after;
      assert after[..|before|] == before;
      assert ImageMap(after) == ImageMap(before)[p.id := p.Image()];
      MergeUpdate(stored.intents, ImageMap(before), p.id, p.Image());
      forall i, j | 0 <= i < j < |after| ensures after[i].id != after[j].id {
        if j == |before| {
          assert after[i] == before[i] == old(tracked[i].Image());
        } else {
          assert after[i] == before[i] && after[j] == before[j];
        }
      }
    }

    /** `TrySaveAsync`: `outcome` is what the database answers. On success the
        working copy becomes the stored rows; on failure nothing is stored and,
        by assumption, the working copy keeps its changes. */
    method TrySave(outcome: DbSaveResult) returns (r: DbSaveResult)
      modifies this
      ensures r == outcome
      ensures stored == if outcome.Saved? then old(Working()) else old(stored)
      ensures tracked == old(tracked) && players == old(players) && tables == old(tables) && bets == old(bets)
      ensures Working() == old(Working())
      ensures old(Valid()) ==> Valid()
    {
      if outcome.Saved? {
        stored := Working();
      }
      return outcome;
    }

    /** After one tracked intent changed and kept its id, the working copy
        holds its new row; nothing else changed. */
    twostate lemma IntentChanged(p: PendingTx)
      requires old(Valid()) && p in old(tracked)
      requires unchanged(this)
      requires forall i :: 0 <= i < |tracked| && tracked[i] != p ==> unchanged(tracked[i])
      requires p.id == old(p.id)
      ensures Valid()
      ensures Working() == old(Working()).(intents := old(Working()).intents[p.id := p.Image()])
    {
      var k :| 0 <= k < |tracked| && tracked[k] == p;
      var before, after := old(ImageSeq(tracked)), ImageSeq(tracked);
      var v := p.Image();
      forall i | 0 <= i < |tracked|
        ensures after[i] == before[k := v][i]
      {
        assert after[i] == tracked[i].Image();
        if i != k {
          assert before[i] == old(tracked[i].Image());
          assert before[i].id != before[k].id;
          assert unchanged(tracked[i]);
        }
      }
      assert after == before[k := v];
      ImageMapUpdate(before, k, v);
      MergeUpdate(stored.intents, ImageMap(before), v.id, v);
    }
  }
}
