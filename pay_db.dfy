/** The accounting service's storage: accounts with a row version, the
    append-only journal, and one ledger line per leg. Money columns are
    decimal(18,2), so every amount is a whole number of hundredths.

    The entity types live here together with the sums the ledger's
    invariants are stated with, and `Consistent`, the invariant itself. */
module PayDb {
  import opened Text
  import opened LedgerAccounts

  /** A decimal(18,2) amount, counted in hundredths. */
  type Money = int

  datatype Account = Account(id: string, balance: Money, version: nat)

  /** System accounts (EXTERNAL, HOUSE) may go negative; player accounts may not. */
  predicate IsSys(a: Account)
  {
    StartsWith(a.id, SysPrefix)
  }

  datatype JournalEntry = JournalEntry(id: string, idempotencyKey: string, reason: string, createdAt: int)

  /** One leg as recorded: which entry it belongs to, which account it moved, by how much. */
  datatype LedgerLine = LedgerLine(journalEntryId: string, accountId: string, amount: Money)

  /** One signed movement of a transfer request. */
  datatype TxLeg = TxLeg(accountId: string, amount: Money)

  datatype TxRequest = TxRequest(idempotencyKey: string, reason: string, legs: seq<TxLeg>)

  /** The three tables of the accounting database. */
  datatype LedgerState = LedgerState(accounts: map<string, Account>, journal: seq<JournalEntry>, lines: seq<LedgerLine>)

  /** Stored balance of an account; an account never created counts as 0. */
  function BalanceOf(accounts: map<string, Account>, id: string): Money
  {
    if id in accounts then accounts[id].balance else 0
  }

  /** Every stored account row sits under its own id. */
  ghost predicate Keyed(accounts: map<string, Account>)
  {
    forall id :: id in accounts ==> accounts[id].id == id
  }

  // ---------------------------------------------------------------------------
  // Sums over legs and lines (recursion on the last element, so that appending
  // one leg or one line unfolds one step)

  function LegSum(legs: seq<TxLeg>): Money
    decreases |legs|
  {
    if legs == [] then 0 else LegSum(legs[..|legs| - 1]) + legs[|legs| - 1].amount
  }

  /** The net amount the legs move on one account. */
  function LegSumFor(legs: seq<TxLeg>, id: string): Money
    decreases |legs|
  {
    if legs == [] then 0
    else LegSumFor(legs[..|legs| - 1], id) + (if legs[|legs| - 1].accountId == id then legs[|legs| - 1].amount else 0)
  }

  function LegIds(legs: seq<TxLeg>): set<string>
  {
    set k | 0 <= k < |legs| :: legs[k].accountId
  }

  lemma {:induction false} LegSumForUntouched(legs: seq<TxLeg>, id: string)
    requires id !in LegIds(legs)
    ensures LegSumFor(legs, id) == 0
    decreases |legs|
  {
    if legs != [] {
      var p := legs[..|legs| - 1];
      assert LegIds(p) <= LegIds(legs) by {
        forall x | x in LegIds(p) ensures x in LegIds(legs) {
          var k :| 0 <= k < |p| && p[k].accountId == x;
          assert legs[k].accountId == x;
        }
      }
      assert legs[|legs| - 1].accountId in LegIds(legs);
      LegSumForUntouched(p, id);
    }
  }

  /** The net amount the lines record on one account. */
  function LineSumFor(lines: seq<LedgerLine>, id: string): Money
    decreases |lines|
  {
    if lines == [] then 0
    else LineSumFor(lines[..|lines| - 1], id) + (if lines[|lines| - 1].accountId == id then lines[|lines| - 1].amount else 0)
  }

  /** The sum of the lines that belong to one journal entry. */
  function LineSumEntry(lines: seq<LedgerLine>, entryId: string): Money
    decreases |lines|
  {
    if lines == [] then 0
    else LineSumEntry(lines[..|lines| - 1], entryId) + (if lines[|lines| - 1].journalEntryId == entryId then lines[|lines| - 1].amount else 0)
  }

  lemma {:induction false} LineSumsAppend(a: seq<LedgerLine>, b: seq<LedgerLine>, id: string)
    ensures LineSumFor(a + b, id) == LineSumFor(a, id) + LineSumFor(b, id)
    ensures LineSumEntry(a + b, id) == LineSumEntry(a, id) + LineSumEntry(b, id)
    decreases |b|
  {
    if b == [] {
      assert a + b == a;
    } else {
      assert (a + b)[..|a + b| - 1] == a + b[..|b| - 1];
      LineSumsAppend(a, b[..|b| - 1], id);
    }
  }

  /** No line names the account, so the lines record nothing for it. */
  lemma {:induction false} LineSumForUnreferenced(lines: seq<LedgerLine>, id: string)
    requires forall i :: 0 <= i < |lines| ==> lines[i].accountId != id
    ensures LineSumFor(lines, id) == 0
    decreases |lines|
  {
    if lines != [] {
      LineSumForUnreferenced(lines[..|lines| - 1], id);
    }
  }

  /** The lines a transfer writes: one per leg, in leg order, with the leg's account and amount. */
  function LinesFor(entryId: string, legs: seq<TxLeg>): (r: seq<LedgerLine>)
    ensures |r| == |legs|
    ensures forall k :: 0 <= k < |legs| ==> r[k] == LedgerLine(entryId, legs[k].accountId, legs[k].amount)
    decreases |legs|
  {
    if legs == [] then []
    else LinesFor(entryId, legs[..|legs| - 1]) + [LedgerLine(entryId, legs[|legs| - 1].accountId, legs[|legs| - 1].amount)]
  }

  /** The lines of a transfer record exactly what its legs move: per account,
      and per entry (where they add up to the legs' total). */
  lemma {:induction false} LinesForSums(entryId: string, legs: seq<TxLeg>, id: string)
    ensures LineSumFor(LinesFor(entryId, legs), id) == LegSumFor(legs, id)
    ensures LineSumEntry(LinesFor(entryId, legs), id) == if id == entryId then LegSum(legs) else 0
    decreases |legs|
  {
    if legs != [] {
      var p := legs[..|legs| - 1];
      LinesForSums(entryId, p, id);
      assert LinesFor(entryId, legs)[..|legs| - 1] == LinesFor(entryId, p);
    }
  }

  // ---------------------------------------------------------------------------
  // The total of all balances

  /** Some stored account id; which one does not matter (see `TotalRemove`). */
  ghost function Pick(m: map<string, Account>): (k: string)
    requires |m| > 0
    ensures k in m
  {
    var k :| k in m; k
  }

  ghost function TotalBalance(accounts: map<string, Account>): int
    decreases |accounts|
  {
    if |accounts| == 0 then 0
    else
      var k := Pick(accounts);
      accounts[k].balance + TotalBalance(accounts - {k})
  }

  /** The total does not depend on which account the definition picks first. */
  lemma {:induction false} TotalRemove(m: map<string, Account>, k: string)
    requires k in m
    ensures TotalBalance(m) == m[k].balance + TotalBalance(m - {k})
    decreases |m|
  {
    var j := Pick(m);
    if j != k {
      var mj, mk := m - {j}, m - {k};
      assert mj.Keys == m.Keys - {j} && mk.Keys == m.Keys - {k};
      assert |mj| == |m| - 1 && |mk| == |m| - 1;
      TotalRemove(mj, k);
      TotalRemove(mk, j);
      assert mj - {k} == mk - {j};
    }
  }

  /** Writing one key into the right operand of a merge writes it into the merge. */
  lemma MergeSet(a: map<string, Account>, b: map<string, Account>, k: string, v: Account)
    ensures a + b[k := v] == (a + b)[k := v]
  {
  }

  /** Writing one row changes the total by the difference of its balance. */
  lemma TotalSet(m: map<string, Account>, k: string, a: Account)
    ensures TotalBalance(m[k := a]) == TotalBalance(m) - BalanceOf(m, k) + a.balance
  {
    TotalRemove(m[k := a], k);
    assert m[k := a] - {k} == m - {k};
    if k in m {
      TotalRemove(m, k);
    } else {
      assert m - {k} == m;
    }
  }

  /** Overwriting with `w` is overwriting with all of `w` but `k`, then writing `k`. */
  lemma OverrideStep(m: map<string, Account>, w: map<string, Account>, k: string)
    requires k in w
    ensures m + w == (m + (w - {k}))[k := w[k]]
    ensures BalanceOf(m + (w - {k}), k) == BalanceOf(m, k)
  {
    var lhs, rhs := m + w, (m + (w - {k}))[k := w[k]];
    assert lhs.Keys == rhs.Keys;
    forall x | x in lhs ensures lhs[x] == rhs[x] {
    }
  }

  lemma OverrideTotalStep(m: map<string, Account>, w: map<string, Account>, k: string)
    requires k in w
    ensures TotalBalance(m + w) == TotalBalance(m + (w - {k})) - BalanceOf(m, k) + w[k].balance
  {
    OverrideStep(m, w, k);
    TotalSet(m + (w - {k}), k, w[k]);
  }

  /** Overwriting the rows of `w` changes the total by an amount that depends
      only on the balances those rows had before. */
  lemma {:induction false} TotalOverrideDelta(m1: map<string, Account>, m2: map<string, Account>, w: map<string, Account>)
    requires forall id :: id in w ==> BalanceOf(m1, id) == BalanceOf(m2, id)
    ensures TotalBalance(m1 + w) - TotalBalance(m1) == TotalBalance(m2 + w) - TotalBalance(m2)
    decreases |w|
  {
    if |w| == 0 {
      assert w == map[];
      assert m1 + w == m1 && m2 + w == m2;
    } else {
      var k := Pick(w);
      var w' := w - {k};
      assert w'.Keys == w.Keys - {k};
      assert |w'| == |w| - 1;
      TotalOverrideDelta(m1, m2, w');
      OverrideTotalStep(m1, w, k);
      OverrideTotalStep(m2, w, k);
    }
  }

  /** Rows that differ only outside their balances have the same total. */
  lemma {:induction false} TotalSameBalances(m1: map<string, Account>, m2: map<string, Account>)
    requires m1.Keys == m2.Keys
    requires forall id :: id in m1 ==> m1[id].balance == m2[id].balance
    ensures TotalBalance(m1) == TotalBalance(m2)
    decreases |m1|
  {
    if |m1| != 0 {
      var k :| k in m1;
      TotalRemove(m1, k);
      TotalRemove(m2, k);
      assert (m1 - {k}).Keys == (m2 - {k}).Keys;
      TotalSameBalances(m1 - {k}, m2 - {k});
    }
  }

  // ---------------------------------------------------------------------------
  // The ledger's invariant

  function IdempotencyKeys(journal: seq<JournalEntry>): set<string>
  {
    set i | 0 <= i < |journal| :: journal[i].idempotencyKey
  }

  function EntryIds(journal: seq<JournalEntry>): set<string>
  {
    set i | 0 <= i < |journal| :: journal[i].id
  }

  /** The unique index on IdempotencyKey: no two entries share a key. */
  predicate KeysUnique(journal: seq<JournalEntry>)
  {
    forall i, j :: 0 <= i < j < |journal| ==> journal[i].idempotencyKey != journal[j].idempotencyKey
  }

  /** An entry with a fresh key keeps the keys unique. */
  lemma KeysUniqueAppend(journal: seq<JournalEntry>, e: JournalEntry)
    requires KeysUnique(journal) && e.idempotencyKey !in IdempotencyKeys(journal)
    ensures KeysUnique(journal + [e])
  {
    var after := journal + [e];
    forall i, j | 0 <= i < j < |after| ensures after[i].idempotencyKey != after[j].idempotencyKey {
      if j == |journal| {
        assert journal[i].idempotencyKey in IdempotencyKeys(journal);
      } else {
        assert after[i] == journal[i] && after[j] == journal[j];
      }
    }
  }

  /** Appending an entry adds exactly its id to the entry ids. */
  lemma EntryIdsAppend(journal: seq<JournalEntry>, e: JournalEntry)
    ensures EntryIds(journal + [e]) == EntryIds(journal) + {e.id}
  {
    var after := journal + [e];
    forall id | id in EntryIds(after) ensures id in EntryIds(journal) + {e.id} {
      var i :| 0 <= i < |after| && after[i].id == id;
      if i < |journal| {
        assert journal[i].id == id;
      }
    }
    forall id | id in EntryIds(journal) ensures id in EntryIds(after) {
      var i :| 0 <= i < |journal| && journal[i].id == id;
      assert after[i].id == id;
    }
    assert after[|journal|].id == e.id;
  }

  /** What every committed state of the accounting database satisfies:
      rows are keyed by id; player accounts are never negative; each balance
      is exactly what the lines record for that account; every line names a
      stored account and an existing entry; keys are unique; each entry's
      lines sum to zero; and no money was created or destroyed. */
  ghost predicate Consistent(s: LedgerState)
  {
    && Keyed(s.accounts)
    && (forall id :: id in s.accounts && !IsSys(s.accounts[id]) ==> s.accounts[id].balance >= 0)
    && (forall id :: id in s.accounts ==> s.accounts[id].balance == LineSumFor(s.lines, id))
    && (forall i :: 0 <= i < |s.lines| ==> s.lines[i].accountId in s.accounts && s.lines[i].journalEntryId in EntryIds(s.journal))
    && KeysUnique(s.journal)
    && (forall e :: LineSumEntry(s.lines, e) == 0)
    && TotalBalance(s.accounts) == 0
  }

  /** The empty database is consistent. */
  lemma EmptyIsConsistent()
    ensures Consistent(LedgerState(map[], [], []))
  {
  }

  /** EXTERNAL and HOUSE are system accounts; no player account is. */
  lemma {:induction false} SystemAccountsExempt(playerId: string, balance: Money, version: nat)
    ensures IsSys(Account(External, balance, version)) && IsSys(Account(House, balance, version))
    ensures !IsSys(Account(GetAccountId(playerId), balance, version))
  {
    SystemAccountIds();
    PlayerAccountIsNotSystem(playerId);
  }
}
