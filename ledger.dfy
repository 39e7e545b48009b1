/** The ledger engine of the accounting service: a transfer validates its
    legs, applies them one by one to the accounts it reads (creating missing
    accounts at balance 0), and commits one journal entry plus one line per
    leg, or returns an error code and commits nothing.

    A transfer is modelled in two steps. `Prepare` is everything up to the
    save: it reads the stored accounts and stages the writes. `Committed` is
    the save: a compare-and-swap on the row versions of the accounts it
    updates, followed by the unique-key checks of the database. `Transfer`
    runs both against the same state. */
module LedgerEngine {
  import opened Wrappers
  import opened Text
  import opened LedgerAccounts
  import opened PayDb

  const NonZeroSum: string := "NON_ZERO_SUM"
  const InvalidLegs: string := "INVALID_LEGS"
  const InsufficientFundsPrefix: string := "INSUFFICIENT_FUNDS_"
  const ConcurrencyConflict: string := "CONCURRENCY_CONFLICT"
  const IdempotentReplay: string := "IDEMPOTENT_REPLAY"
  const FatalErrorPrefix: string := "FATAL_ERROR: "

  /** The version a stored row has, or 0 for a row about to be created. */
  function VersionOf(stored: map<string, Account>, id: string): nat
  {
    if id in stored then stored[id].version else 0
  }

  /** The row this transfer already tracks, else the stored row, else a new
      row at balance 0. */
  function GetOrCreateAccount(stored: map<string, Account>, tracked: map<string, Account>, id: string): Account
  {
    if id in tracked then tracked[id] else if id in stored then stored[id] else Account(id, 0, 0)
  }

  /** The rows a transfer tracks after applying some legs, with the lines
      staged so far, or the account that a leg left negative. */
  datatype Applied = Applied(tracked: map<string, Account>, lines: seq<LedgerLine>) | Insufficient(accountId: string)

  /** One iteration of the leg loop: look the account up (or create it),
      add the amount, stop if a non-system account went negative, else stage
      the line. A failure is final. */
  function Step(stored: map<string, Account>, r: Applied, leg: TxLeg, entryId: string): Applied
  {
    match r
    case Insufficient(_) => r
    case Applied(tracked, lines) =>
      var account := GetOrCreateAccount(stored, tracked, leg.accountId);
      var moved := account.(balance := account.balance + leg.amount);
      if moved.balance < 0 && !IsSys(moved) then Insufficient(moved.id)
      else Applied(tracked[leg.accountId := moved], lines + [LedgerLine(entryId, moved.id, leg.amount)])
  }

  /** The leg loop: the legs are applied one at a time, in order. */
  function ApplyLegs(stored: map<string, Account>, legs: seq<TxLeg>, entryId: string): Applied
    decreases |legs|
  {
    if legs == [] then Applied(map[], [])
    else Step(stored, ApplyLegs(stored, legs[..|legs| - 1], entryId), legs[|legs| - 1], entryId)
  }

  /** Leg `k` is the one that leaves its account negative: a non-system
      account whose stored balance plus the legs up to and including `k`
      is below zero. */
  predicate FailsAt(stored: map<string, Account>, legs: seq<TxLeg>, k: int)
  {
    && 0 <= k < |legs|
    && !StartsWith(legs[k].accountId, SysPrefix)
    && BalanceOf(stored, legs[k].accountId) + LegSumFor(legs[..k + 1], legs[k].accountId) < 0
  }

  /** The tracked rows after `legs`: looking any account up gives its stored
      balance (0 if missing) plus what the legs moved on it, under its stored
      version. */
  ghost predicate Tracks(stored: map<string, Account>, legs: seq<TxLeg>, tracked: map<string, Account>)
  {
    forall id :: GetOrCreateAccount(stored, tracked, id) == Account(id, BalanceOf(stored, id) + LegSumFor(legs, id), VersionOf(stored, id))
  }

  lemma LegIdsSnoc(legs: seq<TxLeg>)
    requires legs != []
    ensures LegIds(legs) == LegIds(legs[..|legs| - 1]) + {legs[|legs| - 1].accountId}
  {
    var p := legs[..|legs| - 1];
    forall x | x in LegIds(legs) ensures x in LegIds(p) + {legs[|legs| - 1].accountId} {
      var k :| 0 <= k < |legs| && legs[k].accountId == x;
      if k < |p| {
        assert p[k].accountId == x;
      }
    }
    forall x | x in LegIds(p) ensures x in LegIds(legs) {
      var k :| 0 <= k < |p| && p[k].accountId == x;
      assert legs[k].accountId == x;
    }
  }

  lemma FailsAtPrefix(stored: map<string, Account>, legs: seq<TxLeg>, n: nat, k: int)
    requires 0 <= k < n <= |legs|
    ensures FailsAt(stored, legs[..n], k) == FailsAt(stored, legs, k)
  {
    assert legs[..n][..k + 1] == legs[..k + 1];
  }

  lemma TracksNothing(stored: map<string, Account>)
    requires Keyed(stored)
    ensures Tracks(stored, [], map[])
  {
    forall id ensures GetOrCreateAccount(stored, map[], id) == Account(id, BalanceOf(stored, id), VersionOf(stored, id)) {
      if id in stored {
        assert stored[id].id == id;
      }
    }
  }

  /** One successful step keeps the tracked rows in step with the legs. */
  lemma StepTracks(stored: map<string, Account>, legs: seq<TxLeg>, tracked: map<string, Account>, lines: seq<LedgerLine>, entryId: string)
    requires legs != []
    requires Tracks(stored, legs[..|legs| - 1], tracked)
    requires Step(stored, Applied(tracked, lines), legs[|legs| - 1], entryId).Applied?
    ensures Tracks(stored, legs, Step(stored, Applied(tracked, lines), legs[|legs| - 1], entryId).tracked)
  {
    var p := legs[..|legs| - 1];
    var leg := legs[|legs| - 1];
    var t := Step(stored, Applied(tracked, lines), leg, entryId).tracked;
    forall id ensures GetOrCreateAccount(stored, t, id) == Account(id, BalanceOf(stored, id) + LegSumFor(legs, id), VersionOf(stored, id)) {
      assert GetOrCreateAccount(stored, tracked, id) == Account(id, BalanceOf(stored, id) + LegSumFor(p, id), VersionOf(stored, id));
    }
  }

  lemma {:induction false} ApplyLegsTracks(stored: map<string, Account>, legs: seq<TxLeg>, entryId: string)
    requires Keyed(stored)
    requires ApplyLegs(stored, legs, entryId).Applied?
    ensures Tracks(stored, legs, ApplyLegs(stored, legs, entryId).tracked)
    decreases |legs|
  {
    if legs == [] {
      TracksNothing(stored);
    } else {
      var p := legs[..|legs| - 1];
      ApplyLegsTracks(stored, p, entryId);
      var rp := ApplyLegs(stored, p, entryId);
      StepTracks(stored, legs, rp.tracked, rp.lines, entryId);
    }
  }

  /** When the legs apply, the tracked rows are exactly the accounts the
      legs name, no tracked player account is negative, and the staged lines
      are one per leg, in order. */
  lemma {:induction false} ApplyLegsShape(stored: map<string, Account>, legs: seq<TxLeg>, entryId: string)
    requires Keyed(stored)
    requires ApplyLegs(stored, legs, entryId).Applied?
    ensures ApplyLegs(stored, legs, entryId).tracked.Keys == LegIds(legs)
    ensures forall id :: id in ApplyLegs(stored, legs, entryId).tracked && !IsSys(ApplyLegs(stored, legs, entryId).tracked[id]) ==>
      ApplyLegs(stored, legs, entryId).tracked[id].balance >= 0
    ensures ApplyLegs(stored, legs, entryId).lines == LinesFor(entryId, legs)
    decreases |legs|
  {
    if legs != [] {
      var p := legs[..|legs| - 1];
      ApplyLegsShape(stored, p, entryId);
      ApplyLegsTracks(stored, p, entryId);
      LegIdsSnoc(legs);
      var rp := ApplyLegs(stored, p, entryId);
      var r := ApplyLegs(stored, legs, entryId);
      var leg := legs[|legs| - 1];
      assert GetOrCreateAccount(stored, rp.tracked, leg.accountId).id == leg.accountId;
      forall id | id in r.tracked && !IsSys(r.tracked[id]) ensures r.tracked[id].balance >= 0 {
        if id != leg.accountId {
          assert r.tracked[id] == rp.tracked[id];
        }
      }
    }
  }

  /** After legs that applied, the next leg fails exactly when it leaves
      its (player) account negative, and the error names that account. */
  lemma LastLegFails(stored: map<string, Account>, legs: seq<TxLeg>, entryId: string)
    requires Keyed(stored)
    requires legs != []
    requires ApplyLegs(stored, legs[..|legs| - 1], entryId).Applied?
    ensures ApplyLegs(stored, legs, entryId).Insufficient? <==> FailsAt(stored, legs, |legs| - 1)
    ensures ApplyLegs(stored, legs, entryId).Insufficient? ==> ApplyLegs(stored, legs, entryId) == Insufficient(legs[|legs| - 1].accountId)
  {
    var n := |legs|;
    var p := legs[..n - 1];
    ApplyLegsTracks(stored, p, entryId);
    var rp := ApplyLegs(stored, p, entryId);
    var id := legs[n - 1].accountId;
    assert GetOrCreateAccount(stored, rp.tracked, id) == Account(id, BalanceOf(stored, id) + LegSumFor(p, id), VersionOf(stored, id));
    assert legs[..n] == legs;
  }

  /** The legs fail exactly when some leg leaves a player account negative,
      and then the error names the account of the first such leg. */
  lemma {:induction false} ApplyLegsFailure(stored: map<string, Account>, legs: seq<TxLeg>, entryId: string)
    requires Keyed(stored)
    ensures ApplyLegs(stored, legs, entryId).Insufficient? <==> exists k :: FailsAt(stored, legs, k)
    ensures forall k :: FailsAt(stored, legs, k) && (forall j :: 0 <= j < k ==> !FailsAt(stored, legs, j)) ==>
      ApplyLegs(stored, legs, entryId) == Insufficient(legs[k].accountId)
    decreases |legs|
  {
    if legs != [] {
      var n := |legs|;
      var p := legs[..n - 1];
      ApplyLegsFailure(stored, p, entryId);
      forall k | 0 <= k < n - 1 ensures FailsAt(stored, p, k) == FailsAt(stored, legs, k) {
        FailsAtPrefix(stored, legs, n - 1, k);
      }
      if ApplyLegs(stored, p, entryId).Applied? {
        LastLegFails(stored, legs, entryId);
        assert forall k :: 0 <= k < n - 1 ==> !FailsAt(stored, p, k);
      } else {
        var k1 :| FailsAt(stored, p, k1);
        assert FailsAt(stored, legs, k1) && k1 < n - 1;
        forall k | FailsAt(stored, legs, k) && (forall j :: 0 <= j < k ==> !FailsAt(stored, legs, j))
          ensures ApplyLegs(stored, legs, entryId) == Insufficient(legs[k].accountId)
        {
          assert k <= k1;
          assert FailsAt(stored, p, k);
        }
      }
    }
  }

  /** The tracked view shows an account's balance as the lookup finds it
      (zero for an account that does not exist yet). */
  lemma ViewBalance(stored: map<string, Account>, tracked: map<string, Account>, id: string)
    ensures BalanceOf(stored + tracked, id) == GetOrCreateAccount(stored, tracked, id).balance
  {
    if id in tracked {
      assert (stored + tracked)[id] == tracked[id];
    } else if id in stored {
      assert (stored + tracked)[id] == stored[id];
    }
  }

  /** Moving one tracked account moves the total of the tracked view by the
      change of that account's balance. */
  lemma TotalAfterMove(stored: map<string, Account>, tracked: map<string, Account>, id: string, moved: Account)
    ensures TotalBalance(stored + tracked[id := moved])
      == TotalBalance(stored + tracked) - GetOrCreateAccount(stored, tracked, id).balance + moved.balance
  {
    ViewBalance(stored, tracked, id);
    MergeSet(stored, tracked, id, moved);
    TotalSet(stored + tracked, id, moved);
  }

  /** One successful step moves the total of the tracked view by the leg's amount. */
  lemma StepTotal(stored: map<string, Account>, tracked: map<string, Account>, lines: seq<LedgerLine>, leg: TxLeg, entryId: string)
    requires Step(stored, Applied(tracked, lines), leg, entryId).Applied?
    ensures TotalBalance(stored + Step(stored, Applied(tracked, lines), leg, entryId).tracked) == TotalBalance(stored + tracked) + leg.amount
  {
    var account := GetOrCreateAccount(stored, tracked, leg.accountId);
    var moved := account.(balance := account.balance + leg.amount);
    var after := Step(stored, Applied(tracked, lines), leg, entryId).tracked;
    assert after == tracked[leg.accountId := moved];
    TotalAfterMove(stored, tracked, leg.accountId, moved);
    assert stored + after == stored + tracked[leg.accountId := moved];
  }

  /** Applying the legs moves the total of the tracked view by the legs' sum. */
  lemma {:induction false} ApplyLegsTotal(stored: map<string, Account>, legs: seq<TxLeg>, entryId: string)
    requires ApplyLegs(stored, legs, entryId).Applied?
    ensures TotalBalance(stored + ApplyLegs(stored, legs, entryId).tracked) == TotalBalance(stored) + LegSum(legs)
    decreases |legs|
  {
    if legs == [] {
      assert stored + map[] == stored;
    } else {
      var p := legs[..|legs| - 1];
      ApplyLegsTotal(stored, p, entryId);
      var rp := ApplyLegs(stored, p, entryId);
      StepTotal(stored, rp.tracked, rp.lines, legs[|legs| - 1], entryId);
    }
  }

  // ---------------------------------------------------------------------------
  // Staging and committing

  /** What the save sends: the journal entry, inserts for the accounts that
      did not exist, and updates for the existing accounts whose balance
      changed, each checked against the row (and its version) as read. A
      tracked row whose balance ended where it started is not written. */
  datatype Staged = Staged(
    entry: JournalEntry,
    updated: map<string, Account>,
    created: set<string>,
    writes: map<string, Account>,
    lines: seq<LedgerLine>)

  function Stage(stored: map<string, Account>, entry: JournalEntry, tracked: map<string, Account>, lines: seq<LedgerLine>): Staged
  {
    Staged(
      entry,
      map id | id in tracked && id in stored && tracked[id].balance != stored[id].balance :: stored[id],
      set id | id in tracked && id !in stored,
      map id | id in tracked && (id !in stored || tracked[id].balance != stored[id].balance) :: tracked[id],
      lines)
  }

  /** Everything before the save: the two request checks, then the leg loop
      over the stored accounts. */
  function Prepare(stored: map<string, Account>, req: TxRequest, entryId: string, now: int): Result<Staged, string>
  {
    if LegSum(req.legs) != 0 then Failure(NonZeroSum)
    else if |req.legs| < 2 then Failure(InvalidLegs)
    else
      var entry := JournalEntry(entryId, req.idempotencyKey, req.reason, now);
      match ApplyLegs(stored, req.legs, entryId)
      case Insufficient(id) => Failure(InsufficientFundsPrefix + id)
      case Applied(tracked, lines) => Success(Stage(stored, entry, tracked, lines))
  }

  /** The row-version check fails: an account the save updates has been
      changed (or is gone) since it was read. */
  predicate Stale(accounts: map<string, Account>, st: Staged)
  {
    exists id :: id in st.updated && (id !in accounts || accounts[id].version != st.updated[id].version)
  }

  /** A unique constraint fails: the idempotency key is already used, or an
      account the save inserts has been inserted meanwhile. */
  predicate Duplicate(s: LedgerState, st: Staged)
  {
    st.entry.idempotencyKey in IdempotencyKeys(s.journal) || exists id :: id in st.created && id in s.accounts
  }

  /** The written rows with their new versions: an updated row moves past the
      version it was read at, an inserted row starts at 0. */
  function Bumped(st: Staged): map<string, Account>
  {
    map id | id in st.writes :: st.writes[id].(version := if id in st.updated then st.updated[id].version + 1 else 0)
  }

  /** The save and commit, against the database as it is now. Any failure
      rolls back, leaving `s` as it was. `fault` stands for any other
      exception the save raises. */
  function Committed(s: LedgerState, st: Staged, fault: Option<string>): (LedgerState, Option<string>)
  {
    if Stale(s.accounts, st) then (s, Some(ConcurrencyConflict))
    else if Duplicate(s, st) then (s, Some(IdempotentReplay))
    else if fault.Some? then (s, Some(FatalErrorPrefix + fault.value))
    else (LedgerState(s.accounts + Bumped(st), s.journal + [st.entry], s.lines + st.lines), None)
  }

  /** A whole transfer with nothing committed in between its read and its save. */
  function Transfer(s: LedgerState, req: TxRequest, entryId: string, now: int, fault: Option<string>): (LedgerState, Option<string>)
  {
    match Prepare(s.accounts, req, entryId, now)
    case Failure(e) => (s, Some(e))
    case Success(st) => Committed(s, st, fault)
  }

  /** The legs balance, there are at least two, and none leaves a player
      account negative. */
  predicate Admissible(stored: map<string, Account>, legs: seq<TxLeg>)
  {
    LegSum(legs) == 0 && |legs| >= 2 && forall k :: 0 <= k < |legs| ==> !FailsAt(stored, legs, k)
  }

  predicate FirstFailure(stored: map<string, Account>, legs: seq<TxLeg>, k: int)
  {
    FailsAt(stored, legs, k) && forall j :: 0 <= j < k ==> !FailsAt(stored, legs, j)
  }

  /** How the database evolves between a read and a later save: rows are
      never deleted, versions never go back, and a row whose version did not
      move did not change. */
  ghost predicate Evolved(before: map<string, Account>, after: map<string, Account>)
  {
    forall id :: id in before ==>
      && id in after
      && before[id].version <= after[id].version
      && (after[id].version == before[id].version ==> after[id] == before[id])
  }

  lemma EvolvedTransitive(a: map<string, Account>, b: map<string, Account>, c: map<string, Account>)
    requires Evolved(a, b) && Evolved(b, c)
    ensures Evolved(a, c)
  {
  }

  /** Each update carries the stored row as read, and is written; every
      written row that was stored is an update. */
  ghost predicate UpdatesAsRead(stored: map<string, Account>, st: Staged)
  {
    && (forall id :: id in st.updated ==> id in stored && st.updated[id] == stored[id] && id in st.writes)
    && (forall id :: id in st.writes && id in stored ==> id in st.updated)
    && (forall id :: id in st.updated ==> st.writes[id].balance != stored[id].balance)
  }

  /** The inserts are exactly the written accounts that were not stored. */
  ghost predicate InsertsMissing(stored: map<string, Account>, st: Staged)
  {
    forall id :: id in st.created <==> id in st.writes && id !in stored
  }

  /** Every written row is a named account, under its own id, holding its
      stored balance plus what the legs moved on it. */
  ghost predicate WritesMove(stored: map<string, Account>, legs: seq<TxLeg>, st: Staged)
  {
    forall id :: id in st.writes ==>
      && id in LegIds(legs)
      && st.writes[id].id == id
      && st.writes[id].balance == BalanceOf(stored, id) + LegSumFor(legs, id)
  }

  ghost predicate WritesNonNegative(st: Staged)
  {
    forall id :: id in st.writes && !IsSys(st.writes[id]) ==> st.writes[id].balance >= 0
  }

  /** An account that is not written is not moved, and if named, it exists. */
  ghost predicate UnwrittenUnmoved(stored: map<string, Account>, legs: seq<TxLeg>, st: Staged)
  {
    forall id :: id !in st.writes ==> LegSumFor(legs, id) == 0 && (id in LegIds(legs) ==> id in stored)
  }

  lemma StageRows(stored: map<string, Account>, entry: JournalEntry, tracked: map<string, Account>, lines: seq<LedgerLine>)
    ensures UpdatesAsRead(stored, Stage(stored, entry, tracked, lines))
    ensures InsertsMissing(stored, Stage(stored, entry, tracked, lines))
  {
  }

  lemma StageWrites(stored: map<string, Account>, legs: seq<TxLeg>, entry: JournalEntry, tracked: map<string, Account>, lines: seq<LedgerLine>)
    requires Tracks(stored, legs, tracked) && tracked.Keys == LegIds(legs)
    requires forall id :: id in tracked && !IsSys(tracked[id]) ==> tracked[id].balance >= 0
    ensures WritesMove(stored, legs, Stage(stored, entry, tracked, lines))
    ensures WritesNonNegative(Stage(stored, entry, tracked, lines))
  {
    var st := Stage(stored, entry, tracked, lines);
    forall id | id in st.writes ensures st.writes[id] == Account(id, BalanceOf(stored, id) + LegSumFor(legs, id), VersionOf(stored, id)) {
      assert GetOrCreateAccount(stored, tracked, id) == tracked[id];
    }
  }

  lemma StageUnwritten(stored: map<string, Account>, legs: seq<TxLeg>, entry: JournalEntry, tracked: map<string, Account>, lines: seq<LedgerLine>)
    requires Tracks(stored, legs, tracked) && tracked.Keys == LegIds(legs)
    ensures UnwrittenUnmoved(stored, legs, Stage(stored, entry, tracked, lines))
  {
    var st := Stage(stored, entry, tracked, lines);
    forall id | id !in st.writes ensures LegSumFor(legs, id) == 0 && (id in LegIds(legs) ==> id in stored) {
      if id in tracked {
        assert GetOrCreateAccount(stored, tracked, id) == tracked[id];
        assert tracked[id].balance == BalanceOf(stored, id) + LegSumFor(legs, id);
      } else {
        LegSumForUntouched(legs, id);
      }
    }
  }

  lemma StageTotal(stored: map<string, Account>, legs: seq<TxLeg>, entry: JournalEntry, tracked: map<string, Account>, lines: seq<LedgerLine>)
    requires tracked.Keys == LegIds(legs)
    requires UnwrittenUnmoved(stored, legs, Stage(stored, entry, tracked, lines))
    ensures TotalBalance(stored + Stage(stored, entry, tracked, lines).writes) == TotalBalance(stored + tracked)
  {
    var st := Stage(stored, entry, tracked, lines);
    var viewW, viewT := stored + st.writes, stored + tracked;
    assert viewW.Keys == viewT.Keys;
    TotalSameBalances(viewW, viewT);
  }

  /** What a staged save contains, in terms of the stored accounts and the
      legs: the request passed its checks; the entry and lines are the
      request's; an insert for every named account that did not exist; an
      update for every existing account whose balance the legs change,
      carrying the row as read; every written row holds its stored balance
      plus what the legs moved, and no written player row is negative; an
      account not written is not moved; and the written rows leave the total
      unchanged. */
  lemma {:induction false} StageFacts(stored: map<string, Account>, req: TxRequest, entryId: string, now: int)
    requires Keyed(stored)
    requires Prepare(stored, req, entryId, now).Success?
    ensures Admissible(stored, req.legs)
    ensures Prepare(stored, req, entryId, now).value.entry == JournalEntry(entryId, req.idempotencyKey, req.reason, now)
    ensures Prepare(stored, req, entryId, now).value.lines == LinesFor(entryId, req.legs)
    ensures UpdatesAsRead(stored, Prepare(stored, req, entryId, now).value)
    ensures InsertsMissing(stored, Prepare(stored, req, entryId, now).value)
    ensures WritesMove(stored, req.legs, Prepare(stored, req, entryId, now).value)
    ensures WritesNonNegative(Prepare(stored, req, entryId, now).value)
    ensures UnwrittenUnmoved(stored, req.legs, Prepare(stored, req, entryId, now).value)
    ensures TotalBalance(stored + Prepare(stored, req, entryId, now).value.writes) == TotalBalance(stored)
  {
    var legs := req.legs;
    var entry := JournalEntry(entryId, req.idempotencyKey, req.reason, now);
    ApplyLegsFailure(stored, legs, entryId);
    var r := ApplyLegs(stored, legs, entryId);
    ApplyLegsShape(stored, legs, entryId);
    ApplyLegsTracks(stored, legs, entryId);
    ApplyLegsTotal(stored, legs, entryId);
    assert Prepare(stored, req, entryId, now).value == Stage(stored, entry, r.tracked, r.lines);
    StageRows(stored, entry, r.tracked, r.lines);
    StageWrites(stored, legs, entry, r.tracked, r.lines);
    StageUnwritten(stored, legs, entry, r.tracked, r.lines);
    StageTotal(stored, legs, entry, r.tracked, r.lines);
  }

  /** An admissible request always stages. */
  lemma AdmissiblePrepares(stored: map<string, Account>, req: TxRequest, entryId: string, now: int)
    requires Keyed(stored)
    ensures Prepare(stored, req, entryId, now).Success? <==> Admissible(stored, req.legs)
  {
    ApplyLegsFailure(stored, req.legs, entryId);
  }

  /** A save over rows that are still as read: each written account's
      current balance is the one the transfer read. */
  lemma WritesCurrent(stored: map<string, Account>, cur: LedgerState, st: Staged)
    requires Evolved(stored, cur.accounts)
    requires UpdatesAsRead(stored, st) && InsertsMissing(stored, st)
    requires !Stale(cur.accounts, st) && !Duplicate(cur, st)
    ensures forall id :: id in st.writes ==> BalanceOf(cur.accounts, id) == BalanceOf(stored, id)
    ensures forall id :: id in st.writes ==> (id in cur.accounts <==> id in st.updated)
  {
    forall id | id in st.writes ensures BalanceOf(cur.accounts, id) == BalanceOf(stored, id) && (id in cur.accounts <==> id in st.updated) {
      if id in st.updated {
        assert cur.accounts[id].version == stored[id].version;
      } else {
        assert id in st.created;
      }
    }
  }

  /** The save succeeds exactly when no check fails, and then it writes the
      staged rows, the entry and the lines. */
  lemma CommitOutcome(cur: LedgerState, st: Staged, fault: Option<string>)
    ensures Committed(cur, st, fault).1 == None <==> !Stale(cur.accounts, st) && !Duplicate(cur, st) && fault == None
    ensures Committed(cur, st, fault).1 == None ==>
      Committed(cur, st, fault).0 == LedgerState(cur.accounts + Bumped(st), cur.journal + [st.entry], cur.lines + st.lines)
    ensures Committed(cur, st, fault).1 != None ==> Committed(cur, st, fault).0 == cur
  {
  }

  /** A successful save of a staged transfer over rows still as read adds
      the accounts the legs name, and moves every account's balance by
      exactly what the legs move on it. */
  lemma CommittedBalances(stored: map<string, Account>, cur: LedgerState, legs: seq<TxLeg>, st: Staged, fault: Option<string>)
    requires Evolved(stored, cur.accounts)
    requires UpdatesAsRead(stored, st) && InsertsMissing(stored, st)
    requires WritesMove(stored, legs, st) && UnwrittenUnmoved(stored, legs, st)
    requires Committed(cur, st, fault).1 == None
    ensures Committed(cur, st, fault).0.accounts.Keys == cur.accounts.Keys + LegIds(legs)
    ensures forall id :: BalanceOf(Committed(cur, st, fault).0.accounts, id) == BalanceOf(cur.accounts, id) + LegSumFor(legs, id)
  {
    CommitOutcome(cur, st, fault);
    WritesCurrent(stored, cur, st);
    var after := cur.accounts + Bumped(st);
    forall id ensures BalanceOf(after, id) == BalanceOf(cur.accounts, id) + LegSumFor(legs, id) {
      if id in st.writes {
        assert after[id].balance == st.writes[id].balance;
      }
    }
  }

  /** New versions do not change the total. */
  lemma BumpedTotal(m: map<string, Account>, st: Staged)
    ensures TotalBalance(m + Bumped(st)) == TotalBalance(m + st.writes)
  {
    var viewB, viewW := m + Bumped(st), m + st.writes;
    assert viewB.Keys == viewW.Keys;
    forall id | id in viewB ensures viewB[id].balance == viewW[id].balance {
    }
    TotalSameBalances(viewB, viewW);
  }

  /** The committed rows add up to what they did before the save. */
  lemma CommittedTotal(stored: map<string, Account>, cur: LedgerState, st: Staged, fault: Option<string>)
    requires Evolved(stored, cur.accounts)
    requires UpdatesAsRead(stored, st) && InsertsMissing(stored, st)
    requires TotalBalance(stored + st.writes) == TotalBalance(stored)
    requires Committed(cur, st, fault).1 == None
    ensures TotalBalance(Committed(cur, st, fault).0.accounts) == TotalBalance(cur.accounts)
  {
    CommitOutcome(cur, st, fault);
    WritesCurrent(stored, cur, st);
    BumpedTotal(cur.accounts, st);
    TotalOverrideDelta(cur.accounts, stored, st.writes);
  }

  /** A save that succeeds moves every updated row past the version it had. */
  lemma CommittedEvolves(stored: map<string, Account>, cur: LedgerState, st: Staged, fault: Option<string>)
    requires Evolved(stored, cur.accounts)
    requires UpdatesAsRead(stored, st) && InsertsMissing(stored, st)
    ensures Evolved(cur.accounts, Committed(cur, st, fault).0.accounts)
  {
    CommitOutcome(cur, st, fault);
    if Committed(cur, st, fault).1 == None {
      WritesCurrent(stored, cur, st);
    }
  }

  // ---------------------------------------------------------------------------
  // The invariant across a save

  /** The facts about a staged transfer that the save relies on. */
  ghost predicate WellStaged(stored: map<string, Account>, legs: seq<TxLeg>, st: Staged)
  {
    && LegSum(legs) == 0
    && st.lines == LinesFor(st.entry.id, legs)
    && UpdatesAsRead(stored, st)
    && InsertsMissing(stored, st)
    && WritesMove(stored, legs, st)
    && WritesNonNegative(st)
    && UnwrittenUnmoved(stored, legs, st)
    && TotalBalance(stored + st.writes) == TotalBalance(stored)
  }

  lemma PreparedIsWellStaged(stored: map<string, Account>, req: TxRequest, entryId: string, now: int)
    requires Keyed(stored)
    requires Prepare(stored, req, entryId, now).Success?
    ensures WellStaged(stored, req.legs, Prepare(stored, req, entryId, now).value)
  {
    StageFacts(stored, req, entryId, now);
  }

  lemma SaveKeepsRows(stored: map<string, Account>, cur: LedgerState, legs: seq<TxLeg>, st: Staged, fault: Option<string>)
    requires Consistent(cur) && WellStaged(stored, legs, st)
    requires Committed(cur, st, fault).1 == None
    ensures Keyed(Committed(cur, st, fault).0.accounts)
    ensures forall id :: id in Committed(cur, st, fault).0.accounts && !IsSys(Committed(cur, st, fault).0.accounts[id]) ==>
      Committed(cur, st, fault).0.accounts[id].balance >= 0
  {
    CommitOutcome(cur, st, fault);
    var after := cur.accounts + Bumped(st);
    forall id | id in after ensures after[id].id == id && (!IsSys(after[id]) ==> after[id].balance >= 0) {
      if id in st.writes {
        assert after[id].id == st.writes[id].id && after[id].balance == st.writes[id].balance;
      }
    }
  }

  lemma SaveKeepsLineSums(stored: map<string, Account>, cur: LedgerState, legs: seq<TxLeg>, st: Staged, fault: Option<string>)
    requires Consistent(cur) && WellStaged(stored, legs, st) && Evolved(stored, cur.accounts)
    requires Committed(cur, st, fault).1 == None
    ensures forall id :: id in Committed(cur, st, fault).0.accounts ==>
      Committed(cur, st, fault).0.accounts[id].balance == LineSumFor(Committed(cur, st, fault).0.lines, id)
    ensures forall e :: LineSumEntry(Committed(cur, st, fault).0.lines, e) == 0
  {
    SaveKeepsBalanceSums(stored, cur, legs, st, fault);
    SaveKeepsEntrySums(stored, cur, legs, st, fault);
  }

  lemma SaveKeepsBalanceSums(stored: map<string, Account>, cur: LedgerState, legs: seq<TxLeg>, st: Staged, fault: Option<string>)
    requires Consistent(cur) && WellStaged(stored, legs, st) && Evolved(stored, cur.accounts)
    requires Committed(cur, st, fault).1 == None
    ensures forall id :: id in Committed(cur, st, fault).0.accounts ==>
      Committed(cur, st, fault).0.accounts[id].balance == LineSumFor(Committed(cur, st, fault).0.lines, id)
  {
    CommitOutcome(cur, st, fault);
    CommittedBalances(stored, cur, legs, st, fault);
    var after := Committed(cur, st, fault).0;
    assert after.lines == cur.lines + st.lines;
    forall id | id in after.accounts ensures after.accounts[id].balance == LineSumFor(after.lines, id) {
      BalanceSumAt(cur.accounts, cur.lines, after.accounts, st.entry.id, legs, id);
    }
  }

  /** One account after a save: its old line sum (nothing, for an account
      no line named) plus what the transfer's lines move on it. */
  lemma BalanceSumAt(accounts: map<string, Account>, lines: seq<LedgerLine>, after: map<string, Account>,
                     entryId: string, legs: seq<TxLeg>, id: string)
    requires id in after && BalanceOf(after, id) == BalanceOf(accounts, id) + LegSumFor(legs, id)
    requires id in accounts ==> accounts[id].balance == LineSumFor(lines, id)
    requires forall i :: 0 <= i < |lines| ==> lines[i].accountId in accounts
    ensures after[id].balance == LineSumFor(lines + LinesFor(entryId, legs), id)
  {
    LineSumsAppend(lines, LinesFor(entryId, legs), id);
    LinesForSums(entryId, legs, id);
    if id !in accounts {
      LineSumForUnreferenced(lines, id);
    }
  }

  lemma SaveKeepsEntrySums(stored: map<string, Account>, cur: LedgerState, legs: seq<TxLeg>, st: Staged, fault: Option<string>)
    requires Consistent(cur) && WellStaged(stored, legs, st)
    requires Committed(cur, st, fault).1 == None
    ensures forall e :: LineSumEntry(Committed(cur, st, fault).0.lines, e) == 0
  {
    CommitOutcome(cur, st, fault);
    var after := Committed(cur, st, fault).0;
    forall e ensures LineSumEntry(after.lines, e) == 0 {
      LineSumsAppend(cur.lines, st.lines, e);
      LinesForSums(st.entry.id, legs, e);
    }
  }

  lemma SaveKeepsReferences(stored: map<string, Account>, cur: LedgerState, legs: seq<TxLeg>, st: Staged, fault: Option<string>)
    requires Consistent(cur) && WellStaged(stored, legs, st) && Evolved(stored, cur.accounts)
    requires Committed(cur, st, fault).1 == None
    ensures forall i :: 0 <= i < |Committed(cur, st, fault).0.lines| ==>
      && Committed(cur, st, fault).0.lines[i].accountId in Committed(cur, st, fault).0.accounts
      && Committed(cur, st, fault).0.lines[i].journalEntryId in EntryIds(Committed(cur, st, fault).0.journal)
    ensures KeysUnique(Committed(cur, st, fault).0.journal)
  {
    CommitOutcome(cur, st, fault);
    CommittedBalances(stored, cur, legs, st, fault);
    var after := Committed(cur, st, fault).0;
    EntryIdsAppend(cur.journal, st.entry);
    forall i | 0 <= i < |after.lines|
      ensures after.lines[i].accountId in after.accounts && after.lines[i].journalEntryId in EntryIds(after.journal)
    {
      if i < |cur.lines| {
        assert after.lines[i] == cur.lines[i];
      } else {
        var k := i - |cur.lines|;
        assert after.lines[i] == st.lines[k] == LedgerLine(st.entry.id, legs[k].accountId, legs[k].amount);
        assert legs[k].accountId in LegIds(legs);
      }
    }
    assert st.entry.idempotencyKey !in IdempotencyKeys(cur.journal);
    KeysUniqueAppend(cur.journal, st.entry);
  }

  /** A save of a transfer staged against an earlier state of the database
      keeps the database consistent, whatever was committed in between. */
  lemma {:induction false} SaveKeepsConsistent(stored: map<string, Account>, cur: LedgerState, legs: seq<TxLeg>, st: Staged, fault: Option<string>)
    requires Consistent(cur) && WellStaged(stored, legs, st) && Evolved(stored, cur.accounts)
    ensures Consistent(Committed(cur, st, fault).0)
  {
    CommitOutcome(cur, st, fault);
    if Committed(cur, st, fault).1 == None {
      SaveKeepsRows(stored, cur, legs, st, fault);
      SaveKeepsLineSums(stored, cur, legs, st, fault);
      SaveKeepsReferences(stored, cur, legs, st, fault);
      CommittedTotal(stored, cur, st, fault);
    }
  }

  // ---------------------------------------------------------------------------
  // Whole transfers

  lemma EvolvedReflexive(m: map<string, Account>)
    ensures Evolved(m, m)
  {
  }

  /** A leg that failed stays failed: the remaining legs are not applied. */
  lemma {:induction false} InsufficientIsFinal(stored: map<string, Account>, legs: seq<TxLeg>, n: nat, entryId: string)
    requires n <= |legs|
    requires ApplyLegs(stored, legs[..n], entryId).Insufficient?
    ensures ApplyLegs(stored, legs, entryId) == ApplyLegs(stored, legs[..n], entryId)
    decreases |legs| - n
  {
    if n < |legs| {
      assert legs[..n + 1][..n] == legs[..n];
      InsufficientIsFinal(stored, legs, n + 1, entryId);
    } else {
      assert legs[..n] == legs;
    }
  }

  /** Legs that do not sum to zero are refused first, and nothing changes. */
  lemma TransferRejectsNonZeroSum(s: LedgerState, req: TxRequest, entryId: string, now: int, fault: Option<string>)
    requires LegSum(req.legs) != 0
    ensures Transfer(s, req, entryId, now, fault) == (s, Some(NonZeroSum))
  {
  }

  /** Balanced requests with fewer than two legs (none included) are refused, and nothing changes. */
  lemma TransferRejectsTooFewLegs(s: LedgerState, req: TxRequest, entryId: string, now: int, fault: Option<string>)
    requires LegSum(req.legs) == 0 && |req.legs| < 2
    ensures Transfer(s, req, entryId, now, fault) == (s, Some(InvalidLegs))
  {
  }

  /** The first leg that leaves a player account negative refuses the
      transfer with that account's id, and nothing changes. */
  lemma TransferRejectsOverdraft(s: LedgerState, req: TxRequest, entryId: string, now: int, fault: Option<string>, k: int)
    requires Keyed(s.accounts)
    requires LegSum(req.legs) == 0 && |req.legs| >= 2
    requires FirstFailure(s.accounts, req.legs, k)
    ensures Transfer(s, req, entryId, now, fault) == (s, Some(InsufficientFundsPrefix + req.legs[k].accountId))
  {
    ApplyLegsFailure(s.accounts, req.legs, entryId);
  }

  /** A transfer succeeds exactly when its legs are admissible, its key is
      new and the save raises nothing; a reused key is reported as a replay,
      a raised exception as a fatal error; a refused transfer changes nothing. */
  lemma TransferOutcome(s: LedgerState, req: TxRequest, entryId: string, now: int, fault: Option<string>)
    requires Keyed(s.accounts)
    ensures Transfer(s, req, entryId, now, fault).1 == None <==>
      Admissible(s.accounts, req.legs) && req.idempotencyKey !in IdempotencyKeys(s.journal) && fault == None
    ensures Transfer(s, req, entryId, now, fault).1 != None ==> Transfer(s, req, entryId, now, fault).0 == s
    ensures Admissible(s.accounts, req.legs) && req.idempotencyKey in IdempotencyKeys(s.journal) ==>
      Transfer(s, req, entryId, now, fault) == (s, Some(IdempotentReplay))
    ensures Admissible(s.accounts, req.legs) && req.idempotencyKey !in IdempotencyKeys(s.journal) && fault.Some? ==>
      Transfer(s, req, entryId, now, fault) == (s, Some(FatalErrorPrefix + fault.value))
  {
    AdmissiblePrepares(s.accounts, req, entryId, now);
    var p := Prepare(s.accounts, req, entryId, now);
    if p.Success? {
      StageFacts(s.accounts, req, entryId, now);
      CommitOutcome(s, p.value, fault);
      assert !Stale(s.accounts, p.value);
      assert Duplicate(s, p.value) <==> req.idempotencyKey in IdempotencyKeys(s.journal);
    }
  }

  /** A successful transfer appends one entry with the request's key and
      reason and one line per leg; creates the accounts it names; moves every
      account by exactly the sum of its legs; and keeps the total of all
      balances. */
  lemma TransferEffects(s: LedgerState, req: TxRequest, entryId: string, now: int, fault: Option<string>)
    requires Keyed(s.accounts)
    requires Transfer(s, req, entryId, now, fault).1 == None
    ensures Transfer(s, req, entryId, now, fault).0.journal == s.journal + [JournalEntry(entryId, req.idempotencyKey, req.reason, now)]
    ensures Transfer(s, req, entryId, now, fault).0.lines == s.lines + LinesFor(entryId, req.legs)
    ensures Transfer(s, req, entryId, now, fault).0.accounts.Keys == s.accounts.Keys + LegIds(req.legs)
    ensures forall id :: BalanceOf(Transfer(s, req, entryId, now, fault).0.accounts, id) == BalanceOf(s.accounts, id) + LegSumFor(req.legs, id)
    ensures TotalBalance(Transfer(s, req, entryId, now, fault).0.accounts) == TotalBalance(s.accounts)
  {
    var st := Prepare(s.accounts, req, entryId, now).value;
    StageFacts(s.accounts, req, entryId, now);
    PreparedIsWellStaged(s.accounts, req, entryId, now);
    EvolvedReflexive(s.accounts);
    CommitOutcome(s, st, fault);
    CommittedBalances(s.accounts, s, req.legs, st, fault);
    CommittedTotal(s.accounts, s, st, fault);
  }

  /** Every transfer, successful or not, leaves a consistent database consistent. */
  lemma TransferKeepsConsistent(s: LedgerState, req: TxRequest, entryId: string, now: int, fault: Option<string>)
    requires Consistent(s)
    ensures Consistent(Transfer(s, req, entryId, now, fault).0)
  {
    if Prepare(s.accounts, req, entryId, now).Success? {
      PreparedIsWellStaged(s.accounts, req, entryId, now);
      EvolvedReflexive(s.accounts);
      SaveKeepsConsistent(s.accounts, s, req.legs, Prepare(s.accounts, req, entryId, now).value, fault);
    }
  }

  /** Retrying a request whose key has been committed never applies it
      again: the database is unchanged, and a retry whose legs still pass is
      reported as a replay. */
  lemma RetryIsReplay(s: LedgerState, req: TxRequest, e1: string, t1: int, retry: TxRequest, e2: string, t2: int, fault: Option<string>)
    requires Consistent(s)
    requires Transfer(s, req, e1, t1, None).1 == None
    requires retry.idempotencyKey == req.idempotencyKey
    ensures var s1 := Transfer(s, req, e1, t1, None).0;
      && Transfer(s1, retry, e2, t2, fault).0 == s1
      && (Admissible(s1.accounts, retry.legs) ==> Transfer(s1, retry, e2, t2, fault).1 == Some(IdempotentReplay))
  {
    var s1 := Transfer(s, req, e1, t1, None).0;
    TransferEffects(s, req, e1, t1, None);
    TransferKeepsConsistent(s, req, e1, t1, None);
    assert s1.journal[|s.journal|].idempotencyKey == req.idempotencyKey;
    assert req.idempotencyKey in IdempotencyKeys(s1.journal);
    TransferOutcome(s1, retry, e2, t2, fault);
  }

  /** Two transfers staged against the same database that both change an
      existing account cannot both commit: once the first is saved, the
      second's row-version check fails. */
  lemma RacingTransfersConflict(s: LedgerState, req1: TxRequest, e1: string, t1: int, f1: Option<string>,
                                req2: TxRequest, e2: string, t2: int, f2: Option<string>, id: string)
    requires Keyed(s.accounts)
    requires Prepare(s.accounts, req1, e1, t1).Success? && Prepare(s.accounts, req2, e2, t2).Success?
    requires id in s.accounts && LegSumFor(req1.legs, id) != 0 && LegSumFor(req2.legs, id) != 0
    requires Committed(s, Prepare(s.accounts, req1, e1, t1).value, f1).1 == None
    ensures var s1 := Committed(s, Prepare(s.accounts, req1, e1, t1).value, f1).0;
      Committed(s1, Prepare(s.accounts, req2, e2, t2).value, f2) == (s1, Some(ConcurrencyConflict))
  {
    var st1, st2 := Prepare(s.accounts, req1, e1, t1).value, Prepare(s.accounts, req2, e2, t2).value;
    StageFacts(s.accounts, req1, e1, t1);
    StageFacts(s.accounts, req2, e2, t2);
    CommitOutcome(s, st1, f1);
    assert id in st1.updated && id in st2.updated;
    var s1 := Committed(s, st1, f1).0;
    assert s1.accounts[id].version == s.accounts[id].version + 1;
    assert Stale(s1.accounts, st2);
  }

  lemma CreationClash(s: LedgerState, legs1: seq<TxLeg>, st1: Staged, f1: Option<string>,
                      legs2: seq<TxLeg>, st2: Staged, f2: Option<string>, id: string)
    requires UpdatesAsRead(s.accounts, st1) && WritesMove(s.accounts, legs1, st1) && UnwrittenUnmoved(s.accounts, legs1, st1)
    requires UpdatesAsRead(s.accounts, st2) && InsertsMissing(s.accounts, st2) && WritesMove(s.accounts, legs2, st2) && UnwrittenUnmoved(s.accounts, legs2, st2)
    requires id !in s.accounts && id in LegIds(legs1) && id in LegIds(legs2)
    requires forall x :: x in s.accounts ==> LegSumFor(legs1, x) == 0 || LegSumFor(legs2, x) == 0
    requires Committed(s, st1, f1).1 == None
    ensures Committed(Committed(s, st1, f1).0, st2, f2) == (Committed(s, st1, f1).0, Some(IdempotentReplay))
  {
    CommitOutcome(s, st1, f1);
    var s1 := Committed(s, st1, f1).0;
    assert s1.accounts == s.accounts + Bumped(st1);
    forall x | x in st2.updated ensures x in s1.accounts && s1.accounts[x].version == st2.updated[x].version {
      assert LegSumFor(legs2, x) != 0;
    }
    assert !Stale(s1.accounts, st2);
    assert id in st1.writes && id in st2.created;
    assert Duplicate(s1, st2);
  }

  /** Two transfers that both create the same account and change no existing
      account in common: after the first is saved, the second's insert hits
      the primary key, which the ledger reports as a replay even though the
      keys differ. */
  lemma RacingCreationsReportReplay(s: LedgerState, req1: TxRequest, e1: string, t1: int, f1: Option<string>,
                                    req2: TxRequest, e2: string, t2: int, f2: Option<string>, id: string)
    requires Keyed(s.accounts)
    requires Prepare(s.accounts, req1, e1, t1).Success? && Prepare(s.accounts, req2, e2, t2).Success?
    requires id !in s.accounts && id in LegIds(req1.legs) && id in LegIds(req2.legs)
    requires forall x :: x in s.accounts ==> LegSumFor(req1.legs, x) == 0 || LegSumFor(req2.legs, x) == 0
    requires Committed(s, Prepare(s.accounts, req1, e1, t1).value, f1).1 == None
    ensures var s1 := Committed(s, Prepare(s.accounts, req1, e1, t1).value, f1).0;
      Committed(s1, Prepare(s.accounts, req2, e2, t2).value, f2) == (s1, Some(IdempotentReplay))
  {
    PreparedIsWellStaged(s.accounts, req1, e1, t1);
    PreparedIsWellStaged(s.accounts, req2, e2, t2);
    CreationClash(s, req1.legs, Prepare(s.accounts, req1, e1, t1).value, f1, req2.legs, Prepare(s.accounts, req2, e2, t2).value, f2, id);
  }

  /** In a consistent database every balance, that of a missing account
      included, is what the ledger lines record for it. */
  lemma RecordedBalance(s: LedgerState, id: string)
    ensures Consistent(s) ==> BalanceOf(s.accounts, id) == LineSumFor(s.lines, id)
  {
    if Consistent(s) && id !in s.accounts {
      LineSumForUnreferenced(s.lines, id);
    }
  }

  // ---------------------------------------------------------------------------
  // The ledger service over its database

  class Ledger {
    var accounts: map<string, Account>
    var journal: seq<JournalEntry>
    var lines: seq<LedgerLine>

    function State(): LedgerState
      reads this
    {
      LedgerState(accounts, journal, lines)
    }

    /** An empty database. */
    constructor()
      ensures State() == LedgerState(map[], [], [])
      ensures Consistent(State())
    {
      accounts, journal, lines := map[], [], [];
    }

    /** The transfer up to the save: the two request checks, then the leg
        loop over the accounts as read, stopping at the first leg that leaves
        a player account negative. Nothing is written. */
    method Begin(req: TxRequest, entryId: string, now: int) returns (r: Result<Staged, string>)
      ensures r == Prepare(accounts, req, entryId, now)
    {
      if LegSum(req.legs) != 0 {
        return Failure(NonZeroSum);
      }
      if |req.legs| < 2 {
        return Failure(InvalidLegs);
      }
      var entry := JournalEntry(entryId, req.idempotencyKey, req.reason, now);
      var tracked: map<string, Account> := map[];
      var staged: seq<LedgerLine> := [];
      var i := 0;
      while i < |req.legs|
        invariant 0 <= i <= |req.legs|
        invariant ApplyLegs(accounts, req.legs[..i], entryId) == Applied(tracked, staged)
      {
        var leg := req.legs[i];
        var account := GetOrCreateAccount(accounts, tracked, leg.accountId);
        account := account.(balance := account.balance + leg.amount);
        assert req.legs[..i + 1][..i] == req.legs[..i];
        if account.balance < 0 && !IsSys(account) {
          InsufficientIsFinal(accounts, req.legs, i + 1, entryId);
          return Failure(InsufficientFundsPrefix + account.id);
        }
        tracked := tracked[leg.accountId := account];
        staged := staged + [LedgerLine(entryId, account.id, leg.amount)];
        i := i + 1;
      }
      assert req.legs[..i] == req.legs;
      return Success(Stage(accounts, entry, tracked, staged));
    }

    /** The save: the row-version check on every updated account, then the
        unique constraints, then any other failure; all of them roll back. */
    method Commit(st: Staged, fault: Option<string>) returns (error: Option<string>)
      modifies this
      ensures (State(), error) == Committed(old(State()), st, fault)
    {
      if Stale(accounts, st) {
        return Some(ConcurrencyConflict);
      }
      if Duplicate(State(), st) {
        return Some(IdempotentReplay);
      }
      if fault.Some? {
        return Some(FatalErrorPrefix + fault.value);
      }
      accounts := accounts + Bumped(st);
      journal := journal + [st.entry];
      lines := lines + st.lines;
      error := None;
    }

    /** A whole transfer: `None` on success, else the error code. */
    method ExecuteTransfer(req: TxRequest, entryId: string, now: int, fault: Option<string>) returns (error: Option<string>)
      modifies this
      ensures (State(), error) == Transfer(old(State()), req, entryId, now, fault)
      ensures Consistent(old(State())) ==> Consistent(State())
    {
      ghost var before := State();
      var staged := Begin(req, entryId, now);
      if staged.Failure? {
        error := Some(staged.error);
      } else {
        error := Commit(staged.value, fault);
      }
      if Consistent(before) {
        TransferKeepsConsistent(before, req, entryId, now, fault);
      }
    }

    /** The stored balance of an account, 0 if it was never created; in a
        consistent database, exactly what the ledger lines record for it. */
    function GetBalance(accountId: string): (balance: Money)
      reads this
      ensures accountId !in accounts ==> balance == 0
      ensures Consistent(State()) ==> balance == LineSumFor(lines, accountId)
    {
      RecordedBalance(State(), accountId);
      if accountId in accounts then accounts[accountId].balance else 0
    }
  }
}
