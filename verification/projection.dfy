/** Transactions over the database, and the counters kept beside the source
    records. A counter row that is missing is filled from history on first use,
    so every helper must run before the source rows it accounts for. */
module Projection {
  import opened Prelude
  import opened Sums
  import opened Rows
  import opened Totals
  import opened Outbox
  import opened Ledger

  /** The committed database. */
  class Repository {
    var history: History
    var cache: Cache

    ghost predicate Valid()
      reads this
    {
      Sound(history) && Tracks(cache, history, STILL)
    }

    constructor ()
      ensures Valid() && history == EMPTY_HISTORY && cache == EMPTY_CACHE
    {
      history := EMPTY_HISTORY;
      cache := EMPTY_CACHE;
      EmptySound();
    }

    method Commit(tx: Transaction)
      modifies this
      ensures history == tx.h && cache == tx.c
    {
      history := tx.h;
      cache := tx.c;
    }
  }

  /** A working copy. Dropping it without commit is the rollback. */
  class Transaction {
    var h: History
    var c: Cache

    constructor Begin(repo: Repository)
      ensures h == repo.history && c == repo.cache
    {
      h := repo.history;
      c := repo.cache;
    }
  }

  /** Counter rows are never dropped. */
  ghost predicate Grows(before: Cache, after: Cache) {
    && before.balances.Keys <= after.balances.Keys
    && before.holds.Keys <= after.holds.Keys
    && before.spend.Keys <= after.spend.Keys
  }

  // ---- lazy back-fill -----------------------------------------------------

  method AccountRow(tx: Transaction, id: Id, ghost d: Drift) returns (row: BalanceRow)
    requires Tracks(tx.c, tx.h, d)
    requires id !in tx.c.balances ==> Fits(Balance(tx.h, id)) && Fits(Held(tx.h, id))
    modifies tx
    ensures tx.h == old(tx.h) && Tracks(tx.c, tx.h, d) && Grows(old(tx.c), tx.c)
    ensures id in tx.c.balances && row == tx.c.balances[id]
  {
    if id in tx.c.balances {
      return tx.c.balances[id];
    }
    var booked := TotalSeq(tx.h.ledger, PostedTo(id, CustomerBalance));
    var held := Total(tx.h.reservations, HeldFor(id));
    row := BalanceRow(booked, held);
    tx.c := tx.c.(balances := tx.c.balances[id := row]);
  }

  method KeyHold(tx: Transaction, key: Id, ghost d: Drift) returns (held: I64)
    requires Tracks(tx.c, tx.h, d)
    requires key !in tx.c.holds ==> Fits(KeyHeld(tx.h, key))
    modifies tx
    ensures tx.h == old(tx.h) && Tracks(tx.c, tx.h, d) && Grows(old(tx.c), tx.c)
    ensures key in tx.c.holds && held == tx.c.holds[key]
  {
    if key in tx.c.holds {
      return tx.c.holds[key];
    }
    held := Total(tx.h.reservations, HeldByKey(key));
    tx.c := tx.c.(holds := tx.c.holds[key := held]);
  }

  method Monthly(tx: Transaction, key: Id, month: int, ghost d: Drift) returns (spent: I64)
    requires Tracks(tx.c, tx.h, d)
    requires (key, month) !in tx.c.spend ==> Fits(Spent(tx.h, key, month))
    modifies tx
    ensures tx.h == old(tx.h) && Tracks(tx.c, tx.h, d) && Grows(old(tx.c), tx.c)
    ensures (key, month) in tx.c.spend && spent == tx.c.spend[(key, month)]
  {
    if (key, month) in tx.c.spend {
      return tx.c.spend[(key, month)];
    }
    spent := Total(tx.h.usage, SpentBy(key, month));
    tx.c := tx.c.(spend := tx.c.spend[(key, month) := spent]);
  }

  // ---- incremental updates ------------------------------------------------

  /** The checked sum, unless it overflows or turns a hold or spend negative. */
  function Add(value: I64, delta: I64, nonnegative: bool): (r: Result<I64>)
    ensures r.Ok? <==> Fits(value + delta) && (nonnegative ==> 0 <= value + delta)
    ensures r.Ok? ==> r.value == value + delta
    ensures r.Err? ==> r.error == Internal
  {
    match CheckedAdd(value, delta)
    case Some(v) => if nonnegative && v < 0 then Err(Internal) else Ok(v)
    case None => Err(Internal)
  }

  method ChangeAccountHold(tx: Transaction, account: Id, delta: I64, ghost d: Drift) returns (r: Result<()>)
    requires Tracks(tx.c, tx.h, d) && d.account == account
    requires account !in tx.c.balances ==> Fits(Balance(tx.h, account)) && Fits(Held(tx.h, account))
    modifies tx
    ensures tx.h == old(tx.h)
    ensures r.Ok? <==> 0 <= Held(tx.h, account) + d.held + delta <= I64_MAX
    ensures r.Err? ==> r.error == Internal
    ensures r.Ok? ==> Tracks(tx.c, tx.h, d.(held := d.held + delta))
    ensures r.Ok? ==> Grows(old(tx.c), tx.c) && account in tx.c.balances
  {
    var row := AccountRow(tx, account, d);
    var amount :- Add(row.held, delta, true);
    tx.c := tx.c.(balances := tx.c.balances[account := row.(held := amount)]);
    return Ok(());
  }

  method ChangeKeyHold(tx: Transaction, key: Id, delta: I64, ghost d: Drift) returns (r: Result<()>)
    requires Tracks(tx.c, tx.h, d) && d.key == key
    requires key !in tx.c.holds ==> Fits(KeyHeld(tx.h, key))
    modifies tx
    ensures tx.h == old(tx.h)
    ensures r.Ok? <==> 0 <= KeyHeld(tx.h, key) + d.keyHeld + delta <= I64_MAX
    ensures r.Err? ==> r.error == Internal
    ensures r.Ok? ==> Tracks(tx.c, tx.h, d.(keyHeld := d.keyHeld + delta))
    ensures r.Ok? ==> Grows(old(tx.c), tx.c) && key in tx.c.holds
  {
    var held := KeyHold(tx, key, d);
    var amount :- Add(held, delta, true);
    tx.c := tx.c.(holds := tx.c.holds[key := amount]);
    return Ok(());
  }

  /** Moves the account's and the key's hold together. */
  method ChangeHold(tx: Transaction, account: Id, key: Id, delta: I64, ghost d: Drift) returns (r: Result<()>)
    requires Tracks(tx.c, tx.h, d) && d.account == account && d.key == key
    requires InRange(tx.h)
    modifies tx
    ensures tx.h == old(tx.h)
    ensures r.Ok? <==> (&& 0 <= Held(tx.h, account) + d.held + delta <= I64_MAX
                        && 0 <= KeyHeld(tx.h, key) + d.keyHeld + delta <= I64_MAX)
    ensures r.Err? ==> r.error == Internal
    ensures r.Ok? ==> Tracks(tx.c, tx.h, d.(held := d.held + delta, keyHeld := d.keyHeld + delta))
    ensures r.Ok? ==> Grows(old(tx.c), tx.c) && account in tx.c.balances && key in tx.c.holds
  {
    var _ :- ChangeAccountHold(tx, account, delta, d);
    var _ :- ChangeKeyHold(tx, key, delta, d.(held := d.held + delta));
    return Ok(());
  }

  method ChangeBalance(tx: Transaction, account: Id, delta: I64, ghost d: Drift) returns (r: Result<()>)
    requires Tracks(tx.c, tx.h, d) && d.account == account
    requires account !in tx.c.balances ==> Fits(Balance(tx.h, account)) && Fits(Held(tx.h, account))
    modifies tx
    ensures tx.h == old(tx.h)
    ensures r.Ok? <==> Fits(Balance(tx.h, account) + d.balance + delta)
    ensures r.Err? ==> r.error == Internal
    ensures r.Ok? ==> Tracks(tx.c, tx.h, d.(balance := d.balance + delta))
    ensures r.Ok? ==> Grows(old(tx.c), tx.c) && account in tx.c.balances
  {
    var row := AccountRow(tx, account, d);
    var amount :- Add(row.balance, delta, false);
    tx.c := tx.c.(balances := tx.c.balances[account := row.(balance := amount)]);
    return Ok(());
  }

  /** `spent` is the counter read before the usage row was inserted. */
  method ChangeSpend(tx: Transaction, key: Id, month: int, spent: I64, delta: I64, ghost d: Drift)
    returns (r: Result<()>)
    requires Tracks(tx.c, tx.h, d) && d.key == key && d.month == month
    requires (key, month) in tx.c.spend && tx.c.spend[(key, month)] == spent
    modifies tx
    ensures tx.h == old(tx.h)
    ensures r.Ok? <==> 0 <= spent + delta <= I64_MAX
    ensures r.Err? ==> r.error == Internal
    ensures r.Ok? ==> Tracks(tx.c, tx.h, d.(spent := d.spent + delta)) && Grows(old(tx.c), tx.c)
  {
    var amount :- Add(spent, delta, true);
    tx.c := tx.c.(spend := tx.c.spend[(key, month) := amount]);
    return Ok(());
  }

  // ---- outbox and ledger --------------------------------------------------

  /** Allocates the next sequence of the account and wakes its worker job. */
  method AppendEvent(tx: Transaction, account: Id, e: Event, now: Instant) returns (r: Result<()>)
    modifies tx
    ensures tx.c == old(tx.c)
    ensures match Append(old(tx.h), account, e, now)
            case Ok(h) => r == Ok(()) && tx.h == h
            case Err(error) => r == Err(error)
  {
    var prior := LastSequence(Log(tx.h, account));
    var next := CheckedAdd(prior, 1);
    if next == None {
      return Err(Invalid);
    }
    var row := EventRow(next.value, e);
    tx.h := tx.h.(log := tx.h.log[account := Log(tx.h, account) + [row]]);
    tx.h := tx.h.(jobs := Schedule(tx.h.jobs, account, next.value, now.at));
    return Ok(());
  }

  /** The prepaid gate: a debit may not reach into held or missing money. */
  method CheckFunds(tx: Transaction, account: Id, delta: I64, ghost d: Drift) returns (r: Result<()>)
    requires delta != I64_MIN
    requires Tracks(tx.c, tx.h, d) && d.account == account && d.balance == 0 && d.held == 0
    requires account !in tx.c.balances ==> Fits(Balance(tx.h, account)) && Fits(Held(tx.h, account))
    modifies tx
    ensures tx.h == old(tx.h) && Tracks(tx.c, tx.h, d) && Grows(old(tx.c), tx.c)
    ensures r == if Affords(Balance(tx.h, account), Held(tx.h, account), -delta) then Ok(())
                 else Err(InsufficientFunds)
  {
    var row := AccountRow(tx, account, d);
    var available := CheckedSub(row.balance, row.held);
    if available == None {
      return Err(InsufficientFunds);
    }
    var rest := CheckedAdd(available.value, delta);
    if rest == None || rest.value < 0 {
      return Err(InsufficientFunds);
    }
    return Ok(());
  }

  /** Moves the balance counter, then inserts the posting it stands for. */
  method WritePosting(tx: Transaction, account: Id, posting: Posting, delta: I64, counter: Book, ghost d: Drift)
    returns (r: Result<()>)
    requires counter != CustomerBalance && delta != I64_MIN && posting.entries == Pair(account, delta, counter)
    requires Tracks(tx.c, tx.h, d) && d.account == account && d.balance == 0 && d.held == 0
    requires account !in tx.c.balances ==> Fits(Balance(tx.h, account)) && Fits(Held(tx.h, account))
    modifies tx
    ensures r == if !Fits(Balance(old(tx.h), account) + delta) then Err(Internal)
                 else if KeyUsed(old(tx.h), posting.idempotencyKey) then Err(Conflict)
                 else Ok(())
    ensures r.Ok? ==> tx.h == old(tx.h).(ledger := old(tx.h).ledger + [posting]) && Tracks(tx.c, tx.h, d)
  {
    var _ :- ChangeBalance(tx, account, delta, d);
    if KeyUsed(tx.h, posting.idempotencyKey) {
      return Err(Conflict);
    }
    ghost var before := tx.h;
    tx.h := tx.h.(ledger := tx.h.ledger + [posting]);
    PostingShift(before, posting, account, delta, counter, tx.h, d.key, d.month);
    Settles(tx.c, before, tx.h, d.(balance := delta), Drift(account, delta, 0, d.key, 0, d.month, 0));
    return Ok(());
  }

  /** The posting with its counter, and the event that announces it. */
  method BookEntries(tx: Transaction, account: Id, posting: Posting, delta: I64, counter: Book, now: Instant,
                     ghost d: Drift) returns (r: Result<()>)
    requires counter != CustomerBalance && delta != I64_MIN && posting.entries == Pair(account, delta, counter)
    requires Tracks(tx.c, tx.h, d) && d.account == account && d.balance == 0 && d.held == 0
    requires account !in tx.c.balances ==> Fits(Balance(tx.h, account)) && Fits(Held(tx.h, account))
    modifies tx
    ensures match BookPosting(old(tx.h), account, posting, delta, now)
            case Ok(h) => r == Ok(()) && tx.h == h && Tracks(tx.c, tx.h, d)
            case Err(error) => r == Err(error)
  {
    hide Tracks, Balance, Held, KeyUsed;
    var id := |tx.h.ledger|;
    var _ :- WritePosting(tx, account, posting, delta, counter, d);
    ghost var booked := tx.h;
    var _ :- AppendEvent(tx, account, LedgerPosted(id, posting.kind, posting.reference, delta), now);
    TracksOn(tx.c, booked, tx.h, d);
    return Ok(());
  }

  /** Books both entries of a posting, its counter and its event. */
  method InsertBalancedEntries(tx: Transaction, account: Id, kind: PostingKind, reference: Reference,
                               idempotencyKey: string, delta: I64, counter: Book, now: Instant,
                               ghost d: Drift) returns (r: Result<()>)
    requires counter != CustomerBalance
    requires Tracks(tx.c, tx.h, d) && d.account == account && d.balance == 0 && d.held == 0
    requires account !in tx.c.balances ==> Fits(Balance(tx.h, account)) && Fits(Held(tx.h, account))
    modifies tx
    ensures match Post(old(tx.h), account, kind, reference, idempotencyKey, delta, counter, now)
            case Ok(h) => r == Ok(()) && tx.h == h && Tracks(tx.c, tx.h, d)
            case Err(error) => r == Err(error)
  {
    hide Tracks, Balance, Held, BookPosting, Affords, Pair, Grows;
    if delta == I64_MIN {
      return Err(Invalid);
    }
    if account !in tx.h.accounts {
      return Err(NotFound);
    }
    if delta < 0 && tx.h.accounts[account].enforceBalance {
      var _ :- CheckFunds(tx, account, delta, d);
    }
    var posting := Posting(kind, reference, idempotencyKey, Pair(account, delta, counter));
    r := BookEntries(tx, account, posting, delta, counter, now, d);
  }
}
