/** The slow sums over source records that every money decision is about, the
    amounts by which an operation moves them, and what a counter must satisfy. */
module Totals {
  import opened Prelude
  import opened Sums
  import opened Rows

  // ---- weights ------------------------------------------------------------

  function EntryIn(account: Id, book: Book): Entry -> int {
    (e: Entry) => if e.account == account && e.book == book then e.amount else 0
  }

  /** What the entries of one posting add to a book of an account. */
  function Entries(entries: seq<Entry>, account: Id, book: Book): int {
    if entries == [] then 0
    else EntryIn(account, book)(entries[0]) + Entries(entries[1..], account, book)
  }

  function PostedTo(account: Id, book: Book): Posting -> int {
    (p: Posting) => Entries(p.entries, account, book)
  }

  function HeldFor(account: Id): Reservation -> int {
    (r: Reservation) => if r.spec.project == account && Holding(r.state) then r.reserved else 0
  }

  function HeldByKey(key: Id): Reservation -> int {
    (r: Reservation) => if r.spec.key == key && Holding(r.state) then r.reserved else 0
  }

  /** `occurred_at >= first of month && occurred_at < first of next month`. */
  function SpentBy(key: Id, month: int): UsageEvent -> int {
    (u: UsageEvent) => if u.key == key && u.occurredAt.month == month then u.cost else 0
  }

  // ---- sums over history --------------------------------------------------

  ghost function Booked(h: History, account: Id, book: Book): int {
    SumSeq(h.ledger, PostedTo(account, book))
  }

  ghost function Balance(h: History, account: Id): int {
    Booked(h, account, CustomerBalance)
  }

  ghost function Held(h: History, account: Id): int {
    Sum(h.reservations, HeldFor(account))
  }

  ghost function KeyHeld(h: History, key: Id): int {
    Sum(h.reservations, HeldByKey(key))
  }

  ghost function Spent(h: History, key: Id, month: int): int {
    Sum(h.usage, SpentBy(key, month))
  }

  // ---- how totals move ----------------------------------------------------

  /** Amounts by which one account, one of its keys and one month are off. */
  datatype Drift = Drift(
    account: Id,
    balance: int,
    held: int,
    key: Id,
    keyHeld: int,
    month: int,
    spent: int)

  /** Every total of `after` is that of `before` moved by d. */
  ghost predicate Shift(before: History, after: History, d: Drift) {
    && (forall a: Id :: Balance(after, a) == Balance(before, a) + (if a == d.account then d.balance else 0))
    && (forall a: Id :: Held(after, a) == Held(before, a) + (if a == d.account then d.held else 0))
    && (forall k: Id :: KeyHeld(after, k) == KeyHeld(before, k) + (if k == d.key then d.keyHeld else 0))
    && (forall k: Id, m: int ::
          Spent(after, k, m) == Spent(before, k, m) + (if k == d.key && m == d.month then d.spent else 0))
  }

  const STILL := Drift("", 0, 0, "", 0, 0, 0)

  /** No drift yet, by an operation on this account, key and month. */
  function At(account: Id, key: Id, month: int): Drift {
    Drift(account, 0, 0, key, 0, month, 0)
  }

  lemma ShiftThen(h0: History, h1: History, h2: History, d: Drift, e: Drift)
    requires Shift(h0, h1, d) && Shift(h1, h2, e)
    requires d.account == e.account && d.key == e.key && d.month == e.month
    ensures Shift(h0, h2, Drift(d.account, d.balance + e.balance, d.held + e.held,
                                d.key, d.keyHeld + e.keyHeld, d.month, d.spent + e.spent))
  {
  }

  /** A reservation row appears or changes. */
  lemma ReservationShift(h: History, id: Id, r: Reservation, after: History, month: int)
    requires after.reservations == h.reservations[id := r]
    requires after.usage == h.usage && after.ledger == h.ledger
    requires id in h.reservations ==> h.reservations[id].spec == r.spec
    ensures
      var was := if id in h.reservations then HeldByKey(r.spec.key)(h.reservations[id]) else 0;
      var now := HeldByKey(r.spec.key)(r);
      Shift(h, after, Drift(r.spec.project, 0, now - was, r.spec.key, now - was, month, 0))
  {
    forall a: Id
      ensures Held(after, a) == Held(h, a) + HeldFor(a)(r)
                - (if id in h.reservations then HeldFor(a)(h.reservations[id]) else 0)
    {
      SumPut(h.reservations, HeldFor(a), id, r);
    }
    forall k: Id
      ensures KeyHeld(after, k) == KeyHeld(h, k) + HeldByKey(k)(r)
                - (if id in h.reservations then HeldByKey(k)(h.reservations[id]) else 0)
    {
      SumPut(h.reservations, HeldByKey(k), id, r);
    }
  }

  /** A usage event is inserted under a new id. */
  lemma UsageShift(h: History, id: Id, u: UsageEvent, after: History, account: Id)
    requires after.usage == h.usage[id := u] && id !in h.usage
    requires after.reservations == h.reservations && after.ledger == h.ledger
    ensures Shift(h, after, Drift(account, 0, 0, u.key, 0, u.occurredAt.month, u.cost))
  {
    forall k: Id, m: int
      ensures Spent(after, k, m) == Spent(h, k, m) + SpentBy(k, m)(u)
    {
      SumPut(h.usage, SpentBy(k, m), id, u);
    }
  }

  /** A two-entry posting is appended. */
  lemma PostingShift(h: History, p: Posting, account: Id, delta: I64, book: Book, after: History, key: Id, month: int)
    requires after.ledger == h.ledger + [p]
    requires after.reservations == h.reservations && after.usage == h.usage
    requires delta != I64_MIN && book != CustomerBalance
    requires p.entries == [Entry(account, CustomerBalance, delta), Entry(account, book, -delta)]
    ensures Shift(h, after, Drift(account, delta, 0, key, 0, month, 0))
    ensures forall a: Id, b: Book ::
      Booked(after, a, b) == Booked(h, a, b)
        + (if a != account then 0 else if b == CustomerBalance then delta else if b == book then -delta else 0)
  {
    forall a: Id, b: Book
      ensures Booked(after, a, b) == Booked(h, a, b)
        + (if a != account then 0 else if b == CustomerBalance then delta else if b == book then -delta else 0)
    {
      SumSeqPush(h.ledger, p, PostedTo(a, b));
      PairWeight(account, delta, book, a, b);
    }
  }

  lemma PairWeight(account: Id, delta: I64, book: Book, a: Id, b: Book)
    requires delta != I64_MIN && book != CustomerBalance
    ensures Entries([Entry(account, CustomerBalance, delta), Entry(account, book, -delta)], a, b)
         == (if a != account then 0 else if b == CustomerBalance then delta else if b == book then -delta else 0)
  {
    var first := Entry(account, CustomerBalance, delta);
    var second := Entry(account, book, -delta);
    assert [first, second][1..] == [second];
    assert [second][1..] == [];
    assert Entries([second], a, b) == EntryIn(a, b)(second);
  }

  // ---- counters -----------------------------------------------------------

  /** Every counter row equals its sum over history, but for the drift d of an
      operation that is halfway; a row that drifts exists. */
  ghost predicate Tracks(c: Cache, h: History, d: Drift) {
    && (forall a :: a in c.balances ==>
          && c.balances[a].balance == Balance(h, a) + (if a == d.account then d.balance else 0)
          && c.balances[a].held == Held(h, a) + (if a == d.account then d.held else 0))
    && (d.balance != 0 || d.held != 0 ==> d.account in c.balances)
    && (forall k :: k in c.holds ==>
          c.holds[k] == KeyHeld(h, k) + (if k == d.key then d.keyHeld else 0))
    && (d.keyHeld != 0 ==> d.key in c.holds)
    && (forall k, m :: (k, m) in c.spend ==>
          c.spend[(k, m)] == Spent(h, k, m) + (if k == d.key && m == d.month then d.spent else 0))
    && (d.spent != 0 ==> (d.key, d.month) in c.spend)
  }

  /** Without drift it does not matter where an operation works. */
  lemma Rebase(c: Cache, h: History, d: Drift, e: Drift)
    requires Tracks(c, h, d)
    requires d.balance == d.held == d.keyHeld == d.spent == 0
    requires e.balance == e.held == e.keyHeld == e.spent == 0
    ensures Tracks(c, h, e)
  {
  }

  /** Source rows written after the counters close the gap the counters opened. */
  lemma Settles(c: Cache, before: History, after: History, d: Drift, e: Drift)
    requires Tracks(c, before, d) && Shift(before, after, e)
    requires d.account == e.account && d.key == e.key && d.month == e.month
    requires e.balance != 0 || e.held != 0 ==> d.account in c.balances
    requires e.keyHeld != 0 ==> d.key in c.holds
    requires e.spent != 0 ==> (d.key, d.month) in c.spend
    ensures Tracks(c, after, Drift(d.account, d.balance - e.balance, d.held - e.held,
                                   d.key, d.keyHeld - e.keyHeld, d.month, d.spent - e.spent))
  {
  }

  /** Operations that leave reservations, usage and ledger alone move no total. */
  lemma NothingMoves(before: History, after: History, d: Drift)
    requires after.reservations == before.reservations
    requires after.usage == before.usage && after.ledger == before.ledger
    ensures Shift(before, after, d.(balance := 0, held := 0, keyHeld := 0, spent := 0))
  {
  }

  lemma TracksOn(c: Cache, before: History, after: History, d: Drift)
    requires Tracks(c, before, d)
    requires after.reservations == before.reservations
    requires after.usage == before.usage && after.ledger == before.ledger
    ensures Tracks(c, after, d)
  {
    NothingMoves(before, after, d);
    Settles(c, before, after, d, d.(balance := 0, held := 0, keyHeld := 0, spent := 0));
  }

  // ---- soundness of the source records ------------------------------------

  predicate PriceOk(m: Model) {
    0 <= m.inputPrice && 0 <= m.outputPrice
  }

  /** Exact inference cost in microunits; overflow and negative counts are errors. */
  function UsageCost(m: Model, input: I64, output: I64): Option<I64> {
    if input < 0 || output < 0 then None
    else match CheckedMul(input, m.inputPrice)
      case None => None
      case Some(a) =>
        match CheckedMul(output, m.outputPrice)
        case None => None
        case Some(b) => CheckedAdd(a, b)
  }

  /** Rows refer to rows that exist, and carry what admission froze into them. */
  ghost predicate RowsOk(h: History) {
    && (forall id :: id in h.reservations ==>
          var r := h.reservations[id];
          && r.spec.id == id
          && r.spec.project in h.accounts
          && r.spec.key in h.keys && h.keys[r.spec.key].project == r.spec.project
          && 0 <= r.reserved && PriceOk(r.price)
          && UsageCost(r.price, r.spec.inputLimit, r.spec.outputLimit) == Some(r.reserved))
    && (forall id :: id in h.usage ==>
          var u := h.usage[id];
          0 <= u.cost && u.key in h.keys && h.keys[u.key].project == u.project && u.project in h.accounts)
    && (forall v :: v in h.catalog.prices ==> PriceOk(h.catalog.prices[v]))
    && (forall m :: m in h.catalog.models ==> PriceOk(h.catalog.models[m].definition))
    && (forall k :: k in h.keys ==> h.keys[k].project in h.accounts)
    && (forall i :: 0 <= i < |h.ledger| ==> |h.ledger[i].entries| == 2)
  }

  /** Every total is a bigint, and no hold or spend is negative. */
  ghost predicate InRange(h: History) {
    && (forall a: Id :: Fits(Balance(h, a)))
    && (forall a: Id :: 0 <= Held(h, a) <= I64_MAX)
    && (forall k: Id :: 0 <= KeyHeld(h, k) <= I64_MAX)
    && (forall k: Id, m: int :: 0 <= Spent(h, k, m) <= I64_MAX)
  }

  /** Orders, payments and refunds are for positive amounts, and captured money
      fits the ledger. */
  predicate AmountsOk(h: History) {
    && (forall id :: id in h.orders ==> 0 < h.orders[id].amount)
    && (forall id :: id in h.payments ==> 0 < h.payments[id].amount && Fits(h.payments[id].amount * MICROS_PER_MINOR_UNIT))
    && (forall id :: id in h.refunds ==> 0 < h.refunds[id].amount)
  }

  ghost predicate Sound(h: History) {
    RowsOk(h) && InRange(h) && AmountsOk(h)
  }

  /** A held amount is part of both totals it is counted in. */
  lemma HoldCounted(h: History, id: Id)
    requires RowsOk(h)
    requires id in h.reservations && Holding(h.reservations[id].state)
    ensures h.reservations[id].reserved <= Held(h, h.reservations[id].spec.project)
    ensures h.reservations[id].reserved <= KeyHeld(h, h.reservations[id].spec.key)
  {
    var r := h.reservations[id];
    SumBounds(h.reservations, HeldFor(r.spec.project));
    SumBounds(h.reservations, HeldByKey(r.spec.key));
    assert HeldFor(r.spec.project)(r) == r.reserved;
    assert HeldByKey(r.spec.key)(r) == r.reserved;
  }

  /** The empty database is sound. */
  lemma EmptySound()
    ensures Sound(EMPTY_HISTORY) && Tracks(EMPTY_CACHE, EMPTY_HISTORY, STILL)
  {
  }
}
