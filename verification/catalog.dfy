/** Versioned model definitions beside an immutable price book. */
module CatalogService {
  import opened Prelude
  import opened Rows
  import opened Totals
  import opened Effects
  import opened Projection
  import opened Billing
  import opened PaymentService

  datatype PutRequest = PutRequest(expectedRevision: I64, enabled: bool, defaultPool: Option<Id>, model: Model)

  /** Identifiers of the catalog admit no colon. */
  predicate CatalogIdentifier(s: string) {
    0 < |s| <= 128 && forall i :: 0 <= i < |s| ==> Alphanumeric(s[i]) || s[i] in "._-"
  }

  predicate ModelOk(m: Model) {
    && CatalogIdentifier(m.id) && CatalogIdentifier(m.priceVersion)
    && NonBlank(m.displayName) && |m.displayName| <= 256
    && 1 <= m.maxContextTokens <= 16_777_216
    && 0 <= m.inputPrice && Fits(m.inputPrice * m.maxContextTokens)
    && 0 <= m.outputPrice && Fits(m.outputPrice * m.maxContextTokens)
    && Fits(m.maxContextTokens * Max(m.inputPrice, m.outputPrice))
  }

  /** Compare-and-swap on the revision, then the price book: a version that
      exists must carry this very definition. */
  function Put(c: Catalog, id: Id, q: PutRequest): Result<Catalog> {
    if !ModelOk(q.model) then Err(Invalid)
    else if id != q.model.id || !(0 <= q.expectedRevision < I64_MAX)
            || (q.defaultPool.Some? && !CatalogIdentifier(q.defaultPool.value))
    then Err(Invalid)
    else if q.expectedRevision == 0 && id in c.models then Err(Conflict)
    else if q.expectedRevision != 0 && (id !in c.models || c.models[id].revision != q.expectedRevision)
    then Err(Conflict)
    else if (id, q.model.priceVersion) in c.prices && c.prices[(id, q.model.priceVersion)] != q.model
    then Err(Conflict)
    else
      Ok(Catalog(c.models[id := CatalogRow(q.expectedRevision + 1, q.enabled, q.defaultPool, q.model)],
                 c.prices[(id, q.model.priceVersion) := q.model]))
  }

  const DEFAULT_MODEL := Model("xscope-demo", "XScope Demo Model", 32_768, 1_000, 2_000, "2026-09-01")

  /** Fills in the default model and its price where either is missing. */
  function Bootstrap(c: Catalog): Catalog {
    var price := (DEFAULT_MODEL.id, DEFAULT_MODEL.priceVersion);
    Catalog(
      if DEFAULT_MODEL.id in c.models then c.models
      else c.models[DEFAULT_MODEL.id := CatalogRow(1, true, Some("demo-pool"), DEFAULT_MODEL)],
      if price in c.prices then c.prices else c.prices[price := DEFAULT_MODEL])
  }

  /** Every definition in the catalog is a validated model, is filed under its
      own id, and is what the price book says about its version. */
  predicate CatalogOk(c: Catalog) {
    && (forall id :: id in c.models ==> DefinitionOk(c, id))
    && (forall k :: k in c.prices ==> PriceFiled(c, k))
  }

  predicate DefinitionOk(c: Catalog, id: Id)
    requires id in c.models
  {
    var m := c.models[id].definition;
    && ModelOk(m) && m.id == id && 0 < c.models[id].revision
    && (id, m.priceVersion) in c.prices && c.prices[(id, m.priceVersion)] == m
  }

  predicate PriceFiled(c: Catalog, k: (Id, Id))
    requires k in c.prices
  {
    ModelOk(c.prices[k]) && c.prices[k].id == k.0 && c.prices[k].priceVersion == k.1 && k.0 in c.models
  }

  /** Prices are only ever added. */
  predicate PricesKept(before: Catalog, after: Catalog) {
    forall k :: k in before.prices ==> k in after.prices && after.prices[k] == before.prices[k]
  }

  lemma PutKeepsPrices(c: Catalog, id: Id, q: PutRequest)
    requires CatalogOk(c) && Put(c, id, q).Ok?
    ensures CatalogOk(Put(c, id, q).value) && PricesKept(c, Put(c, id, q).value)
    ensures id in c.models ==> Put(c, id, q).value.models[id].revision == c.models[id].revision + 1
  {
    var after := Put(c, id, q).value;
    assert ModelOk(q.model);
    hide ModelOk, CatalogIdentifier;
    forall k | k in after.prices ensures PriceFiled(after, k) {
      if k in c.prices { assert PriceFiled(c, k); }
    }
    forall m | m in after.models ensures DefinitionOk(after, m) {
      if m != id { assert DefinitionOk(c, m); }
    }
  }

  lemma DefaultModelOk()
    ensures ModelOk(DEFAULT_MODEL)
  {
    assert "XScope Demo Model"[0] == 'X';
  }

  /** The default model files its price under a version an edited model of the
      same id cannot have given other terms. */
  lemma BootstrapKeepsPrices(c: Catalog)
    requires CatalogOk(c)
    ensures CatalogOk(Bootstrap(c)) && PricesKept(c, Bootstrap(c))
    ensures forall id :: id in c.models ==> id in Bootstrap(c).models && Bootstrap(c).models[id] == c.models[id]
  {
    hide ModelOk;
    DefaultModelOk();
    var after := Bootstrap(c);
    assert forall k :: k in c.prices ==> PriceFiled(c, k) && k.0 in c.models;
    forall k | k in after.prices ensures PriceFiled(after, k) {
      if k in c.prices { assert PriceFiled(c, k); }
    }
    forall m | m in after.models ensures DefinitionOk(after, m) {
      if m in c.models {
        assert DefinitionOk(c, m);
      } else if (m, DEFAULT_MODEL.priceVersion) in c.prices {
        assert false;
      }
    }
  }

  lemma Scaled(x: int, price: int, top: int)
    requires 0 <= x && price <= top
    ensures x * price <= x * top
  {
  }

  lemma Distributes(x: int, y: int, top: int)
    ensures (x + y) * top == x * top + y * top
  {
  }

  /** The overflow bound admission relies on: a validated model prices every
      request within its context window. */
  lemma AdmittedCostFits(m: Model, input: I64, output: I64)
    requires ModelOk(m) && 0 <= input && 0 <= output && input + output <= m.maxContextTokens
    ensures UsageCost(m, input, output).Some?
    ensures 0 <= UsageCost(m, input, output).value <= m.maxContextTokens * Max(m.inputPrice, m.outputPrice)
  {
    var top := Max(m.inputPrice, m.outputPrice);
    Products(input, m.maxContextTokens, m.inputPrice);
    Products(output, m.maxContextTokens, m.outputPrice);
    Scaled(input, m.inputPrice, top);
    Scaled(output, m.outputPrice, top);
    Distributes(input, output, top);
    Products(input + output, m.maxContextTokens, top);
  }

  method PutModel(repo: Repository, id: Id, q: PutRequest) returns (r: Result<CatalogRow>)
    requires repo.Valid()
    modifies repo
    ensures repo.Valid() && repo.cache == old(repo.cache)
    ensures match Put(old(repo.history).catalog, id, q)
            case Ok(c) => r == Ok(c.models[id]) && repo.history == old(repo.history).(catalog := c)
            case Err(error) => r == Err(error) && repo.history == old(repo.history)
  {
    hide InRange, Tracks;
    if !ModelOk(q.model) {
      return Err(Invalid);
    }
    if id != q.model.id || q.expectedRevision < 0 || q.expectedRevision == I64_MAX
       || (q.defaultPool.Some? && !CatalogIdentifier(q.defaultPool.value))
    {
      return Err(Invalid);
    }
    var c := repo.history.catalog;
    var row := CatalogRow(q.expectedRevision + 1, q.enabled, q.defaultPool, q.model);
    if q.expectedRevision == 0 {
      if id in c.models {
        return Err(Conflict);
      }
    } else if id !in c.models || c.models[id].revision != q.expectedRevision {
      return Err(Conflict);
    }
    c := c.(models := c.models[id := row]);
    var price := (id, q.model.priceVersion);
    if price in c.prices {
      if c.prices[price] != q.model {
        return Err(Conflict);
      }
    } else {
      c := c.(prices := c.prices[price := q.model]);
    }
    assert c == Put(repo.history.catalog, id, q).value;
    NewCatalog(repo.cache, repo.history, c);
    repo.history := repo.history.(catalog := c);
    return Ok(row);
  }

  method BootstrapCatalog(repo: Repository)
    requires repo.Valid()
    modifies repo
    ensures repo.Valid() && repo.cache == old(repo.cache)
    ensures repo.history == old(repo.history).(catalog := Bootstrap(old(repo.history).catalog))
  {
    hide InRange, Tracks;
    var c := repo.history.catalog;
    if DEFAULT_MODEL.id !in c.models {
      c := c.(models := c.models[DEFAULT_MODEL.id := CatalogRow(1, true, Some("demo-pool"), DEFAULT_MODEL)]);
    }
    var price := (DEFAULT_MODEL.id, DEFAULT_MODEL.priceVersion);
    if price !in c.prices {
      c := c.(prices := c.prices[price := DEFAULT_MODEL]);
    }
    NewCatalog(repo.cache, repo.history, c);
    repo.history := repo.history.(catalog := c);
  }

  /** A catalog with nonnegative prices replaces another. */
  lemma NewCatalog(cache: Cache, h: History, c: Catalog)
    requires Sound(h) && Tracks(cache, h, STILL)
    requires forall id :: id in c.models ==> PriceOk(c.models[id].definition)
    requires forall k :: k in c.prices ==> PriceOk(c.prices[k])
    ensures Sound(h.(catalog := c)) && Tracks(cache, h.(catalog := c), STILL)
  {
    hide InRange, Tracks, Balance, Held, KeyHeld, Spent, Booked;
    var after := h.(catalog := c);
    NothingMoves(h, after, STILL);
    StillFits(h, "", "", 0);
    ShiftInRange(h, after, STILL);
    TracksOn(cache, h, after, STILL);
  }
}

/** Accounts, keys, the balance policy and projection maintenance. */
module Administration {
  import opened Prelude
  import opened Sums
  import opened Rows
  import opened Totals
  import opened Outbox
  import opened Effects
  import opened Projection
  import opened Billing
  import opened PaymentService

  /** A project comes with its account, postpaid and active. */
  function OpenAccount(h: History, project: Id, tenant: Id): Result<History> {
    if project in h.accounts then Err(Conflict)
    else Ok(h.(accounts := h.accounts[project := Account(tenant, true, "CNY", false)]))
  }

  function SetPolicy(h: History, project: Id, enforceBalance: bool): Result<History> {
    if project !in h.accounts then Err(NotFound)
    else Ok(h.(accounts := h.accounts[project := h.accounts[project].(enforceBalance := enforceBalance)]))
  }

  function IssueKey(h: History, id: Id, key: ApiKey): Result<History> {
    if key.project !in h.accounts then Err(NotFound)
    else if id in h.keys then Err(Conflict)
    else Ok(h.(keys := h.keys[id := key.(revoked := false)]))
  }

  function RevokeKey(h: History, id: Id): Result<History> {
    if id !in h.keys || h.keys[id].revoked then Err(NotFound)
    else Ok(h.(keys := h.keys[id := h.keys[id].(revoked := true)]))
  }

  method UpdateBalancePolicy(repo: Repository, project: Id, enforceBalance: bool) returns (r: Result<()>)
    requires repo.Valid()
    modifies repo
    ensures repo.Valid() && repo.cache == old(repo.cache)
    ensures match SetPolicy(old(repo.history), project, enforceBalance)
            case Ok(h) => r == Ok(()) && repo.history == h
            case Err(error) => r == Err(error) && repo.history == old(repo.history)
  {
    hide InRange, Tracks, RowsOk, AmountsOk;
    if project !in repo.history.accounts {
      return Err(NotFound);
    }
    ghost var before := repo.history;
    var row := repo.history.accounts[project].(enforceBalance := enforceBalance);
    repo.history := repo.history.(accounts := repo.history.accounts[project := row]);
    assert AmountsOk(repo.history) by { SameAmounts(before, repo.history); }
    SideRows(repo.cache, before, repo.history);
    return Ok(());
  }

  lemma SameAmounts(before: History, after: History)
    requires AmountsOk(before) && after.orders == before.orders
    requires after.payments == before.payments && after.refunds == before.refunds
    ensures AmountsOk(after)
  {
  }

  // ---- projection maintenance ---------------------------------------------

  /** The three counters a check looks at equal their sums over history. */
  ghost predicate Consistent(c: Cache, h: History, project: Id, key: Id, month: int) {
    && project in c.balances
    && c.balances[project].balance == Balance(h, project) && c.balances[project].held == Held(h, project)
    && key in c.holds && c.holds[key] == KeyHeld(h, key)
    && (key, month) in c.spend && c.spend[(key, month)] == Spent(h, key, month)
  }

  predicate Present(c: Cache, project: Id, key: Id, month: int) {
    project in c.balances && key in c.holds && (key, month) in c.spend
  }

  /** Counters other than those three, as they were. */
  predicate OthersKept(before: Cache, after: Cache, project: Id, key: Id, month: int)
    requires Present(after, project, key, month)
  {
    && after.balances == before.balances[project := after.balances[project]]
    && after.holds == before.holds[key := after.holds[key]]
    && after.spend == before.spend[(key, month) := after.spend[(key, month)]]
  }

  /** Correct counters, but for the three that may have drifted anywhere. */
  ghost predicate TracksElsewhere(c: Cache, h: History, project: Id, key: Id, month: int) {
    && (forall a :: a in c.balances && a != project ==>
          c.balances[a].balance == Balance(h, a) && c.balances[a].held == Held(h, a))
    && (forall k :: k in c.holds && k != key ==> c.holds[k] == KeyHeld(h, k))
    && (forall k, m :: (k, m) in c.spend && (k != key || m != month) ==> c.spend[(k, m)] == Spent(h, k, m))
  }

  lemma RepairRestores(before: Cache, after: Cache, h: History, project: Id, key: Id, month: int)
    requires TracksElsewhere(before, h, project, key, month)
    requires Present(after, project, key, month) && OthersKept(before, after, project, key, month)
    requires Consistent(after, h, project, key, month)
    ensures Tracks(after, h, STILL)
  {
    hide Sum, SumSeq;
    forall k, m | (k, m) in after.spend && (k != key || m != month)
      ensures after.spend[(k, m)] == Spent(h, k, m)
    {
      assert (k, m) != (key, month);
    }
  }

  /** The sums the three counters stand for. */
  method Recount(h: History, project: Id, key: Id, month: int) returns (row: BalanceRow, keyHeld: I64, spent: I64)
    requires InRange(h)
    ensures row.balance == Balance(h, project) && row.held == Held(h, project)
    ensures keyHeld == KeyHeld(h, key) && spent == Spent(h, key, month)
  {
    StillFits(h, project, key, month);
    var booked := TotalSeq(h.ledger, PostedTo(project, CustomerBalance));
    var held := Total(h.reservations, HeldFor(project));
    row := BalanceRow(booked, held);
    keyHeld := Total(h.reservations, HeldByKey(key));
    spent := Total(h.usage, SpentBy(key, month));
  }

  /** Overwrites the three counters and announces it. */
  method RebuildCounters(tx: Transaction, project: Id, key: Id, month: int, row: BalanceRow, keyHeld: I64, spent: I64,
                         now: Instant) returns (r: Result<()>)
    requires Sound(tx.h)
    requires row.balance == Balance(tx.h, project) && row.held == Held(tx.h, project)
    requires keyHeld == KeyHeld(tx.h, key) && spent == Spent(tx.h, key, month)
    modifies tx
    ensures match Append(old(tx.h), project, ProjectionRebuilt(key, month), now)
            case Ok(h) => r == Ok(()) && tx.h == h && Sound(h)
            case Err(error) => r == Err(error)
    ensures r.Ok? ==>
      && Present(tx.c, project, key, month) && OthersKept(old(tx.c), tx.c, project, key, month)
      && Consistent(tx.c, tx.h, project, key, month)
      && (TracksElsewhere(old(tx.c), old(tx.h), project, key, month) ==> Tracks(tx.c, tx.h, STILL))
  {
    hide InRange, RowsOk, AmountsOk, Tracks, TracksElsewhere, Balance, Held, KeyHeld, Spent;
    ghost var h, c := tx.h, tx.c;
    tx.c := Cache(tx.c.balances[project := row], tx.c.holds[key := keyHeld], tx.c.spend[(key, month) := spent]);
    var _ :- AppendEvent(tx, project, ProjectionRebuilt(key, month), now);
    Rebuilt(c, tx.c, h, tx.h, project, key, month);
    return Ok(());
  }

  /** Compares, and on request rewrites, the counters of one account, key and
      month from source records. The counters found there may be anything. */
  method ProjectionCheck(repo: Repository, project: Id, key: Id, month: int, rebuild: bool, now: Instant)
    returns (r: Result<bool>)
    requires Sound(repo.history)
    modifies repo
    ensures r.Err? ==> repo.history == old(repo.history) && repo.cache == old(repo.cache)
    ensures r.Ok? ==> r.value == Consistent(old(repo.cache), old(repo.history), project, key, month)
    ensures r.Ok? && !rebuild ==> repo.history == old(repo.history) && repo.cache == old(repo.cache)
    ensures r.Ok? && rebuild ==>
      && Append(old(repo.history), project, ProjectionRebuilt(key, month), now) == Ok(repo.history)
      && Present(repo.cache, project, key, month)
      && OthersKept(old(repo.cache), repo.cache, project, key, month)
      && Consistent(repo.cache, repo.history, project, key, month)
    ensures r.Ok? && rebuild && TracksElsewhere(old(repo.cache), old(repo.history), project, key, month) ==>
      repo.Valid()
  {
    hide InRange, RowsOk, AmountsOk, Tracks, TracksElsewhere, Balance, Held, KeyHeld, Spent, OthersKept;
    var tx := new Transaction.Begin(repo);
    if project !in tx.h.accounts {
      return Err(NotFound);
    }
    if key !in tx.h.keys || tx.h.keys[key].project != project {
      return Err(NotFound);
    }
    var row, keyHeld, spent := Recount(tx.h, project, key, month);
    var consistent :=
      && project in tx.c.balances && tx.c.balances[project] == row
      && key in tx.c.holds && tx.c.holds[key] == keyHeld
      && (key, month) in tx.c.spend && tx.c.spend[(key, month)] == spent;
    if rebuild {
      var _ :- RebuildCounters(tx, project, key, month, row, keyHeld, spent, now);
      repo.Commit(tx);
    }
    return Ok(consistent);
  }

  lemma Rebuilt(before: Cache, after: Cache, h: History, h': History, project: Id, key: Id, month: int)
    requires Sound(h) && h' == h.(log := h'.log, jobs := h'.jobs)
    requires Present(after, project, key, month) && OthersKept(before, after, project, key, month)
    requires Consistent(after, h, project, key, month)
    ensures Sound(h') && Consistent(after, h', project, key, month)
    ensures TracksElsewhere(before, h, project, key, month) ==> Tracks(after, h', STILL)
  {
    hide RowsOk, InRange, Tracks, TracksElsewhere, Sum, SumSeq;
    SameAmounts(h, h');
    SoundFrame(h, h');
    if TracksElsewhere(before, h, project, key, month) {
      RepairRestores(before, after, h, project, key, month);
      TracksOn(after, h, h', STILL);
    }
  }
}
