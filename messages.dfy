/**
 * The message model of internal/model/messages: the cache policy of
 * cache_logic.go (read-through currency lookup, report lookup with staleness
 * check and hand-off to the report producer, invalidation on a new spending)
 * and the command handlers of incoming_msg.go that drive the store, the two
 * caches and the rate table.
 *
 * The store, the report producer and the Telegram client are outside the
 * model: what they answer during one message is a parameter (`Outcomes`), and
 * every call made to them is appended to the ghost log `calls`.
 */
module Messages {
  import opened Wrappers
  import opened Repository
  import opened Strings
  import opened CacheLru
  import opened CbrCurrency
  import opened Commands

  /** messages.Message */
  datatype Message = Message(text: string, userId: UserId)

  /** A call the model makes to a collaborator. */
  datatype Call =
    | StoreGetActiveCurrency(userId: UserId)
    | StoreCreateSpending(userId: UserId, category: string, amount: Decimal, date: Time)
    | StoreCreateCategory(userId: UserId, name: string)
    | StoreGetAllCategories(userId: UserId)
    | StoreSetActiveCurrency(userId: UserId, code: string)
    | StoreGetLimit(userId: UserId)
    | StoreSetLimit(userId: UserId, amount: Decimal)
    | StoreDropLimit(userId: UserId)
    | DispatchReport(userId: UserId, period: string, first: Time, last: Time)
    | SendMessage(userId: UserId, text: string)

  /** What each collaborator answers while one message is handled. */
  datatype Outcomes = Outcomes(
    activeCurrency: Result<string, Error>,
    createSpending: Option<Error>,
    createCategory: Option<Error>,
    allCategories: Result<seq<Category>, Error>,
    setActiveCurrency: Option<Error>,
    limit: Result<Decimal, Error>,
    setLimit: Option<Error>,
    dropLimit: Option<Error>,
    dispatch: Option<Error>,
    send: Option<Error>)

  // ---------------------------------------------------------------------------
  // Cache keys and the invalidation policy, as values

  /** The currency cache key of a user: the user id in decimal. */
  function CurrencyKey(userId: UserId): string
  {
    FormatInt(userId)
  }

  /** The report cache key of a user and a period code. */
  function ReportKey(userId: UserId, period: string): string
  {
    FormatInt(userId) + "_" + period
  }

  /** Different users or periods never share a report cache key. */
  lemma ReportKeyInjective(u1: UserId, p1: string, u2: UserId, p2: string)
    requires ReportKey(u1, p1) == ReportKey(u2, p2)
    ensures u1 == u2 && p1 == p2
  {
    var a, b := FormatInt(u1), FormatInt(u2);
    var k1, k2 := ReportKey(u1, p1), ReportKey(u2, p2);
    assert '_' !in a && '_' !in b;
    IndexOfAfter(a, '_', p1);
    IndexOfAfter(b, '_', p2);
    assert a == k1[..|a|] && b == k2[..|b|];
    FormatIntInjective(u1, u2);
    assert p1 == k1[|a| + 1..] && p2 == k2[|b| + 1..];
  }

  /** The currency a lookup yields: the cached code on a hit, the store's answer on a miss. */
  function CurrencyLookup(q: seq<Item<string>>, userId: UserId, stored: Result<string, Error>): Result<string, Error>
  {
    match Find(q, CurrencyKey(userId))
    case Some(code) => Success(code)
    case None => stored
  }

  /** The report entries a spending dated `date` makes stale. */
  predicate Stale(key: string, userId: UserId, date: Time, clock: Clock)
  {
    || (key == ReportKey(userId, "Y") && date > clock.yearAgo)
    || (key == ReportKey(userId, "M") && date > clock.monthAgo)
    || (key == ReportKey(userId, "W") && date > clock.weekAgo)
  }

  /** The report cache after invalidation for a spending dated `date`. */
  function Invalidated(q: seq<Item<Report>>, userId: UserId, date: Time, clock: Clock): seq<Item<Report>>
  {
    var q1 := if date > clock.yearAgo then Without(q, ReportKey(userId, "Y")) else q;
    var q2 := if date > clock.monthAgo then Without(q1, ReportKey(userId, "M")) else q1;
    if date > clock.weekAgo then Without(q2, ReportKey(userId, "W")) else q2
  }

  /** Invalidation removes exactly the stale entries and keeps every other one. */
  lemma InvalidatedLookup(q: seq<Item<Report>>, userId: UserId, date: Time, clock: Clock, key: string)
    ensures Find(Invalidated(q, userId, date, clock), key) ==
      if Stale(key, userId, date, clock) then None else Find(q, key)
  {
    var q1 := if date > clock.yearAgo then Without(q, ReportKey(userId, "Y")) else q;
    var q2 := if date > clock.monthAgo then Without(q1, ReportKey(userId, "M")) else q1;
    FindWithout(q, ReportKey(userId, "Y"), key);
    FindWithout(q1, ReportKey(userId, "M"), key);
    FindWithout(q2, ReportKey(userId, "W"), key);
  }

  /**
   * With ordered boundaries the stale periods cascade: a spending in the last
   * week staled all three reports, one older than a week but within a month the
   * yearly and monthly ones, one older than a month but within a year only the
   * yearly one, and an older one none. The boundaries themselves count as old.
   */
  lemma InvalidationBands(userId: UserId, date: Time, clock: Clock)
    requires clock.Ordered()
    ensures date > clock.weekAgo ==>
      Stale(ReportKey(userId, "Y"), userId, date, clock) && Stale(ReportKey(userId, "M"), userId, date, clock) &&
      Stale(ReportKey(userId, "W"), userId, date, clock)
    ensures clock.monthAgo < date <= clock.weekAgo ==>
      Stale(ReportKey(userId, "Y"), userId, date, clock) && Stale(ReportKey(userId, "M"), userId, date, clock) &&
      !Stale(ReportKey(userId, "W"), userId, date, clock)
    ensures clock.yearAgo < date <= clock.monthAgo ==>
      Stale(ReportKey(userId, "Y"), userId, date, clock) && !Stale(ReportKey(userId, "M"), userId, date, clock) &&
      !Stale(ReportKey(userId, "W"), userId, date, clock)
    ensures date <= clock.yearAgo ==>
      !Stale(ReportKey(userId, "Y"), userId, date, clock) && !Stale(ReportKey(userId, "M"), userId, date, clock) &&
      !Stale(ReportKey(userId, "W"), userId, date, clock)
  {
    if ReportKey(userId, "W") == ReportKey(userId, "M") || ReportKey(userId, "W") == ReportKey(userId, "Y") {
      ReportKeyInjective(userId, "W", userId, if ReportKey(userId, "W") == ReportKey(userId, "M") then "M" else "Y");
    }
    if ReportKey(userId, "M") == ReportKey(userId, "Y") {
      ReportKeyInjective(userId, "M", userId, "Y");
    }
  }

  /** Whether or not the key is present, Delete leaves the queue without it. */
  lemma DeleteAsWithout<V>(q: seq<Item<V>>, key: string)
    ensures DeleteSpec(q, key).queue == Without(q, key)
  {
    if Find(q, key).None? {
      WithoutAbsent(q, key);
    }
  }

  // ---------------------------------------------------------------------------
  // Replies that depend on the currency lookup

  /** ProceedCommandReport: the report in the active currency, or the error of the lookup. */
  function ReportReply(report: Report, curr: Result<string, Error>, table: map<string, Decimal>, env: Env): (string, Option<Error>)
  {
    match curr
    case Failure(e) => (ServiceErrorStr, Some(e))
    case Success(c) =>
      if c !in table then (CurrencyErrorStr, Some(ErrCurrencyNotSupported))
      else (ReportText(report, table[c], c, env), None)
  }

  /** handleCommandCurrencyActive: the active code with its rate and name. */
  function ActiveReply(curr: Result<string, Error>, table: map<string, Decimal>, env: Env): (string, Option<Error>)
  {
    match curr
    case Failure(e) => (ServiceErrorStr, Some(e))
    case Success(c) =>
      if c !in table then (CurrencyErrorStr, Some(ErrCurrencyNotSupported))
      else (ActiveCurrencyText(c, table[c], env), None)
  }

  /** handleCommandLimitGet: "not set", the store's error, or the limit in the active currency. */
  function LimitReply(limit: Result<Decimal, Error>, curr: Result<string, Error>, table: map<string, Decimal>, env: Env): (string, Option<Error>)
  {
    match limit
    case Failure(e) =>
      if e == ErrLimitNotSet then (LimitText(None, 1.0, "", env), None) else (ServiceErrorStr, Some(e))
    case Success(l) =>
      match curr
      case Failure(e) => (ServiceErrorStr, Some(e))
      case Success(c) =>
        if c !in table then (CurrencyErrorStr, Some(ErrCurrencyNotSupported))
        else (LimitText(Some(l), table[c], c, env), None)
  }

  /** An amount in a currency whose rate is `rate` roubles per unit, in roubles (decimal.Mul, exact). */
  function ToRoubles(amount: Decimal, rate: Decimal): (r: Decimal)
    ensures rate == 1.0 ==> r == amount
    ensures amount == 0.0 ==> r == 0.0
  {
    amount * rate
  }

  /** The store call a currency lookup makes: none on a hit. */
  function LookupCalls(q: seq<Item<string>>, userId: UserId): seq<Call>
  {
    if Find(q, CurrencyKey(userId)).Some? then [] else [StoreGetActiveCurrency(userId)]
  }

  /** The currency cache after a lookup: a hit moves to the front, a successful miss is added. */
  function AfterLookup(q: seq<Item<string>>, capacity: int, userId: UserId, stored: Result<string, Error>): seq<Item<string>>
    requires capacity > 0
  {
    match Find(q, CurrencyKey(userId))
    case Some(code) => Promote(q, CurrencyKey(userId), code)
    case None => if stored.Success? then AddSpec(q, capacity, CurrencyKey(userId), stored.value).queue else q
  }

  /** Right after the user's code was added, a lookup is a hit that finds it at the front and changes nothing. */
  lemma LookupAfterAdd(q: seq<Item<string>>, capacity: int, userId: UserId, code: string, stored: Result<string, Error>)
    requires capacity > 0 && UniqueKeys(q) && |q| <= capacity
    ensures var added := AddSpec(q, capacity, CurrencyKey(userId), code).queue;
      && LookupCalls(added, userId) == []
      && CurrencyLookup(added, userId, stored) == Success(code)
      && AfterLookup(added, capacity, userId, stored) == added
  {
    var key := CurrencyKey(userId);
    var added := AddSpec(q, capacity, key, code).queue;
    AddKeepsInvariant(q, capacity, key, code);
    assert added[0] == Item(key, code);
    PromoteFront(added, key);
  }

  /**
   * A successful lookup leaves the cache as adding the code found would; so a
   * second lookup is a hit on the same code and changes nothing.
   */
  lemma AfterLookupAgain(q: seq<Item<string>>, capacity: int, userId: UserId, stored: Result<string, Error>, again: Result<string, Error>)
    requires capacity > 0 && UniqueKeys(q) && |q| <= capacity
    requires CurrencyLookup(q, userId, stored).Success?
    ensures var looked := AfterLookup(q, capacity, userId, stored);
      && LookupCalls(looked, userId) == []
      && CurrencyLookup(looked, userId, again) == CurrencyLookup(q, userId, stored)
      && AfterLookup(looked, capacity, userId, again) == looked
  {
    var code := CurrencyLookup(q, userId, stored).value;
    assert AfterLookup(q, capacity, userId, stored) == AddSpec(q, capacity, CurrencyKey(userId), code).queue;
    LookupAfterAdd(q, capacity, userId, code, again);
  }

  /** The calls /limitget makes: the limit, then the currency lookup when there is a limit. */
  function LimitGetCalls(q: seq<Item<string>>, userId: UserId, limit: Result<Decimal, Error>): seq<Call>
  {
    [StoreGetLimit(userId)] + (if limit.Success? then LookupCalls(q, userId) else [])
  }

  /** The currency cache after /limitget: looked up only when there is a limit. */
  function AfterLimitGet(q: seq<Item<string>>, capacity: int, userId: UserId, limit: Result<Decimal, Error>, stored: Result<string, Error>): seq<Item<string>>
    requires capacity > 0
  {
    if limit.Success? then AfterLookup(q, capacity, userId, stored) else q
  }

  /** The calls of /limitset with an amount: the lookup, then the converted limit when the code has a rate. */
  function SetLimitCalls(q: seq<Item<string>>, userId: UserId, amount: Decimal, stored: Result<string, Error>, table: map<string, Decimal>): seq<Call>
  {
    var curr := CurrencyLookup(q, userId, stored);
    LookupCalls(q, userId) +
      (if curr.Success? && curr.value in table then [StoreSetLimit(userId, ToRoubles(amount, table[curr.value]))] else [])
  }

  /** None of the calls is a message to Telegram. */
  predicate NoSends(added: seq<Call>)
  {
    forall i :: 0 <= i < |added| ==> !added[i].SendMessage?
  }

  /** Calls made in two stretches, neither of which sends, send nothing together. */
  lemma NoSendsExtend(before: seq<Call>, after: seq<Call>, n: nat)
    requires n <= |before| <= |after| && after[..|before|] == before
    requires NoSends(before[n..]) && NoSends(after[|before|..])
    ensures NoSends(after[n..])
  {
    forall i | 0 <= i < |after[n..]| ensures !after[n..][i].SendMessage? {
      if n + i < |before| {
        assert after[n..][i] == before[n..][i];
      } else {
        assert after[n..][i] == after[|before|..][n + i - |before|];
      }
    }
  }

  /**
   * handleCommandReport for the window `w`, from the caches as they were
   * (`reportQ`, `currQ`) to the caches after (`newReportQ`, `newCurrQ`), with
   * `added` the calls made. A missing or stale entry is handed to the
   * producer; a producer error gives the service error; a miss otherwise
   * gives "Report proceeed"; any cached report, even a stale one, is rendered
   * in the active currency. A stale entry is removed, a fresh one moved to the
   * front, and the currency cache changes only when a report is rendered.
   */
  predicate ReportAnswered(
    reportQ: seq<Item<Report>>, newReportQ: seq<Item<Report>>,
    currQ: seq<Item<string>>, newCurrQ: seq<Item<string>>, capacity: int,
    userId: UserId, w: Window, out: Outcomes, env: Env, table: map<string, Decimal>,
    reply: string, err: Option<Error>, added: seq<Call>)
    requires capacity > 0
  {
    var key := ReportKey(userId, w.period);
    var cached := Find(reportQ, key);
    var dispatches := cached.None? || cached.value.minDate < w.first;
    var renders := cached.Some? && (!dispatches || out.dispatch.None?);
    && added == (if dispatches then [DispatchReport(userId, w.period, w.first, w.last)] else []) +
                (if renders then LookupCalls(currQ, userId) else [])
    && newReportQ == (if cached.None? then reportQ else if dispatches then Without(reportQ, key) else Promote(reportQ, key, cached.value))
    && newCurrQ == (if renders then AfterLookup(currQ, capacity, userId, out.activeCurrency) else currQ)
    && (dispatches && out.dispatch.Some? ==> (reply, err) == (ServiceErrorStr, out.dispatch))
    && (cached.None? && out.dispatch.None? ==> (reply, err) == ("Report proceeed", None))
    && (renders ==> (reply, err) == ReportReply(cached.value, CurrencyLookup(currQ, userId, out.activeCurrency), table, env))
  }

  /** A report request reaches the producer exactly when the entry is missing or stale, and nothing is sent. */
  lemma ReportDispatchedIff(
    reportQ: seq<Item<Report>>, newReportQ: seq<Item<Report>>,
    currQ: seq<Item<string>>, newCurrQ: seq<Item<string>>, capacity: int,
    userId: UserId, w: Window, out: Outcomes, env: Env, table: map<string, Decimal>,
    reply: string, err: Option<Error>, added: seq<Call>)
    requires capacity > 0
    requires ReportAnswered(reportQ, newReportQ, currQ, newCurrQ, capacity, userId, w, out, env, table, reply, err, added)
    ensures var cached := Find(reportQ, ReportKey(userId, w.period));
            (cached.None? || cached.value.minDate < w.first) <==> DispatchReport(userId, w.period, w.first, w.last) in added
    ensures NoSends(added)
  {
    var cached := Find(reportQ, ReportKey(userId, w.period));
    if !(cached.None? || cached.value.minDate < w.first) {
      assert forall i :: 0 <= i < |added| ==> added[i].StoreGetActiveCurrency?;
    }
  }

  /**
   * The second half of handleCommandCreateSpending for a parsed spending,
   * from the caches as they were to the caches after, with `added` the calls
   * made: the amount is converted from the active currency at its rate and
   * stored once; a stored spending answers "Exspense added" and invalidates
   * the reports its date makes stale; ErrLimitExceeded answers "Limit
   * exceeded" without an error; a failed lookup or an unknown code stores
   * nothing.
   */
  predicate SpendingAnswered(
    reportQ: seq<Item<Report>>, newReportQ: seq<Item<Report>>,
    currQ: seq<Item<string>>, newCurrQ: seq<Item<string>>, capacity: int,
    userId: UserId, category: string, amount: Decimal, date: Time,
    out: Outcomes, clock: Clock, table: map<string, Decimal>,
    reply: string, err: Option<Error>, added: seq<Call>)
    requires capacity > 0
  {
    var curr := CurrencyLookup(currQ, userId, out.activeCurrency);
    var converts := curr.Success? && curr.value in table;
    && added == LookupCalls(currQ, userId) +
                (if curr.Success? && curr.value in table
                 then [StoreCreateSpending(userId, category, ToRoubles(amount, table[curr.value]), date)] else [])
    && newCurrQ == AfterLookup(currQ, capacity, userId, out.activeCurrency)
    && newReportQ == (if converts && out.createSpending == None then Invalidated(reportQ, userId, date, clock) else reportQ)
    && (curr.Failure? ==> (reply, err) == (ServiceErrorStr, Some(curr.error)))
    && (curr.Success? && !converts ==> (reply, err) == (CurrencyErrorStr, Some(ErrCurrencyNotSupported)))
    && (converts && out.createSpending == None ==> (reply, err) == ("Exspense added", None))
    && (converts && out.createSpending == Some(ErrLimitExceeded) ==> (reply, err) == ("Limit exceeded", None))
    && (converts && out.createSpending.Some? && out.createSpending != Some(ErrLimitExceeded) ==>
          (reply, err) == (ServiceErrorStr, out.createSpending))
  }

  /** Handling a parsed spending stores at most one spending, and only at a known rate, and sends nothing. */
  lemma SpendingStoredOnce(
    reportQ: seq<Item<Report>>, newReportQ: seq<Item<Report>>,
    currQ: seq<Item<string>>, newCurrQ: seq<Item<string>>, capacity: int,
    userId: UserId, category: string, amount: Decimal, date: Time,
    out: Outcomes, clock: Clock, table: map<string, Decimal>,
    reply: string, err: Option<Error>, added: seq<Call>)
    requires capacity > 0
    requires SpendingAnswered(reportQ, newReportQ, currQ, newCurrQ, capacity, userId, category, amount, date, out, clock, table, reply, err, added)
    ensures NoSends(added)
    ensures forall i, j :: 0 <= i < j < |added| ==> !(added[i].StoreCreateSpending? && added[j].StoreCreateSpending?)
    ensures var curr := CurrencyLookup(currQ, userId, out.activeCurrency);
            (exists i :: 0 <= i < |added| && added[i].StoreCreateSpending?) <==> curr.Success? && curr.value in table
  {
    var curr := CurrencyLookup(currQ, userId, out.activeCurrency);
    assert forall i :: 0 <= i < |LookupCalls(currQ, userId)| ==> LookupCalls(currQ, userId)[i].StoreGetActiveCurrency?;
    if curr.Success? && curr.value in table {
      assert added[|added| - 1].StoreCreateSpending?;
    }
  }

  /**
   * The caches every command other than the reports and a parsed /addexp
   * leaves: only the currency commands touch the currency cache, and none of
   * them the report cache.
   */
  predicate CachesAfterCommand(
    command: string, text: string, userId: UserId, out: Outcomes, env: Env, clock: Clock, table: map<string, Decimal>,
    reportQ: seq<Item<Report>>, newReportQ: seq<Item<Report>>,
    currQ: seq<Item<string>>, newCurrQ: seq<Item<string>>, capacity: int)
    requires capacity > 0
  {
    var code := CurrencyArgument(text);
    && (command in {CommandStart, CommandUnknown, CommandCreateCategory, CommandGetAllCategories, CommandCurrencyAll} ==>
          newCurrQ == currQ && newReportQ == reportQ)
    && (command == CommandCreateSpending && !ParseSpending(text, env, clock.now).ParsedSpending? ==>
          newCurrQ == currQ && newReportQ == reportQ)
    && (command in {CommandCurrencyActive, CommandCurrencySet, CommandLimitGet, CommandLimitSet} ==> newReportQ == reportQ)
    && (command == CommandCurrencyActive ==> newCurrQ == AfterLookup(currQ, capacity, userId, out.activeCurrency))
    && (command == CommandCurrencySet ==>
          newCurrQ == if code.Some? && code.value in table && out.setActiveCurrency.None?
                      then AddSpec(currQ, capacity, CurrencyKey(userId), code.value).queue
                      else currQ)
    && (command == CommandLimitGet ==> newCurrQ == AfterLimitGet(currQ, capacity, userId, out.limit, out.activeCurrency))
    && (command == CommandLimitSet ==>
          newCurrQ == match LimitArgument(text, env)
                      case LimitUnknownAmount => currQ
                      case DropLimit => if out.dropLimit.None? then AfterLimitGet(currQ, capacity, userId, out.limit, out.activeCurrency) else currQ
                      case SetLimit(_) => AfterLookup(currQ, capacity, userId, out.activeCurrency))
  }

  class Model {
    const currCache: LruCache<string>
    const reportCache: LruCache<Report>
    const currencies: CbrCurrencyStorage
    /** Every call made to the store, the report producer and Telegram, in order. */
    ghost var calls: seq<Call>

    ghost predicate Valid()
      reads this, currCache, reportCache
    {
      && currCache.Valid() && currCache.capacity > 0
      && reportCache.Valid() && reportCache.capacity > 0
    }

    /** messages.New */
    constructor (currCache: LruCache<string>, reportCache: LruCache<Report>, currencies: CbrCurrencyStorage)
      requires currCache.Valid() && currCache.capacity > 0
      requires reportCache.Valid() && reportCache.capacity > 0
      ensures Valid()
      ensures this.currCache == currCache && this.reportCache == reportCache && this.currencies == currencies
      ensures calls == []
    {
      this.currCache := currCache;
      this.reportCache := reportCache;
      this.currencies := currencies;
      calls := [];
    }

    /**
     * getActiveCurrencyFromCacheAndDB: a hit answers from the cache without
     * asking the store; a miss asks the store and caches a successful answer.
     */
    method GetActiveCurrencyFromCacheAndDB(userId: UserId, stored: Result<string, Error>) returns (r: Result<string, Error>)
      requires Valid()
      modifies this, currCache
      ensures Valid()
      ensures r == CurrencyLookup(old(currCache.queue), userId, stored)
      ensures calls == old(calls) + LookupCalls(old(currCache.queue), userId)
      ensures Find(old(currCache.queue), CurrencyKey(userId)).Some? ==>
        calls == old(calls) &&
        currCache.queue == Promote(old(currCache.queue), CurrencyKey(userId), r.value)
      ensures Find(old(currCache.queue), CurrencyKey(userId)).None? && stored.Success? ==>
        calls == old(calls) + [StoreGetActiveCurrency(userId)] &&
        currCache.queue == AddSpec(old(currCache.queue), currCache.capacity, CurrencyKey(userId), stored.value).queue
      ensures Find(old(currCache.queue), CurrencyKey(userId)).None? && stored.Failure? ==>
        calls == old(calls) + [StoreGetActiveCurrency(userId)] &&
        currCache.queue == old(currCache.queue)
      ensures Find(currCache.queue, CurrencyKey(userId)) == if r.Success? then Some(r.value) else None
      ensures currCache.queue == AfterLookup(old(currCache.queue), currCache.capacity, userId, stored)
      ensures unchanged(reportCache)
    {
      var key := CurrencyKey(userId);
      GetMovesToFront(currCache.queue, key);
      var result := currCache.Get(key);
      if result.Failure? {
        calls := calls + [StoreGetActiveCurrency(userId)];
        r := stored;
        if stored.Success? {
          AddLookup(currCache.queue, currCache.capacity, key, stored.value, key);
          var _ := currCache.Add(key, stored.value);
        }
      } else {
        FindWithout(old(currCache.queue), key, key);
        r := Success(result.value);
      }
    }

    /**
     * getReportPeriodFromCacheAndDB: a cached report whose earliest date is
     * not before the window start is returned as is; an older one is removed,
     * a request is handed to the producer, and the old report is still returned
     * with the producer's error; on a miss only the request is made. Nothing is
     * ever added to the report cache here.
     */
    method GetReportPeriodFromCacheAndDB(userId: UserId, period: string, first: Time, last: Time, dispatched: Option<Error>)
      returns (report: Option<Report>, err: Option<Error>)
      requires Valid()
      modifies this, reportCache
      ensures Valid()
      ensures var q := old(reportCache.queue);
              var key := ReportKey(userId, period);
              match Find(q, key)
              case Some(cached) =>
                report == Some(cached) &&
                if cached.minDate < first then
                  && err == dispatched
                  && reportCache.queue == Without(q, key)
                  && calls == old(calls) + [DispatchReport(userId, period, first, last)]
                else
                  && err == None
                  && reportCache.queue == Promote(q, key, cached)
                  && calls == old(calls)
              case None =>
                && report == None && err == dispatched
                && reportCache.queue == q
                && calls == old(calls) + [DispatchReport(userId, period, first, last)]
      ensures unchanged(currCache)
    {
      var key := ReportKey(userId, period);
      GetMovesToFront(reportCache.queue, key);
      var result := reportCache.Get(key);
      report := None;
      if result.Success? {
        report := Some(result.value);
        if result.value.minDate < first {
          WithoutIdempotent(old(reportCache.queue), key);
          var _ := reportCache.Delete(key);
          err := Some(ErrElementNotInCache);
        } else {
          err := None;
        }
      } else {
        err := Some(ErrElementNotInCache);
      }
      if err.Some? {
        calls := calls + [DispatchReport(userId, period, first, last)];
        err := dispatched;
      }
    }

    /**
     * invalidateReportPeriodInCache: removes the user's yearly, monthly and
     * weekly reports that a spending dated `date` makes stale.
     */
    method InvalidateReportPeriodInCache(userId: UserId, date: Time, clock: Clock)
      requires Valid()
      modifies reportCache
      ensures Valid()
      ensures reportCache.queue == Invalidated(old(reportCache.queue), userId, date, clock)
      ensures unchanged(currCache)
    {
      var key := CurrencyKey(userId);
      if date > clock.yearAgo {
        assert key + "_Y" == ReportKey(userId, "Y");
        DeleteAsWithout(reportCache.queue, key + "_Y");
        var _ := reportCache.Delete(key + "_Y");
      }
      if date > clock.monthAgo {
        assert key + "_M" == ReportKey(userId, "M");
        DeleteAsWithout(reportCache.queue, key + "_M");
        var _ := reportCache.Delete(key + "_M");
      }
      if date > clock.weekAgo {
        assert key + "_W" == ReportKey(userId, "W");
        DeleteAsWithout(reportCache.queue, key + "_W");
        var _ := reportCache.Delete(key + "_W");
      }
    }

    // -------------------------------------------------------------------------
    // Handlers

    /** ProceedCommandReport: renders a report in the user's active currency. */
    method ProceedCommandReport(userId: UserId, report: Report, out: Outcomes, env: Env) returns (reply: string, err: Option<Error>)
      requires Valid()
      modifies this, currCache
      ensures Valid()
      ensures reply != ""
      ensures (reply, err) == ReportReply(report, CurrencyLookup(old(currCache.queue), userId, out.activeCurrency), currencies.currencies, env)
      ensures calls == old(calls) + LookupCalls(old(currCache.queue), userId)
      ensures currCache.queue == AfterLookup(old(currCache.queue), currCache.capacity, userId, out.activeCurrency)
      ensures unchanged(reportCache)
    {
      var curr := GetActiveCurrencyFromCacheAndDB(userId, out.activeCurrency);
      if curr.Failure? {
        return ServiceErrorStr, Some(curr.error);
      }
      var value := currencies.GetCurrencyValue(curr.value);
      if value.Failure? {
        return CurrencyErrorStr, Some(value.error);
      }
      return ReportText(report, value.value, curr.value, env), None;
    }

    /**
     * handleCommandReport: a producer error gives the service error; a miss
     * whose request was handed over gives "Report proceeed"; any cached
     * report, even one found stale, is rendered.
     */
    method HandleReport(msg: Message, period: string, first: Time, last: Time, out: Outcomes, env: Env)
      returns (reply: string, err: Option<Error>)
      requires Valid()
      modifies this, currCache, reportCache
      ensures Valid()
      ensures reply != ""
      ensures |calls| >= |old(calls)| && calls[..|old(calls)|] == old(calls)
      ensures ReportAnswered(old(reportCache.queue), reportCache.queue, old(currCache.queue), currCache.queue, currCache.capacity,
                             msg.userId, Window(period, first, last), out, env, currencies.currencies, reply, err, calls[|old(calls)|..])
    {
      var report, e := GetReportPeriodFromCacheAndDB(msg.userId, period, first, last, out.dispatch);
      ghost var afterLookup := calls;
      if e.Some? {
        return ServiceErrorStr, e;
      }
      if report.None? {
        return "Report proceeed", None;
      }
      reply, err := ProceedCommandReport(msg.userId, report.value, out, env);
      assert calls[|old(calls)|..] == afterLookup[|old(calls)|..] + LookupCalls(old(currCache.queue), msg.userId);
    }

    /**
     * The second half of handleCommandCreateSpending: converts a parsed amount
     * from the active currency to roubles, stores the spending and, on
     * success, invalidates the user's reports the date makes stale.
     */
    method CreateParsedSpending(userId: UserId, category: string, amount: Decimal, date: Time, out: Outcomes, clock: Clock)
      returns (reply: string, err: Option<Error>)
      requires Valid()
      modifies this, currCache, reportCache
      ensures Valid()
      ensures reply != ""
      ensures |calls| >= |old(calls)| && calls[..|old(calls)|] == old(calls)
      ensures SpendingAnswered(old(reportCache.queue), reportCache.queue, old(currCache.queue), currCache.queue, currCache.capacity,
                               userId, category, amount, date, out, clock, currencies.currencies, reply, err, calls[|old(calls)|..])
    {
      var curr := GetActiveCurrencyFromCacheAndDB(userId, out.activeCurrency);
      if curr.Failure? {
        return ServiceErrorStr, Some(curr.error);
      }
      var value := currencies.GetCurrencyValue(curr.value);
      if value.Failure? {
        return CurrencyErrorStr, Some(value.error);
      }
      calls := calls + [StoreCreateSpending(userId, category, ToRoubles(amount, value.value), date)];
      if out.createSpending.Some? {
        if out.createSpending.value == ErrLimitExceeded {
          return "Limit exceeded", None;
        }
        return ServiceErrorStr, out.createSpending;
      }
      InvalidateReportPeriodInCache(userId, date, clock);
      return "Exspense added", None;
    }

    /**
     * handleCommandCreateSpending: parses the message and, when it names an
     * amount and a category, stores the spending.
     */
    method HandleCreateSpending(msg: Message, out: Outcomes, env: Env, clock: Clock) returns (reply: string, err: Option<Error>)
      requires Valid()
      requires Split(msg.text, ' ')[0] == CommandCreateSpending
      requires env.parseDate(CommandCreateSpending).None? && env.parseDecimal(CommandCreateSpending).None?
      modifies this, currCache, reportCache
      ensures Valid()
      ensures reply != ""
      ensures |calls| >= |old(calls)| && calls[..|old(calls)|] == old(calls)
      ensures NoSends(calls[|old(calls)|..])
      ensures !ParseSpending(msg.text, env, clock.now).IndexOutOfRange?
      ensures ParseSpending(msg.text, env, clock.now).UnknownAmount? ==>
        (reply, err) == ("Unknown amount", Some(ErrInvalidDecimal)) && calls == old(calls)
      ensures ParseSpending(msg.text, env, clock.now).UnknownCategory? ==>
        (reply, err) == ("Unknown category", Some(ErrCategoryIsEmpty)) && calls == old(calls)
      ensures var p := ParseSpending(msg.text, env, clock.now);
        p.ParsedSpending? ==>
          SpendingAnswered(old(reportCache.queue), reportCache.queue, old(currCache.queue), currCache.queue, currCache.capacity,
                           msg.userId, p.category, p.amount, p.date, out, clock, currencies.currencies, reply, err, calls[|old(calls)|..])
      ensures var p := ParseSpending(msg.text, env, clock.now);
        !p.ParsedSpending? ==> unchanged(currCache, reportCache)
    {
      var p := ParseSpending(msg.text, env, clock.now);
      ParseSpendingInRange(msg.text, env, clock.now);
      if p.UnknownAmount? {
        return "Unknown amount", Some(ErrInvalidDecimal);
      }
      if p.UnknownCategory? {
        return "Unknown category", Some(ErrCategoryIsEmpty);
      }
      reply, err := CreateParsedSpending(msg.userId, p.category, p.amount, p.date, out, clock);
      SpendingStoredOnce(old(reportCache.queue), reportCache.queue, old(currCache.queue), currCache.queue, currCache.capacity,
                         msg.userId, p.category, p.amount, p.date, out, clock, currencies.currencies, reply, err, calls[|old(calls)|..]);
    }

    /** handleCommandCreateCategory */
    method HandleCreateCategory(msg: Message, out: Outcomes) returns (reply: string, err: Option<Error>)
      requires Valid()
      modifies this
      ensures Valid()
      ensures reply != ""
      ensures |calls| >= |old(calls)| && calls[..|old(calls)|] == old(calls)
      ensures NoSends(calls[|old(calls)|..])
      ensures var name := CategoryArgument(msg.text);
              && (name == "" ==> (reply, err) == ("Category name must not be empty", None) && calls == old(calls))
              && (name != "" ==> calls == old(calls) + [StoreCreateCategory(msg.userId, name)])
              && (name != "" && out.createCategory == None ==> (reply, err) == ("Category '" + name + "' added", None))
              && (name != "" && out.createCategory == Some(ErrCategoryExists) ==>
                    (reply, err) == ("Category '" + name + "' already exists", None))
              && (name != "" && out.createCategory.Some? && out.createCategory != Some(ErrCategoryExists) ==>
                    (reply, err) == (ServiceErrorStr, out.createCategory))
    {
      var category := CategoryArgument(msg.text);
      if category == "" {
        return "Category name must not be empty", None;
      }
      calls := calls + [StoreCreateCategory(msg.userId, category)];
      if out.createCategory.Some? {
        if out.createCategory.value == ErrCategoryExists {
          return "Category '" + category + "' already exists", None;
        }
        return ServiceErrorStr, out.createCategory;
      }
      return "Category '" + category + "' added", None;
    }

    /** handleCommandGetAllCategories */
    method HandleGetAllCategories(msg: Message, out: Outcomes) returns (reply: string, err: Option<Error>)
      requires Valid()
      modifies this
      ensures Valid()
      ensures reply != ""
      ensures |calls| >= |old(calls)| && calls[..|old(calls)|] == old(calls)
      ensures NoSends(calls[|old(calls)|..])
      ensures calls == old(calls) + [StoreGetAllCategories(msg.userId)]
      ensures out.allCategories.Failure? ==> (reply, err) == (ServiceErrorStr, Some(out.allCategories.error))
      ensures out.allCategories.Success? ==> (reply, err) == (CategoriesText(out.allCategories.value), None)
    {
      calls := calls + [StoreGetAllCategories(msg.userId)];
      if out.allCategories.Failure? {
        return ServiceErrorStr, Some(out.allCategories.error);
      }
      return CategoriesText(out.allCategories.value), None;
    }

    /** handleCommandCurrencyAll: every rate, in code order. */
    method HandleCurrencyAll(env: Env) returns (reply: string, err: Option<Error>)
      ensures err == None && reply != ""
      ensures forall listed :: IsListing(listed, currencies.currencies) ==> reply == CurrencyListText(listed, env)
      ensures exists listed :: IsListing(listed, currencies.currencies)
    {
      var currs := currencies.GetAllCurrencies();
      reply, err := CurrencyListText(currs, env), None;
      forall listed | IsListing(listed, currencies.currencies) ensures reply == CurrencyListText(listed, env) {
        ListingUnique(listed, currs, currencies.currencies);
      }
    }

    /** handleCommandCurrencyActive */
    method HandleCurrencyActive(msg: Message, out: Outcomes, env: Env) returns (reply: string, err: Option<Error>)
      requires Valid()
      modifies this, currCache
      ensures Valid()
      ensures reply != ""
      ensures |calls| >= |old(calls)| && calls[..|old(calls)|] == old(calls)
      ensures NoSends(calls[|old(calls)|..])
      ensures (reply, err) == ActiveReply(CurrencyLookup(old(currCache.queue), msg.userId, out.activeCurrency), currencies.currencies, env)
      ensures var curr := CurrencyLookup(old(currCache.queue), msg.userId, out.activeCurrency);
        curr.Success? ==> Find(currCache.queue, CurrencyKey(msg.userId)) == Some(curr.value)
      ensures calls == old(calls) + LookupCalls(old(currCache.queue), msg.userId)
      ensures currCache.queue == AfterLookup(old(currCache.queue), currCache.capacity, msg.userId, out.activeCurrency)
      ensures unchanged(reportCache)
    {
      var curr := GetActiveCurrencyFromCacheAndDB(msg.userId, out.activeCurrency);
      if curr.Failure? {
        return ServiceErrorStr, Some(curr.error);
      }
      var value := currencies.GetCurrencyValue(curr.value);
      if value.Failure? {
        return CurrencyErrorStr, Some(value.error);
      }
      return ActiveCurrencyText(curr.value, value.value, env), None;
    }

    /**
     * handleCommandCurrencySet: checks the code against the rate table, stores
     * it, puts it in the currency cache and answers as /curget.
     */
    method HandleCurrencySet(msg: Message, out: Outcomes, env: Env) returns (reply: string, err: Option<Error>)
      requires Valid()
      modifies this, currCache
      ensures Valid()
      ensures reply != ""
      ensures |calls| >= |old(calls)| && calls[..|old(calls)|] == old(calls)
      ensures NoSends(calls[|old(calls)|..])
      ensures var code := CurrencyArgument(msg.text);
              var table := currencies.currencies;
              && (code.None? ==> (reply, err) == ("Active currency not set", None) && calls == old(calls))
              && (code.Some? && code.value !in table ==>
                    (reply, err) == ("Unknown currency", Some(ErrCurrencyNotSupported)) && calls == old(calls))
              && (code.None? || code.value !in table ==> currCache.queue == old(currCache.queue))
              && (code.Some? && code.value in table ==> calls == old(calls) + [StoreSetActiveCurrency(msg.userId, code.value)])
              && (code.Some? && code.value in table && out.setActiveCurrency.Some? ==>
                    (reply, err) == (ServiceErrorStr, out.setActiveCurrency) && currCache.queue == old(currCache.queue))
              && (code.Some? && code.value in table && out.setActiveCurrency.None? ==>
                    && (reply, err) == (ActiveCurrencyText(code.value, table[code.value], env), None)
                    && Find(currCache.queue, CurrencyKey(msg.userId)) == Some(code.value)
                    && currCache.queue == AddSpec(old(currCache.queue), currCache.capacity, CurrencyKey(msg.userId), code.value).queue)
      ensures unchanged(reportCache)
    {
      var code := CurrencyArgument(msg.text);
      if code.None? {
        return "Active currency not set", None;
      }
      var currCharCode := code.value;
      var value := currencies.GetCurrencyValue(currCharCode);
      if value.Failure? {
        return "Unknown currency", Some(value.error);
      }
      calls := calls + [StoreSetActiveCurrency(msg.userId, currCharCode)];
      if out.setActiveCurrency.Some? {
        return ServiceErrorStr, out.setActiveCurrency;
      }
      AddLookup(currCache.queue, currCache.capacity, CurrencyKey(msg.userId), currCharCode, CurrencyKey(msg.userId));
      LookupAfterAdd(currCache.queue, currCache.capacity, msg.userId, currCharCode, out.activeCurrency);
      var _ := currCache.Add(CurrencyKey(msg.userId), currCharCode);
      reply, err := HandleCurrencyActive(msg, out, env);
    }

    /** handleCommandLimitGet */
    method HandleLimitGet(msg: Message, out: Outcomes, env: Env) returns (reply: string, err: Option<Error>)
      requires Valid()
      modifies this, currCache
      ensures Valid()
      ensures reply != ""
      ensures |calls| >= |old(calls)| && calls[..|old(calls)|] == old(calls)
      ensures NoSends(calls[|old(calls)|..])
      ensures (reply, err) == LimitReply(out.limit, CurrencyLookup(old(currCache.queue), msg.userId, out.activeCurrency), currencies.currencies, env)
      ensures calls == old(calls) + LimitGetCalls(old(currCache.queue), msg.userId, out.limit)
      ensures currCache.queue == AfterLimitGet(old(currCache.queue), currCache.capacity, msg.userId, out.limit, out.activeCurrency)
      ensures CurrencyLookup(old(currCache.queue), msg.userId, out.activeCurrency).Success? ==>
        CurrencyLookup(currCache.queue, msg.userId, out.activeCurrency) == CurrencyLookup(old(currCache.queue), msg.userId, out.activeCurrency)
      ensures unchanged(reportCache)
    {
      calls := calls + [StoreGetLimit(msg.userId)];
      if out.limit.Failure? {
        if out.limit.error == ErrLimitNotSet {
          return LimitText(None, 1.0, "", env), None;
        }
        return ServiceErrorStr, Some(out.limit.error);
      }
      var curr := GetActiveCurrencyFromCacheAndDB(msg.userId, out.activeCurrency);
      if curr.Failure? {
        return ServiceErrorStr, Some(curr.error);
      }
      var value := currencies.GetCurrencyValue(curr.value);
      if value.Failure? {
        return CurrencyErrorStr, Some(value.error);
      }
      return LimitText(Some(out.limit.value), value.value, curr.value, env), None;
    }

    /**
     * The setting branch of handleCommandLimitSet: converts the amount from
     * the active currency to roubles and stores it as the limit. `done` says
     * whether the handler goes on to answer as /limitget; otherwise the reply
     * is the error answer.
     */
    method StoreConvertedLimit(userId: UserId, amount: Decimal, out: Outcomes) returns (done: bool, reply: string, err: Option<Error>)
      requires Valid()
      modifies this, currCache
      ensures Valid()
      ensures |calls| >= |old(calls)| && calls[..|old(calls)|] == old(calls)
      ensures NoSends(calls[|old(calls)|..])
      ensures var curr := CurrencyLookup(old(currCache.queue), userId, out.activeCurrency);
              var table := currencies.currencies;
              && (curr.Failure? ==> !done && (reply, err) == (ServiceErrorStr, Some(curr.error)))
              && (curr.Success? && curr.value !in table ==> !done && (reply, err) == (CurrencyErrorStr, Some(ErrCurrencyNotSupported)))
              && (curr.Success? && curr.value in table ==>
                    && (done <==> out.setLimit.None?)
                    && (out.setLimit.Some? ==> (reply, err) == (ServiceErrorStr, out.setLimit)))
              && (curr.Success? ==> CurrencyLookup(currCache.queue, userId, out.activeCurrency) == curr)
      ensures calls == old(calls) + SetLimitCalls(old(currCache.queue), userId, amount, out.activeCurrency, currencies.currencies)
      ensures currCache.queue == AfterLookup(old(currCache.queue), currCache.capacity, userId, out.activeCurrency)
      ensures unchanged(reportCache)
    {
      done, reply, err := false, "", None;
      var curr := GetActiveCurrencyFromCacheAndDB(userId, out.activeCurrency);
      if curr.Failure? {
        return false, ServiceErrorStr, Some(curr.error);
      }
      var value := currencies.GetCurrencyValue(curr.value);
      if value.Failure? {
        return false, CurrencyErrorStr, Some(value.error);
      }
      ghost var looked := calls;
      assert looked == old(calls) + LookupCalls(old(currCache.queue), userId);
      assert NoSends(looked[|old(calls)|..]) by {
        assert looked[|old(calls)|..] == LookupCalls(old(currCache.queue), userId);
      }
      var call := StoreSetLimit(userId, ToRoubles(amount, value.value));
      calls := calls + [call];
      NoSendsExtend(looked, calls, |old(calls)|);
      if out.setLimit.Some? {
        return false, ServiceErrorStr, out.setLimit;
      }
      done := true;
    }

    /**
     * handleCommandLimitSet: one word drops the limit; otherwise the amount,
     * converted from the active currency to roubles, becomes the limit; then
     * answers as /limitget.
     */
    method HandleLimitSet(msg: Message, out: Outcomes, env: Env) returns (reply: string, err: Option<Error>)
      requires Valid()
      modifies this, currCache
      ensures Valid()
      ensures reply != ""
      ensures |calls| >= |old(calls)| && calls[..|old(calls)|] == old(calls)
      ensures NoSends(calls[|old(calls)|..])
      ensures var q := old(currCache.queue);
              var curr := CurrencyLookup(q, msg.userId, out.activeCurrency);
              var table := currencies.currencies;
              match LimitArgument(msg.text, env)
              case LimitUnknownAmount =>
                (reply, err) == ("Unknown amount", Some(ErrInvalidDecimal)) && calls == old(calls) && currCache.queue == q
              case DropLimit =>
                && (out.dropLimit.Some? ==>
                      && (reply, err) == (ServiceErrorStr, out.dropLimit)
                      && calls == old(calls) + [StoreDropLimit(msg.userId)]
                      && currCache.queue == q)
                && (out.dropLimit.None? ==>
                      && (reply, err) == LimitReply(out.limit, curr, table, env)
                      && calls == old(calls) + [StoreDropLimit(msg.userId)] + LimitGetCalls(q, msg.userId, out.limit)
                      && currCache.queue == AfterLimitGet(q, currCache.capacity, msg.userId, out.limit, out.activeCurrency))
              case SetLimit(amount) =>
                && currCache.queue == AfterLookup(q, currCache.capacity, msg.userId, out.activeCurrency)
                && calls == old(calls) + SetLimitCalls(q, msg.userId, amount, out.activeCurrency, table) +
                     (if curr.Success? && curr.value in table && out.setLimit.None? then [StoreGetLimit(msg.userId)] else [])
                && (curr.Failure? ==> (reply, err) == (ServiceErrorStr, Some(curr.error)))
                && (curr.Success? && curr.value !in table ==> (reply, err) == (CurrencyErrorStr, Some(ErrCurrencyNotSupported)))
                && (curr.Success? && curr.value in table ==>
                      && (out.setLimit.Some? ==> (reply, err) == (ServiceErrorStr, out.setLimit))
                      && (out.setLimit.None? ==> (reply, err) == LimitReply(out.limit, curr, table, env)))
      ensures unchanged(reportCache)
    {
      var request := LimitArgument(msg.text, env);
      if request.DropLimit? {
        calls := calls + [StoreDropLimit(msg.userId)];
        NoSendsExtend(old(calls), calls, |old(calls)|);
        if out.dropLimit.Some? {
          return ServiceErrorStr, out.dropLimit;
        }
      } else if request.LimitUnknownAmount? {
        return "Unknown amount", Some(ErrInvalidDecimal);
      } else {
        if CurrencyLookup(currCache.queue, msg.userId, out.activeCurrency).Success? {
          AfterLookupAgain(currCache.queue, currCache.capacity, msg.userId, out.activeCurrency, out.activeCurrency);
        }
        var done;
        done, reply, err := StoreConvertedLimit(msg.userId, request.amount, out);
        if !done {
          return;
        }
      }
      ghost var before := calls;
      reply, err := HandleLimitGet(msg, out, env);
      NoSendsExtend(before, calls, |old(calls)|);
    }

    /**
     * proceedCommand: runs the handler of a recognised command; /repw, /repm
     * and /repa report over the window `ReportWindow` selects.
     */
    method ProceedCommand(command: string, msg: Message, out: Outcomes, env: Env, clock: Clock) returns (reply: string, err: Option<Error>)
      requires Valid()
      requires command == CommandOf(msg.text)
      requires env.parseDate(CommandCreateSpending).None? && env.parseDecimal(CommandCreateSpending).None?
      modifies this, currCache, reportCache
      ensures Valid()
      ensures |calls| >= |old(calls)| && calls[..|old(calls)|] == old(calls)
      ensures reply != ""
      ensures NoSends(calls[|old(calls)|..])
      ensures command == CommandStart ==> (reply, err) == (StartReply, None) && calls == old(calls)
      ensures command == CommandUnknown ==> (reply, err) == (UnknownReply, None) && calls == old(calls)
      ensures ReportWindow(command, clock).Some? ==>
        ReportAnswered(old(reportCache.queue), reportCache.queue, old(currCache.queue), currCache.queue, currCache.capacity,
                       msg.userId, ReportWindow(command, clock).value, out, env, currencies.currencies, reply, err, calls[|old(calls)|..])
      ensures var p := ParseSpending(msg.text, env, clock.now);
        command == CommandCreateSpending && p.ParsedSpending? ==>
          SpendingAnswered(old(reportCache.queue), reportCache.queue, old(currCache.queue), currCache.queue, currCache.capacity,
                           msg.userId, p.category, p.amount, p.date, out, clock, currencies.currencies, reply, err, calls[|old(calls)|..])
      ensures CachesAfterCommand(command, msg.text, msg.userId, out, env, clock, currencies.currencies,
                                 old(reportCache.queue), reportCache.queue, old(currCache.queue), currCache.queue, currCache.capacity)
    {
      var window := ReportWindow(command, clock);
      if command == CommandStart {
        reply, err := StartReply, None;
      } else if window.Some? {
        reply, err := HandleReport(msg, window.value.period, window.value.first, window.value.last, out, env);
        ReportDispatchedIff(old(reportCache.queue), reportCache.queue, old(currCache.queue), currCache.queue, currCache.capacity,
                            msg.userId, window.value, out, env, currencies.currencies, reply, err, calls[|old(calls)|..]);
      } else if command == CommandCreateSpending {
        reply, err := HandleCreateSpending(msg, out, env, clock);
      } else if command == CommandCreateCategory {
        reply, err := HandleCreateCategory(msg, out);
      } else if command == CommandGetAllCategories {
        reply, err := HandleGetAllCategories(msg, out);
      } else if command == CommandCurrencyAll {
        reply, err := HandleCurrencyAll(env);
      } else if command == CommandCurrencyActive {
        reply, err := HandleCurrencyActive(msg, out, env);
      } else if command == CommandCurrencySet {
        reply, err := HandleCurrencySet(msg, out, env);
      } else if command == CommandLimitGet {
        reply, err := HandleLimitGet(msg, out, env);
      } else if command == CommandLimitSet {
        reply, err := HandleLimitSet(msg, out, env);
      } else {
        reply, err := UnknownReply, None;
      }
    }

    /**
     * IncomingMessage: recognises the command, runs it and sends the reply;
     * the error returned is the sender's, the handler's own error is dropped
     * (it is kept in `handled` only so that the contract can name it).
     */
    method IncomingMessage(msg: Message, out: Outcomes, env: Env, clock: Clock) returns (err: Option<Error>, ghost handled: Option<Error>)
      requires Valid()
      requires env.parseDate(CommandCreateSpending).None? && env.parseDecimal(CommandCreateSpending).None?
      modifies this, currCache, reportCache
      ensures Valid()
      ensures err == out.send
      ensures |calls| > |old(calls)| && calls[..|old(calls)|] == old(calls)
      ensures calls[|calls| - 1].SendMessage? && calls[|calls| - 1].userId == msg.userId && calls[|calls| - 1].text != ""
      ensures forall i :: |old(calls)| <= i < |calls| - 1 ==> !calls[i].SendMessage?
      ensures CommandOf(msg.text) == CommandStart ==> calls == old(calls) + [SendMessage(msg.userId, StartReply)]
      ensures CommandOf(msg.text) == CommandUnknown ==> calls == old(calls) + [SendMessage(msg.userId, UnknownReply)]
      ensures var window := ReportWindow(CommandOf(msg.text), clock);
        window.Some? ==>
          ReportAnswered(old(reportCache.queue), reportCache.queue, old(currCache.queue), currCache.queue, currCache.capacity,
                         msg.userId, window.value, out, env, currencies.currencies,
                         calls[|calls| - 1].text, handled, calls[|old(calls)|..|calls| - 1])
      ensures var p := ParseSpending(msg.text, env, clock.now);
        CommandOf(msg.text) == CommandCreateSpending && p.ParsedSpending? ==>
          SpendingAnswered(old(reportCache.queue), reportCache.queue, old(currCache.queue), currCache.queue, currCache.capacity,
                           msg.userId, p.category, p.amount, p.date, out, clock, currencies.currencies,
                           calls[|calls| - 1].text, handled, calls[|old(calls)|..|calls| - 1])
      ensures CachesAfterCommand(CommandOf(msg.text), msg.text, msg.userId, out, env, clock, currencies.currencies,
                                 old(reportCache.queue), reportCache.queue, old(currCache.queue), currCache.queue, currCache.capacity)
    {
      var command := "";
      if msg.text != "" {
        command := Split(msg.text, ' ')[0];
      }
      if command !in KnownCommands {
        command := CommandUnknown;
      }
      var message;
      message, err := ProceedCommand(command, msg, out, env, clock);
      handled := err;
      ghost var handledCalls := calls[|old(calls)|..];
      if message != "" {
        calls := calls + [SendMessage(msg.userId, message)];
        err := out.send;
      }
      assert calls[|old(calls)|..|calls| - 1] == handledCalls;
    }
  }
}
