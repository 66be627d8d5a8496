/**
 * Scenarios against the contracts of `Model`: the two conversations of
 * internal/model/messages/incoming_msg_test.go, a /curset that later
 * /curget requests answer from the currency cache, and a weekly report miss.
 */
module MessagesTests {
  import opened Wrappers
  import opened Repository
  import opened Strings
  import opened CacheLru
  import opened CbrCurrency
  import opened Commands
  import opened Messages

  /** An environment whose parsers accept nothing. */
  function Rejecting(): (env: Env)
    ensures env.parseDate(CommandCreateSpending).None? && env.parseDecimal(CommandCreateSpending).None?
  {
    Env(s => None, s => None, (a, b) => a, d => "", d => "")
  }

  /** Collaborators that all succeed; the store holds RUB as the active currency. */
  const AllWell := Outcomes(Success("RUB"), None, None, Success([]), None, Failure(ErrLimitNotSet), None, None, None, None)

  method NewModel() returns (m: Model)
    ensures m.Valid() && fresh(m) && fresh(m.currCache) && fresh(m.reportCache)
    ensures m.calls == [] && m.currCache.queue == [] && m.reportCache.queue == []
    ensures m.currencies.currencies == map["RUB" := 1.0]
  {
    var currCache := new LruCache<string>("currency", 1000);
    var reportCache := new LruCache<Report>("report", 1000);
    var currencies := new CbrCurrencyStorage(None, Rejecting());
    m := new Model(currCache, reportCache, currencies);
  }

  /** "/start" is answered with the greeting and the help, and nothing else happens. */
  method OnStartCommandAnswersWithIntro()
  {
    var m := NewModel();
    CommandOfKnown(CommandStart, "");
    var err, _ := m.IncomingMessage(Message("/start", 123), AllWell, Rejecting(), Clock(10, 7, 5, 1));
    assert err == None;
    assert m.calls == [SendMessage(123, MessageHello + "\n\n" + MessageHelp)];
  }

  /** Text that is not a command is answered with "Я не знаю эту команду". */
  method OnUnknownCommandAnswersWithHelp()
  {
    var m := NewModel();
    CommandOfSomeText();
    var err, _ := m.IncomingMessage(Message("some text", 123), AllWell, Rejecting(), Clock(10, 7, 5, 1));
    assert err == None;
    assert m.calls == [SendMessage(123, "Я не знаю эту команду")];
  }

  /** "/curset rub" stores and caches "RUB" and answers with its rate. */
  method CurrencySetIsCached()
  {
    var m := NewModel();
    var text := CommandCurrencySet + " " + "rub";
    CurrencyArgumentRoundTrip(CommandCurrencySet, "rub", "");
    assert ToUpper("rub") == "RUB";
    assert CurrencyArgument(text) == Some("RUB");
    var reply, err := m.HandleCurrencySet(Message(text, 5), AllWell, Rejecting());
    assert "RUB" in m.currencies.currencies;
    assert err == None && reply == ActiveCurrencyText("RUB", 1.0, Rejecting());
    assert m.calls == [StoreSetActiveCurrency(5, "RUB")];
    assert Find(m.currCache.queue, CurrencyKey(5)) == Some("RUB");
    assert m.currCache.queue == [Item(CurrencyKey(5), "RUB")];
  }

  /** A cached code answers /curget even when the store would fail. */
  method CachedCurrencySkipsStore()
  {
    var m := NewModel();
    var _ := m.currCache.Add(CurrencyKey(5), "USD");
    PromoteFront(m.currCache.queue, CurrencyKey(5));
    var store := Outcomes(Failure(ErrExternal(1)), None, None, Success([]), None, Failure(ErrLimitNotSet), None, None, None, None);
    var reply, err := m.HandleCurrencyActive(Message("/curget", 5), store, Rejecting());
    assert err == Some(ErrCurrencyNotSupported) && reply == CurrencyErrorStr;
    assert m.calls == [];
    assert m.currCache.queue == [Item(CurrencyKey(5), "USD")];
  }

  /** "/limitset" alone drops the limit, then answers as /limitget; with no limit set the currency is not looked up. */
  method DropLimitAnswersAsLimitGet()
  {
    var m := NewModel();
    assert ' ' !in CommandLimitSet;
    var reply, err := m.HandleLimitSet(Message(CommandLimitSet, 5), AllWell, Rejecting());
    assert (reply, err) == (LimitText(None, 1.0, "", Rejecting()), None);
    assert m.calls == [StoreDropLimit(5), StoreGetLimit(5)];
    assert m.currCache.queue == [];
  }

  /** "/repw" on an empty report cache hands a week's request to the producer and answers "Report proceeed". */
  method WeeklyReportMissIsDispatched()
  {
    var m := NewModel();
    CommandOfKnown(CommandReportWeekly, "");
    var clock := Clock(10, 7, 5, 1);
    var reply, err := m.ProceedCommand(CommandReportWeekly, Message(CommandReportWeekly, 5), AllWell, Rejecting(), clock);
    assert (reply, err) == ("Report proceeed", None);
    assert m.calls == [DispatchReport(5, "W", 7, 10)];
    assert m.reportCache.queue == [];
  }
}
