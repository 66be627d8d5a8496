/**
 * The pure part of internal/model/messages/incoming_msg.go: recognising the
 * command of a message, picking the report window, taking the arguments of
 * /addexp, /newcat, /curset and /limitset apart, and laying out the replies.
 */
module Commands {
  import opened Wrappers
  import opened Repository
  import opened Strings
  import opened CbrCurrency

  // ---------------------------------------------------------------------------
  // Commands and fixed replies

  const CommandStart := "/start"
  const CommandCreateSpending := "/addexp"
  const CommandCreateCategory := "/newcat"
  const CommandGetAllCategories := "/listcat"
  const CommandReportWeekly := "/repw"
  const CommandReportMonthly := "/repm"
  const CommandReportAnnual := "/repa"
  const CommandCurrencyAll := "/curall"
  const CommandCurrencyActive := "/curget"
  const CommandCurrencySet := "/curset"
  const CommandLimitGet := "/limitget"
  const CommandLimitSet := "/limitset"
  const CommandUnknown := "/unknown"

  /** The twelve commands the bot answers. */
  const KnownCommands: set<string> := {
    CommandStart, CommandCreateSpending, CommandCreateCategory, CommandGetAllCategories,
    CommandReportWeekly, CommandReportMonthly, CommandReportAnnual,
    CommandCurrencyAll, CommandCurrencyActive, CommandCurrencySet,
    CommandLimitGet, CommandLimitSet }

  const MessageHello := "Hello! I can help you manage your spendings."
  const MessageHelp :=
    "You can control me by sending these commands:\n\n" +
    "*Expenses*\n" +
    CommandCreateSpending + " <category name> <amount> \\[dd/mm/yy]  - add new expense" + "\n\n" +
    "*Edit Categories*\n" +
    CommandCreateCategory + " <category name> - create a new expense category\n" +
    CommandGetAllCategories + " - get a list of your expense categories\n\n" +
    "*Reports*\n" +
    CommandReportWeekly + " - get a weekly report by category\n" +
    CommandReportMonthly + " - get a monthly report by category\n" +
    CommandReportAnnual + " - get the annual report by category\n\n" +
    "*Currencies*\n" +
    CommandCurrencyAll + " - get currency list\n" +
    CommandCurrencyActive + " - get active currency\n" +
    CommandCurrencySet + " <CUR> - set active currency\n\n" +
    "*Limits*\n" +
    CommandLimitGet + " - get month expense limit\n" +
    CommandLimitSet + " \\[amount] - set month expense limit. If the value is" +
    " not set, then there will be no limit."

  /** The reply to /start. */
  const StartReply := MessageHello + "\n\n" + MessageHelp
  /** The reply to anything that is not a known command. */
  const UnknownReply := "Я не знаю эту команду"
  const ServiceErrorStr := "Service error, try again later"
  const CurrencyErrorStr := "Currency service error, try again later"

  /** currency.CharCodeToName: the display names of the currencies the bank quotes. */
  const CharCodeToName: map<string, string> := map[
    "AUD" := "Австралийский доллар",
    "AZN" := "Азербайджанский манат",
    "GBP" := "Фунт стерлингов Соединенного королевства",
    "AMD" := "Армянская драма",
    "BYN" := "Белорусский рубль",
    "BGN" := "Болгарский лев",
    "BRL" := "Бразильский реал",
    "HUF" := "Венгерский форинт",
    "HKD" := "Гонконгский доллар",
    "DKK" := "Датская крона",
    "USD" := "Доллар США",
    "EUR" := "Евро",
    "INR" := "Индийская рупия",
    "KZT" := "Казахстанский тенге",
    "CAD" := "Канадский доллар",
    "KGS" := "Киргизский сом",
    "CNY" := "Китайский юань",
    "MDL" := "Молдавский лей",
    "NOK" := "Норвежская крона",
    "PLN" := "Польский злотый",
    "RON" := "Румынский лей",
    "RUB" := "Российский рубль",
    "XDR" := "СДР (специальные права заимствования)",
    "SGD" := "Сингапурский доллар",
    "TJS" := "Таджикский сомони",
    "TRY" := "Турецкая лира",
    "TMT" := "Новый туркменский манат",
    "UZS" := "Узбекский сум",
    "UAH" := "Украинская гривна",
    "CZK" := "Чешская крона",
    "SEK" := "Шведская крона",
    "CHF" := "Швейцарский франк",
    "ZAR" := "Южноафриканский рэнд",
    "KRW" := "Вона Республики Корея",
    "JPY" := "Японская иена"]

  // ---------------------------------------------------------------------------
  // Command recognition

  /** The command a message selects: its first space-separated word when that is known, else /unknown. */
  function CommandOf(text: string): (command: string)
    ensures command in KnownCommands || command == CommandUnknown
    ensures command in KnownCommands <==> text != "" && Split(text, ' ')[0] in KnownCommands
    ensures command in KnownCommands ==> command == Split(text, ' ')[0]
  {
    var first := if text != "" then Split(text, ' ')[0] else "";
    if first in KnownCommands then first else CommandUnknown
  }

  /** A known command typed alone, or followed by a space and anything, is recognised. */
  lemma CommandOfKnown(command: string, rest: string)
    requires command in KnownCommands
    ensures CommandOf(command) == command
    ensures CommandOf(command + " " + rest) == command
  {
    assert ' ' !in command;
    SplitJoin([command], ' ');
    FirstPiece(command, rest, ' ');
  }

  /** "some text" is not a command. */
  lemma CommandOfSomeText()
    ensures CommandOf("some text") == CommandUnknown
  {
    assert "some text" == "some" + [' '] + "text";
    FirstPiece("some", "text", ' ');
    assert "some" !in KnownCommands;
  }

  /** A report command's period code and window. */
  datatype Window = Window(period: string, first: Time, last: Time)

  /** /repw, /repm and /repa select a week, a month and a year back from now. */
  function ReportWindow(command: string, clock: Clock): Option<Window>
  {
    if command == CommandReportWeekly then Some(Window("W", clock.weekAgo, clock.now))
    else if command == CommandReportMonthly then Some(Window("M", clock.monthAgo, clock.now))
    else if command == CommandReportAnnual then Some(Window("Y", clock.yearAgo, clock.now))
    else None
  }

  /** The three windows end now, are non-empty and nest: week inside month inside year. */
  lemma ReportWindowsNest(clock: Clock)
    requires clock.Ordered()
    ensures var w := ReportWindow(CommandReportWeekly, clock).value;
            var m := ReportWindow(CommandReportMonthly, clock).value;
            var y := ReportWindow(CommandReportAnnual, clock).value;
            w.last == m.last == y.last == clock.now &&
            y.first < m.first < w.first < w.last &&
            |{w.period, m.period, y.period}| == 3
  {
  }

  // ---------------------------------------------------------------------------
  // /addexp <category words> <amount> [dd/mm/yy]

  /** What handleCommandCreateSpending makes of the words of a message. */
  datatype SpendingParse =
    | ParsedSpending(category: string, amount: Decimal, date: Time)
    | UnknownAmount
    | UnknownCategory
    | IndexOutOfRange  // the index or slice the source takes would panic

  /** Where the amount is: the last word, or the one before it when the last is a date. */
  function AmountIndex(elements: seq<string>, env: Env): (i: int)
    requires |elements| >= 1
    ensures i == |elements| - 1 || i == |elements| - 2
    ensures i == |elements| - 2 <==> env.parseDate(elements[|elements| - 1]).Some?
  {
    if env.parseDate(elements[|elements| - 1]).Some? then |elements| - 2 else |elements| - 1
  }

  /**
   * The date, amount and category of /addexp: a trailing date is optional (now
   * otherwise), the amount comes before it, and the category is the words in
   * between, joined by single spaces and trimmed.
   */
  function ParseSpending(text: string, env: Env, now: Time): (r: SpendingParse)
    ensures var elements := Split(text, ' ');
            var i := AmountIndex(elements, env);
            && (r.IndexOutOfRange? <==> i < 0 || (i == 0 && env.parseDecimal(elements[0]).Some?))
            && (r.UnknownAmount? <==> 0 <= i && env.parseDecimal(elements[i]).None?)
            && (r.UnknownCategory? <==> 1 <= i && env.parseDecimal(elements[i]).Some? && AllSpace(Join(elements[1..i], ' ')))
            && (r.ParsedSpending? ==>
                  && 1 <= i
                  && r.amount == env.parseDecimal(elements[i]).value
                  && r.category == TrimSpace(Join(elements[1..i], ' '))
                  && r.category != "" && IsTrimmed(r.category)
                  && r.date == (if i == |elements| - 2 then env.parseDate(elements[|elements| - 1]).value else now))
  {
    var elements := Split(text, ' ');
    var lastIndex := AmountIndex(elements, env);
    var date := if lastIndex == |elements| - 2 then env.parseDate(elements[|elements| - 1]).value else now;
    if lastIndex < 0 then IndexOutOfRange
    else
      match env.parseDecimal(elements[lastIndex])
      case None => UnknownAmount
      case Some(amount) =>
        if lastIndex < 1 then IndexOutOfRange
        else
          var categoryName := TrimSpace(Join(elements[1..lastIndex], ' '));
          if categoryName == "" then UnknownCategory
          else ParsedSpending(categoryName, amount, date)
  }

  /**
   * The out-of-range access needs a date or decimal parser that accepts the
   * command word itself; with "/addexp" rejected by both it never happens.
   */
  lemma ParseSpendingInRange(text: string, env: Env, now: Time)
    requires env.parseDate(Split(text, ' ')[0]).None? && env.parseDecimal(Split(text, ' ')[0]).None?
    ensures !ParseSpending(text, env, now).IndexOutOfRange?
  {
    var elements := Split(text, ' ');
    if |elements| == 1 {
      assert AmountIndex(elements, env) == 0;
    }
  }

  /** The words of a message are the words it was typed from. */
  lemma SplitWords(words: seq<string>)
    requires |words| >= 1 && forall i :: 0 <= i < |words| ==> ' ' !in words[i]
    ensures Split(Join(words, ' '), ' ') == words
  {
    SplitJoin(words, ' ');
  }

  /** Two lists of space-free words concatenate to one. */
  lemma SpaceFreeConcat(a: seq<string>, b: seq<string>)
    requires forall i :: 0 <= i < |a| ==> ' ' !in a[i]
    requires forall i :: 0 <= i < |b| ==> ' ' !in b[i]
    ensures forall i :: 0 <= i < |a + b| ==> ' ' !in (a + b)[i]
  {
    forall i | 0 <= i < |a + b| ensures ' ' !in (a + b)[i] {
      if i < |a| {
        assert (a + b)[i] == a[i];
      } else {
        assert (a + b)[i] == b[i - |a|];
      }
    }
  }

  /** A command word, then category words, then the trailing words, all without spaces. */
  lemma MessageWords(command: string, words: seq<string>, tail: seq<string>)
    requires ' ' !in command
    requires |words| >= 1 && forall i :: 0 <= i < |words| ==> ' ' !in words[i]
    requires forall i :: 0 <= i < |tail| ==> ' ' !in tail[i]
    ensures Split(Join([command] + words + tail, ' '), ' ') == [command] + words + tail
  {
    SpaceFreeConcat([command], words);
    SpaceFreeConcat([command] + words, tail);
    SplitWords([command] + words + tail);
  }

  /** Where the category words and the trailing words sit in a message's word list. */
  lemma WordsThenTail(command: string, words: seq<string>, tail: seq<string>)
    ensures var elements := [command] + words + tail;
      && |elements| == 1 + |words| + |tail|
      && elements[1..1 + |words|] == words
      && forall j :: 0 <= j < |tail| ==> elements[1 + |words| + j] == tail[j]
  {
  }

  /** A message whose words have a readable amount after a non-blank category parses to that spending. */
  lemma ParsedAt(text: string, elements: seq<string>, i: int, env: Env, now: Time)
    requires Split(text, ' ') == elements && |elements| >= 1
    requires AmountIndex(elements, env) == i && 1 <= i
    requires env.parseDecimal(elements[i]).Some? && !AllSpace(Join(elements[1..i], ' '))
    ensures ParseSpending(text, env, now) ==
      ParsedSpending(TrimSpace(Join(elements[1..i], ' ')), env.parseDecimal(elements[i]).value,
                     if i == |elements| - 2 then env.parseDate(elements[|elements| - 1]).value else now)
  {
    assert ParseSpending(text, env, now).ParsedSpending?;
  }

  /** "/addexp <words> <amount> <date>" gives back the words, the amount and the date. */
  lemma ParseSpendingDated(command: string, words: seq<string>, amountText: string, dateText: string, env: Env, now: Time)
    requires ' ' !in command && ' ' !in amountText && ' ' !in dateText
    requires |words| >= 1 && forall i :: 0 <= i < |words| ==> ' ' !in words[i]
    requires !AllSpace(Join(words, ' '))
    requires env.parseDecimal(amountText).Some? && env.parseDate(dateText).Some?
    ensures ParseSpending(Join([command] + words + [amountText, dateText], ' '), env, now) ==
      ParsedSpending(TrimSpace(Join(words, ' ')), env.parseDecimal(amountText).value, env.parseDate(dateText).value)
  {
    var elements := [command] + words + [amountText, dateText];
    MessageWords(command, words, [amountText, dateText]);
    WordsThenTail(command, words, [amountText, dateText]);
    ParsedAt(Join(elements, ' '), elements, |elements| - 2, env, now);
  }

  /** Without a trailing date the amount is the last word and the date is now. */
  lemma ParseSpendingUndated(command: string, words: seq<string>, amountText: string, env: Env, now: Time)
    requires ' ' !in command && ' ' !in amountText
    requires |words| >= 1 && forall i :: 0 <= i < |words| ==> ' ' !in words[i]
    requires !AllSpace(Join(words, ' '))
    requires env.parseDecimal(amountText).Some? && env.parseDate(amountText).None?
    ensures ParseSpending(Join([command] + words + [amountText], ' '), env, now) ==
      ParsedSpending(TrimSpace(Join(words, ' ')), env.parseDecimal(amountText).value, now)
  {
    var elements := [command] + words + [amountText];
    MessageWords(command, words, [amountText]);
    WordsThenTail(command, words, [amountText]);
    ParsedAt(Join(elements, ' '), elements, |elements| - 1, env, now);
  }

  // ---------------------------------------------------------------------------
  // /newcat, /curset, /limitset

  /** The category name of /newcat: every word after the command, joined and trimmed. */
  function CategoryArgument(text: string): (name: string)
    ensures IsTrimmed(name)
  {
    TrimSpace(Join(Split(text, ' ')[1..], ' '))
  }

  /** "/newcat <name>" gives back a trimmed name exactly. */
  lemma CategoryArgumentRoundTrip(command: string, name: string)
    requires ' ' !in command && IsTrimmed(name)
    ensures CategoryArgument(command + " " + name) == name
  {
    FirstPiece(command, name, ' ');
    JoinSplit(name, ' ');
  }

  /** The currency code of /curset, upper-cased; none when the message is one word. */
  function CurrencyArgument(text: string): (code: Option<string>)
    ensures code.None? <==> ' ' !in text
    ensures code.Some? ==> |Split(text, ' ')| >= 2 && code.value == ToUpper(Split(text, ' ')[1])
  {
    SplitSingle(text, ' ');
    var elements := Split(text, ' ');
    if |elements| == 1 then None else Some(ToUpper(elements[1]))
  }

  /** "/curset <code>" gives back the code, upper-cased, whatever follows it. */
  lemma CurrencyArgumentRoundTrip(command: string, code: string, rest: string)
    requires ' ' !in command && ' ' !in code
    ensures CurrencyArgument(command + " " + code) == Some(ToUpper(code))
    ensures CurrencyArgument(command + " " + code + " " + rest) == Some(ToUpper(code))
  {
    FirstPiece(command, code, ' ');
    SplitJoin([code], ' ');
    assert command + " " + code + " " + rest == command + [' '] + (code + [' '] + rest);
    FirstPiece(command, code + [' '] + rest, ' ');
    FirstPiece(code, rest, ' ');
  }

  /** What /limitset asks for. */
  datatype LimitRequest = DropLimit | SetLimit(amount: Decimal) | LimitUnknownAmount

  /** One word drops the limit; otherwise the second word is the new limit. */
  function LimitArgument(text: string, env: Env): (r: LimitRequest)
    ensures r.DropLimit? <==> ' ' !in text
    ensures r.SetLimit? ==> |Split(text, ' ')| >= 2 && Some(r.amount) == env.parseDecimal(Split(text, ' ')[1])
    ensures r.LimitUnknownAmount? <==> |Split(text, ' ')| >= 2 && env.parseDecimal(Split(text, ' ')[1]).None?
  {
    SplitSingle(text, ' ');
    var elements := Split(text, ' ');
    if |elements| == 1 then DropLimit
    else
      match env.parseDecimal(elements[1])
      case None => LimitUnknownAmount
      case Some(amount) => SetLimit(amount)
  }

  // ---------------------------------------------------------------------------
  // Reply layout

  /** A header, then " empty" or one line per item. */
  function Listing(header: string, items: seq<string>): (text: string)
    ensures |text| > |header| && text[..|header|] == header
  {
    if items == [] then header + " empty" else header + "\n" + Join(items, '\n')
  }

  /** The lines of a non-empty listing are its header and its items, in order. */
  lemma ListingLines(header: string, items: seq<string>)
    requires '\n' !in header && items != []
    requires forall i :: 0 <= i < |items| ==> '\n' !in items[i]
    ensures Split(Listing(header, items), '\n') == [header] + items
  {
    assert Listing(header, items) == header + ['\n'] + Join(items, '\n');
    SplitConcat(header, Join(items, '\n'), '\n');
    SplitJoin([header], '\n');
    SplitJoin(items, '\n');
  }

  /** /listcat: the category names in listing order. */
  function CategoriesText(cats: seq<Category>): (text: string)
    ensures cats == [] ==> text == "*Categories:* empty"
  {
    Listing("*Categories:*", seq(|cats|, i requires 0 <= i < |cats| => cats[i].name))
  }

  /** Line i + 1 of a non-empty category listing is the name of the i-th category. */
  lemma CategoriesTextLines(cats: seq<Category>)
    requires cats != []
    requires forall i :: 0 <= i < |cats| ==> '\n' !in cats[i].name
    ensures |Split(CategoriesText(cats), '\n')| == |cats| + 1
    ensures Split(CategoriesText(cats), '\n')[0] == "*Categories:*"
    ensures forall i :: 0 <= i < |cats| ==> Split(CategoriesText(cats), '\n')[i + 1] == cats[i].name
  {
    ListingLines("*Categories:*", seq(|cats|, i requires 0 <= i < |cats| => cats[i].name));
  }

  /** One report line: the sum converted to the active currency, two decimals. */
  function ReportLine(line: ReportByCategory, rate: Decimal, curr: string, env: Env): (text: string)
    ensures |text| >= |line.categoryName| + 3 + |curr|
    ensures text[..|line.categoryName| + 2] == line.categoryName + ": "
    ensures text[|text| - |curr| - 1..] == " " + curr
  {
    line.categoryName + ": " + env.fixed2(env.div(line.sum, rate)) + " " + curr
  }

  /** The report reply: a line per category, in the report's order. */
  function ReportText(report: Report, rate: Decimal, curr: string, env: Env): (text: string)
    ensures report.byCategory == [] ==> text == "*Report:* empty"
  {
    var lines := report.byCategory;
    Listing("*Report:*", seq(|lines|, i requires 0 <= i < |lines| => ReportLine(lines[i], rate, curr, env)))
  }

  /** Line i + 1 of a report reply is the line of the report's i-th category. */
  lemma ReportTextLines(report: Report, rate: Decimal, curr: string, env: Env)
    requires report.byCategory != []
    requires forall i :: 0 <= i < |report.byCategory| ==> '\n' !in ReportLine(report.byCategory[i], rate, curr, env)
    ensures |Split(ReportText(report, rate, curr, env), '\n')| == |report.byCategory| + 1
    ensures forall i :: 0 <= i < |report.byCategory| ==>
      Split(ReportText(report, rate, curr, env), '\n')[i + 1] == ReportLine(report.byCategory[i], rate, curr, env)
  {
    var lines := report.byCategory;
    ListingLines("*Report:*", seq(|lines|, i requires 0 <= i < |lines| => ReportLine(lines[i], rate, curr, env)));
  }

  /** A currency's display name suffix, when it has one. */
  function NameSuffix(code: string): (s: string)
    ensures s == "" <==> code !in CharCodeToName
    ensures code in CharCodeToName ==> |s| >= 3 && s[2..|s| - 1] == CharCodeToName[code]
  {
    if code in CharCodeToName then " _" + CharCodeToName[code] + "_" else ""
  }

  /** A currency's line in /curall and /curget: code, rate and display name. */
  function CurrencyLine(code: string, value: Decimal, env: Env): (line: string)
    ensures |line| >= |code| + 1 + |NameSuffix(code)|
    ensures line[..|code| + 1] == code + " "
    ensures line[|line| - |NameSuffix(code)|..] == NameSuffix(code)
  {
    code + " " + env.decimalText(value) + NameSuffix(code)
  }

  /** /curall: one line per currency, in the order given. */
  function CurrencyListText(currs: seq<Currency>, env: Env): (text: string)
    ensures currs == [] ==> text == "*Currency List:* empty"
  {
    Listing("*Currency List:*", seq(|currs|, i requires 0 <= i < |currs| => CurrencyLine(currs[i].charCode, currs[i].value, env)))
  }

  /** /curget: the header, then the active currency's line. */
  function ActiveCurrencyText(curr: string, value: Decimal, env: Env): (text: string)
  {
    "*Active Currency:*" + "\n" + CurrencyLine(curr, value, env)
  }

  /** The /curget reply is two lines: the header, then the active currency's line. */
  lemma ActiveCurrencyTextLines(curr: string, value: Decimal, env: Env)
    requires '\n' !in curr && '\n' !in env.decimalText(value) && '\n' !in NameSuffix(curr)
    ensures Split(ActiveCurrencyText(curr, value, env), '\n') == ["*Active Currency:*", CurrencyLine(curr, value, env)]
  {
    var line := CurrencyLine(curr, value, env);
    assert '\n' !in line by {
      assert line == curr + (" " + env.decimalText(value)) + NameSuffix(curr);
    }
    HeaderAndLine("*Active Currency:*", line);
  }

  /** A newline-free header and line, joined by a newline, split back into the two. */
  lemma HeaderAndLine(header: string, line: string)
    requires '\n' !in header && '\n' !in line
    ensures Split(header + "\n" + line, '\n') == [header, line]
  {
    assert header + "\n" + line == header + ['\n'] + line;
    SplitConcat(header, line, '\n');
    SplitJoin([header], '\n');
    SplitJoin([line], '\n');
  }

  /** /limitget: "not set", or the limit converted to the active currency. */
  function LimitText(limit: Option<Decimal>, rate: Decimal, curr: string, env: Env): (text: string)
    ensures limit.None? ==> text == "*Month limit:* not set"
  {
    "*Month limit:* " + (if limit.None? then "not set" else env.decimalText(env.div(limit.value, rate)) + " " + curr)
  }
}
