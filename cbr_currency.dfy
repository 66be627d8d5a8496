/**
 * The in-memory currency rate table of internal/currency/cbrcurrency/currency.go:
 * rates in roubles per unit, seeded with RUB = 1 and filled from the central
 * bank's daily feed (already fetched and decoded here).
 */
module CbrCurrency {
  import opened Wrappers
  import opened Repository
  import opened Strings

  /** One <Valute> element of the daily feed, as decoded text. */
  datatype Valute = Valute(charCode: string, nominal: string, value: string)

  /** currency.Currency: a code and its rate. */
  datatype Currency = Currency(charCode: string, value: Decimal)

  /** The divisor a non-empty <Nominal> gives: its value, or 1 when it does not parse. */
  function NominalOf(nominal: string, env: Env): (n: Decimal)
    ensures env.parseDecimal(nominal).None? ==> n == 1.0
    ensures env.parseDecimal(nominal).Some? ==> n == env.parseDecimal(nominal).value
  {
    match env.parseDecimal(nominal)
    case Some(n) => n
    case None => 1.0
  }

  /**
   * The rate one feed entry contributes: the value with decimal commas
   * turned into points, divided by a non-empty nominal; nothing when the
   * value does not parse.
   */
  function EntryRate(v: Valute, env: Env): (r: Option<Decimal>)
    ensures r.None? <==> env.parseDecimal(ReplaceAll(v.value, ',', '.')).None?
    ensures r.Some? && v.nominal == "" ==>
      r.value == env.parseDecimal(ReplaceAll(v.value, ',', '.')).value
    ensures r.Some? && v.nominal != "" ==>
      r.value == env.div(env.parseDecimal(ReplaceAll(v.value, ',', '.')).value, NominalOf(v.nominal, env))
  {
    match env.parseDecimal(ReplaceAll(v.value, ',', '.'))
    case None => None
    case Some(rate) => if v.nominal == "" then Some(rate) else Some(env.div(rate, NominalOf(v.nominal, env)))
  }

  /** The table after importing the feed entries in order. */
  function Import(table: map<string, Decimal>, feed: seq<Valute>, env: Env): map<string, Decimal>
    decreases |feed|
  {
    if feed == [] then table
    else
      var before := Import(table, feed[..|feed| - 1], env);
      var v := feed[|feed| - 1];
      match EntryRate(v, env)
      case None => before
      case Some(rate) => before[v.charCode := rate]
  }

  /** Importing never removes a code. */
  lemma {:induction false} ImportKeepsCodes(table: map<string, Decimal>, feed: seq<Valute>, env: Env)
    ensures table.Keys <= Import(table, feed, env).Keys
    decreases |feed|
  {
    if feed != [] {
      ImportKeepsCodes(table, feed[..|feed| - 1], env);
    }
  }

  /** A code no usable entry mentions keeps its old presence and rate. */
  lemma {:induction false} ImportUntouched(table: map<string, Decimal>, feed: seq<Valute>, env: Env, code: string)
    requires forall i :: 0 <= i < |feed| && feed[i].charCode == code ==> EntryRate(feed[i], env).None?
    ensures code in Import(table, feed, env) <==> code in table
    ensures code in table ==> Import(table, feed, env)[code] == table[code]
    decreases |feed|
  {
    if feed != [] {
      ImportUntouched(table, feed[..|feed| - 1], env, code);
    }
  }

  /** The last usable entry for a code decides its rate. */
  lemma {:induction false} ImportLastWins(table: map<string, Decimal>, feed: seq<Valute>, env: Env, i: int)
    requires 0 <= i < |feed| && EntryRate(feed[i], env).Some?
    requires forall j :: i < j < |feed| && feed[j].charCode == feed[i].charCode ==> EntryRate(feed[j], env).None?
    ensures feed[i].charCode in Import(table, feed, env)
    ensures Import(table, feed, env)[feed[i].charCode] == EntryRate(feed[i], env).value
    decreases |feed|
  {
    if i < |feed| - 1 {
      ImportLastWins(table, feed[..|feed| - 1], env, i);
    }
  }

  /** Strictly ascending in byte order: every code once, in sort.Strings order. */
  predicate Ascending(s: seq<string>)
  {
    forall i, j :: 0 <= i < j < |s| ==> Less(s[i], s[j])
  }

  /** s with k inserted at its place in the order. */
  function Insert(s: seq<string>, k: string): (r: seq<string>)
    requires Ascending(s) && k !in s
    ensures Ascending(r)
    ensures forall x :: x in r <==> x in s || x == k
    ensures |r| == |s| + 1
  {
    if s == [] then [k]
    else if Less(k, s[0]) then
      assert forall j :: 0 < j < |s| ==> Less(k, s[j]) by {
        forall j | 0 < j < |s| ensures Less(k, s[j]) {
          LessTransitive(k, s[0], s[j]);
        }
      }
      [k] + s
    else
      LessTotal(k, s[0]);
      var rest := Insert(s[1..], k);
      assert forall x :: x in rest ==> Less(s[0], x) by {
        forall x | x in rest ensures Less(s[0], x) {
          if x != k {
            var j :| 0 <= j < |s[1..]| && s[1..][j] == x;
            assert s[j + 1] == x;
          }
        }
      }
      [s[0]] + rest
  }

  /** The codes of a listing, in order. */
  function CodesOf(cs: seq<Currency>): seq<string>
  {
    seq(|cs|, i requires 0 <= i < |cs| => cs[i].charCode)
  }

  /** In an ascending sequence the head is the least member. */
  lemma AscendingHead(s: seq<string>, x: string)
    requires Ascending(s) && x in s
    ensures x == s[0] || Less(s[0], x)
  {
    var j :| 0 <= j < |s| && s[j] == x;
    if j > 0 {
      assert Less(s[0], s[j]);
    }
  }

  /** In an ascending sequence the tail holds exactly the members other than the head. */
  lemma AscendingTail(s: seq<string>)
    requires Ascending(s) && s != []
    ensures forall x :: x in s[1..] <==> x in s && x != s[0]
  {
    forall x ensures x in s[1..] <==> x in s && x != s[0] {
      if x in s[1..] {
        var j :| 0 <= j < |s[1..]| && s[1..][j] == x;
        assert Less(s[0], s[j + 1]);
        LessIrreflexive(x);
      }
      if x in s && x != s[0] {
        var j :| 0 <= j < |s| && s[j] == x;
        assert s[1..][j - 1] == x;
      }
    }
  }

  lemma HeadIsMember(s: seq<string>)
    requires s != []
    ensures s[0] in s
  {
    assert s == [s[0]] + s[1..];
  }

  /** Two ascending sequences with the same members are the same sequence. */
  lemma {:induction false} AscendingUnique(s: seq<string>, t: seq<string>)
    requires Ascending(s) && Ascending(t)
    requires forall x :: x in s <==> x in t
    ensures s == t
    decreases |s|
  {
    if s != [] && t != [] {
      AscendingHead(s, t[0]);
      AscendingHead(t, s[0]);
      if s[0] != t[0] {
        LessAsymmetric(s[0], t[0]);
      }
      AscendingTail(s);
      AscendingTail(t);
      AscendingUnique(s[1..], t[1..]);
      assert s == [s[0]] + s[1..] && t == [t[0]] + t[1..];
    } else if s != [] {
      HeadIsMember(s);
    } else if t != [] {
      HeadIsMember(t);
    }
  }

  /** listed holds every code of the table once, in ascending order, with its rate. */
  ghost predicate IsListing(listed: seq<Currency>, table: map<string, Decimal>)
  {
    && Ascending(CodesOf(listed))
    && (forall c :: c in CodesOf(listed) <==> c in table)
    && (forall i :: 0 <= i < |listed| ==> listed[i].charCode in table && listed[i].value == table[listed[i].charCode])
  }

  /** A table has one listing: the reply to /curall does not depend on map order. */
  lemma ListingUnique(a: seq<Currency>, b: seq<Currency>, table: map<string, Decimal>)
    requires IsListing(a, table) && IsListing(b, table)
    ensures a == b
  {
    AscendingUnique(CodesOf(a), CodesOf(b));
    assert |a| == |CodesOf(a)| == |CodesOf(b)| == |b|;
    forall i | 0 <= i < |a| ensures a[i] == b[i] {
      assert CodesOf(a)[i] == a[i].charCode && CodesOf(b)[i] == b[i].charCode;
    }
  }

  class CbrCurrencyStorage {
    /** Rate per code. */
    var currencies: map<string, Decimal>

    /**
     * NewCbrCurrencyStorage: seeds RUB = 1 and imports the first fetch when
     * it succeeded (`fetched` is None when the request or decoding failed).
     */
    constructor (fetched: Option<seq<Valute>>, env: Env)
      ensures fetched.None? ==> currencies == map["RUB" := 1.0]
      ensures fetched.Some? ==> currencies == Import(map["RUB" := 1.0], fetched.value, env)
      ensures "RUB" in currencies
    {
      currencies := map["RUB" := 1.0];
      new;
      if fetched.Some? {
        ImportKeepsCodes(map["RUB" := 1.0], fetched.value, env);
        ValCursToCbrCurrencyStorage(fetched.value, env);
      }
    }

    /** valCursToCbrCurrencyStorage: writes each usable feed entry's rate. */
    method ValCursToCbrCurrencyStorage(feed: seq<Valute>, env: Env)
      modifies this
      ensures currencies == Import(old(currencies), feed, env)
    {
      ghost var table := currencies;
      for i := 0 to |feed|
        invariant currencies == Import(table, feed[..i], env)
      {
        assert feed[..i + 1][..i] == feed[..i];
        var v := feed[i];
        var valueStr := ReplaceAll(v.value, ',', '.');
        var parsed := env.parseDecimal(valueStr);
        if parsed.None? {
          continue;
        }
        var valueDecimal := parsed.value;
        if v.nominal != "" {
          var nominal := env.parseDecimal(v.nominal);
          var divisor := if nominal.Some? then nominal.value else 1.0;
          valueDecimal := env.div(valueDecimal, divisor);
        }
        currencies := currencies[v.charCode := valueDecimal];
      }
      assert feed[..|feed|] == feed;
    }

    /** Every stored code once, in ascending order, with its rate. */
    method GetAllCurrencies() returns (result: seq<Currency>)
      ensures Ascending(CodesOf(result))
      ensures forall c :: c in CodesOf(result) <==> c in currencies
      ensures forall i :: 0 <= i < |result| ==>
        result[i].charCode in currencies && result[i].value == currencies[result[i].charCode]
      ensures |result| == |currencies|
      ensures IsListing(result, currencies)
    {
      var keys: seq<string> := [];
      var rest := currencies.Keys;
      while rest != {}
        invariant rest <= currencies.Keys
        invariant Ascending(keys)
        invariant forall k :: k in keys <==> k in currencies && k !in rest
        invariant |keys| + |rest| == |currencies|
        decreases |rest|
      {
        var k :| k in rest;
        keys := Insert(keys, k);
        rest := rest - {k};
      }
      result := [];
      for i := 0 to |keys|
        invariant |result| == i
        invariant forall j :: 0 <= j < i ==> result[j] == Currency(keys[j], currencies[keys[j]])
      {
        result := result + [Currency(keys[i], currencies[keys[i]])];
      }
      assert CodesOf(result) == keys;
    }

    /** The rate of curr; ErrCurrencyNotSupported when it has none. */
    function GetCurrencyValue(curr: string): (r: Result<Decimal, Error>)
      reads this
      ensures r.Failure? <==> curr !in currencies
      ensures r.Failure? ==> r.error == ErrCurrencyNotSupported
      ensures r.Success? ==> r.value == currencies[curr]
    {
      if curr in currencies then Success(currencies[curr]) else Failure(ErrCurrencyNotSupported)
    }
  }
}
