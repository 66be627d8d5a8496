/**
 * The in-memory repository of internal/repository/memory/storage.go: categories
 * and spendings in maps keyed by sequential ids, and each user's active currency.
 */
module MemoryStore {
  import opened Wrappers
  import opened Repository

  /** The category record a user and name select. */
  predicate Matches(c: Category, userId: UserId, name: string)
  {
    c.userId == userId && c.name == name
  }

  /** Some stored category belongs to the user and carries the name. */
  ghost predicate HasCategory(categories: map<int, Category>, userId: UserId, name: string)
  {
    exists id :: id in categories && Matches(categories[id], userId, name)
  }

  /** How many of the categories with id below n belong to the user. */
  function OwnedCount(categories: map<int, Category>, n: nat, userId: UserId): (c: nat)
    ensures c <= n
  {
    if n == 0 then 0
    else OwnedCount(categories, n - 1, userId) + (if n - 1 in categories && categories[n - 1].userId == userId then 1 else 0)
  }

  /** The keys of a map are exactly 0 .. n-1. */
  ghost predicate IdsBelow<T>(m: map<int, T>, n: int)
  {
    forall id :: id in m <==> 0 <= id < n
  }

  /**
   * The listing GetAllCategories builds over ids 0 .. n-1: as many entries as
   * the user owns, entry i being category i, whoever owns it.
   */
  function AllCategoriesAsWritten(categories: map<int, Category>, n: nat, userId: UserId): (r: seq<Category>)
    requires forall i :: 0 <= i < n ==> i in categories
  {
    seq(OwnedCount(categories, n, userId), i requires 0 <= i < OwnedCount(categories, n, userId) => categories[i])
  }

  /** A spending the report of userId over the open window (first, last) counts. */
  predicate InWindow(s: Spending, userId: UserId, first: Time, last: Time)
  {
    s.userId == userId && first < s.date < last
  }

  /** The sum the report keeps for category cid over the spendings with id below n. */
  function CategorySum(spendings: map<int, Spending>, n: nat, userId: UserId, cid: int, first: Time, last: Time): Decimal
  {
    if n == 0 then 0.0
    else
      var before := CategorySum(spendings, n - 1, userId, cid, first, last);
      if n - 1 in spendings && InWindow(spendings[n - 1], userId, first, last) && spendings[n - 1].categoryId == cid
      then before + spendings[n - 1].amount
      else before
  }

  /** What the report map holds for cid: a missing key reads as zero, as in Go. */
  function Accumulated(reportMap: map<int, Decimal>, cid: int): Decimal
  {
    if cid in reportMap then reportMap[cid] else 0.0
  }

  /** One turn of ReportPeriod's summing loop keeps the map equal to the sums so far. */
  lemma AccumulateStep(before: map<int, Decimal>, after: map<int, Decimal>, spendings: map<int, Spending>, id: nat,
                       userId: UserId, first: Time, last: Time)
    requires id in spendings
    requires forall cid :: Accumulated(before, cid) == CategorySum(spendings, id, userId, cid, first, last)
    requires var sp := spendings[id];
      after == if InWindow(sp, userId, first, last)
               then before[sp.categoryId := Accumulated(before, sp.categoryId) + sp.amount]
               else before
    ensures forall cid :: Accumulated(after, cid) == CategorySum(spendings, id + 1, userId, cid, first, last)
  {
    forall cid ensures Accumulated(after, cid) == CategorySum(spendings, id + 1, userId, cid, first, last) {
      assert Accumulated(before, cid) == CategorySum(spendings, id, userId, cid, first, last);
    }
  }

  /** The report lines for a category listing: one per category with a non-zero sum, in listing order. */
  function ReportOf(cats: seq<Category>, spendings: map<int, Spending>, n: nat, userId: UserId, first: Time, last: Time): seq<ReportByCategory>
  {
    if cats == [] then []
    else
      var sum := CategorySum(spendings, n, userId, cats[0].id, first, last);
      var rest := ReportOf(cats[1..], spendings, n, userId, first, last);
      if sum != 0.0 then [ReportByCategory(cats[0].name, sum)] + rest else rest
  }

  /** From category k on, the report is category k's line, if its sum is not zero, then the report from k + 1 on. */
  lemma ReportOfSuffix(cats: seq<Category>, spendings: map<int, Spending>, n: nat, userId: UserId, first: Time, last: Time, k: nat)
    requires k < |cats|
    ensures var sum := CategorySum(spendings, n, userId, cats[k].id, first, last);
      ReportOf(cats[k..], spendings, n, userId, first, last) ==
        (if sum != 0.0 then [ReportByCategory(cats[k].name, sum)] else []) + ReportOf(cats[k + 1..], spendings, n, userId, first, last)
  {
    assert cats[k..][0] == cats[k];
    assert cats[k..][1..] == cats[k + 1..];
  }

  /** One step of ReportPeriod's second loop: category k's line moves from the suffix to the prefix. */
  lemma ReportStep(report: seq<ReportByCategory>, cats: seq<Category>, spendings: map<int, Spending>, n: nat,
                   userId: UserId, first: Time, last: Time, k: nat, sum: Decimal)
    requires k < |cats|
    requires report + ReportOf(cats[k..], spendings, n, userId, first, last) == ReportOf(cats, spendings, n, userId, first, last)
    requires sum == CategorySum(spendings, n, userId, cats[k].id, first, last)
    ensures (if sum != 0.0 then report + [ReportByCategory(cats[k].name, sum)] else report) +
      ReportOf(cats[k + 1..], spendings, n, userId, first, last) == ReportOf(cats, spendings, n, userId, first, last)
  {
    ReportOfSuffix(cats, spendings, n, userId, first, last, k);
    var rest := ReportOf(cats[k + 1..], spendings, n, userId, first, last);
    if sum != 0.0 {
      Regroup(report, [ReportByCategory(cats[k].name, sum)], rest);
    } else {
      assert ReportOf(cats[k..], spendings, n, userId, first, last) == rest;
    }
  }

  /** Concatenation is associative (stated once so the step above stays small). */
  lemma Regroup<T>(a: seq<T>, b: seq<T>, c: seq<T>)
    ensures a + (b + c) == (a + b) + c
  {
  }

  /** The report lists every listed category with a non-zero sum, and nothing else. */
  lemma {:induction false} ReportOfLines(cats: seq<Category>, spendings: map<int, Spending>, n: nat, userId: UserId, first: Time, last: Time)
    ensures forall i :: 0 <= i < |cats| && CategorySum(spendings, n, userId, cats[i].id, first, last) != 0.0 ==>
      ReportByCategory(cats[i].name, CategorySum(spendings, n, userId, cats[i].id, first, last)) in ReportOf(cats, spendings, n, userId, first, last)
    ensures forall line :: line in ReportOf(cats, spendings, n, userId, first, last) ==>
      line.sum != 0.0 &&
      exists i :: 0 <= i < |cats| && line == ReportByCategory(cats[i].name, CategorySum(spendings, n, userId, cats[i].id, first, last))
    ensures |ReportOf(cats, spendings, n, userId, first, last)| <= |cats|
    decreases |cats|
  {
    if cats != [] {
      ReportOfLines(cats[1..], spendings, n, userId, first, last);
      var r := ReportOf(cats, spendings, n, userId, first, last);
      forall line | line in r
        ensures exists i :: 0 <= i < |cats| && line == ReportByCategory(cats[i].name, CategorySum(spendings, n, userId, cats[i].id, first, last))
      {
        if line !in ReportOf(cats[1..], spendings, n, userId, first, last) {
          assert line == ReportByCategory(cats[0].name, CategorySum(spendings, n, userId, cats[0].id, first, last));
        } else {
          var i :| 0 <= i < |cats[1..]| && line == ReportByCategory(cats[1..][i].name, CategorySum(spendings, n, userId, cats[1..][i].id, first, last));
          assert cats[1..][i] == cats[i + 1];
        }
      }
      forall i | 0 <= i < |cats| && CategorySum(spendings, n, userId, cats[i].id, first, last) != 0.0
        ensures ReportByCategory(cats[i].name, CategorySum(spendings, n, userId, cats[i].id, first, last)) in r
      {
        if i > 0 {
          assert cats[1..][i - 1] == cats[i];
        }
      }
    }
  }

  /** Entries at ids n and above do not affect the sum over the ids below n. */
  lemma {:induction false} CategorySumFrame(spendings: map<int, Spending>, id: int, s: Spending, n: nat, userId: UserId, cid: int, first: Time, last: Time)
    requires id >= n
    ensures CategorySum(spendings[id := s], n, userId, cid, first, last) == CategorySum(spendings, n, userId, cid, first, last)
    decreases n
  {
    if n > 0 {
      CategorySumFrame(spendings, id, s, n - 1, userId, cid, first, last);
    }
  }

  /**
   * Storing a new spending under the next id adds its amount to its own
   * category's sum exactly when it lies strictly inside the window and belongs
   * to the user; every other sum is unchanged. A spending dated exactly at
   * either bound is never counted.
   */
  lemma CategorySumAppend(spendings: map<int, Spending>, n: nat, s: Spending, userId: UserId, cid: int, first: Time, last: Time)
    ensures CategorySum(spendings[n := s], n + 1, userId, cid, first, last) ==
      CategorySum(spendings, n, userId, cid, first, last) +
      (if InWindow(s, userId, first, last) && s.categoryId == cid then s.amount else 0.0)
  {
    CategorySumFrame(spendings, n, s, n, userId, cid, first, last);
  }

  class MemoryStorage {
    var categories: map<int, Category>
    var spendings: map<int, Spending>
    var currency: map<UserId, string>
    var nextCategoryID: int
    var nextSpendingID: int

    /**
     * Ids are handed out in sequence and never reused, every record carries its
     * own key, a user's category names are distinct, and every spending points
     * at a category of the same user.
     */
    ghost predicate Valid()
      reads this
    {
      && 0 <= nextCategoryID && 0 <= nextSpendingID
      && IdsBelow(categories, nextCategoryID)
      && IdsBelow(spendings, nextSpendingID)
      && (forall id :: id in categories ==> categories[id].id == id)
      && (forall id :: id in spendings ==> spendings[id].id == id)
      && (forall i, j :: i in categories && j in categories && Matches(categories[j], categories[i].userId, categories[i].name) ==> i == j)
      && (forall id :: id in spendings ==>
            spendings[id].categoryId in categories && categories[spendings[id].categoryId].userId == spendings[id].userId)
    }

    /** NewMemoryStorage */
    constructor ()
      ensures Valid()
      ensures categories == map[] && spendings == map[] && currency == map[]
      ensures nextCategoryID == 0 && nextSpendingID == 0
    {
      categories := map[];
      spendings := map[];
      currency := map[];
      nextCategoryID := 0;
      nextSpendingID := 0;
    }

    /** The user's category with that name; an empty category and false when there is none. */
    method GetCategory(userId: UserId, name: string) returns (cat: Category, found: bool)
      requires Valid()
      ensures found <==> HasCategory(categories, userId, name)
      ensures found ==> cat.id in categories && categories[cat.id] == cat && Matches(cat, userId, name)
      ensures !found ==> cat == Category(0, 0, "")
    {
      for id := 0 to nextCategoryID
        invariant forall j :: 0 <= j < id ==> !Matches(categories[j], userId, name)
      {
        if Matches(categories[id], userId, name) {
          return categories[id], true;
        }
      }
      return Category(0, 0, ""), false;
    }

    /**
     * Stores a spending under the next spending id, in the user's category of
     * that name, creating the category first when the user has none.
     */
    method CreateSpending(userId: UserId, categoryName: string, amount: Decimal, date: Time) returns (err: Option<Error>)
      requires Valid()
      modifies this
      ensures Valid()
      ensures err == None
      ensures old(HasCategory(categories, userId, categoryName)) ==>
        categories == old(categories) && nextCategoryID == old(nextCategoryID)
      ensures !old(HasCategory(categories, userId, categoryName)) ==>
        categories == old(categories)[old(nextCategoryID) := Category(old(nextCategoryID), userId, categoryName)] &&
        nextCategoryID == old(nextCategoryID) + 1
      ensures nextSpendingID == old(nextSpendingID) + 1
      ensures old(nextSpendingID) in spendings
      ensures var s := spendings[old(nextSpendingID)];
        spendings == old(spendings)[old(nextSpendingID) := s] &&
        s == Spending(old(nextSpendingID), userId, s.categoryId, amount, date) &&
        s.categoryId in categories && Matches(categories[s.categoryId], userId, categoryName)
      ensures currency == old(currency)
    {
      var category, inStor := GetCategory(userId, categoryName);
      var categoryID := category.id;
      if !inStor {
        categories := categories[nextCategoryID := Category(nextCategoryID, userId, categoryName)];
        categoryID := nextCategoryID;
        nextCategoryID := nextCategoryID + 1;
      }
      spendings := spendings[nextSpendingID := Spending(nextSpendingID, userId, categoryID, amount, date)];
      nextSpendingID := nextSpendingID + 1;
      return None;
    }

    /** Adds the user's category, unless the user already has one of that name. */
    method CreateCategory(userId: UserId, name: string) returns (err: Option<Error>)
      requires Valid()
      modifies this
      ensures Valid()
      ensures err == Some(ErrCategoryExists) <==> old(HasCategory(categories, userId, name))
      ensures err == None || err == Some(ErrCategoryExists)
      ensures err != None ==> categories == old(categories) && nextCategoryID == old(nextCategoryID)
      ensures err == None ==>
        categories == old(categories)[old(nextCategoryID) := Category(old(nextCategoryID), userId, name)] &&
        nextCategoryID == old(nextCategoryID) + 1
      ensures spendings == old(spendings) && nextSpendingID == old(nextSpendingID) && currency == old(currency)
    {
      var _, inStor := GetCategory(userId, name);
      if inStor {
        return Some(ErrCategoryExists);
      }
      categories := categories[nextCategoryID := Category(nextCategoryID, userId, name)];
      nextCategoryID := nextCategoryID + 1;
      return None;
    }

    /**
     * As many categories as the user owns, but taken by position: entry i is
     * category i, whoever owns it.
     */
    method GetAllCategories(userId: UserId) returns (result: seq<Category>, err: Option<Error>)
      requires Valid()
      ensures err == None
      ensures result == AllCategoriesAsWritten(categories, nextCategoryID, userId)
    {
      var ids: seq<int> := [];
      for id := 0 to nextCategoryID
        invariant |ids| == OwnedCount(categories, id, userId)
      {
        if categories[id].userId == userId {
          ids := ids + [id];
        }
      }
      result := [];
      for i := 0 to |ids|
        invariant result == AllCategoriesAsWritten(categories, nextCategoryID, userId)[..i]
      {
        result := result + [categories[i]];
      }
      return result, None;
    }

    /**
     * For each listed category (as GetAllCategories lists them), the sum of the
     * user's spendings in it dated strictly between first and last; categories
     * whose sum is zero are left out.
     */
    method ReportPeriod(userId: UserId, first: Time, last: Time) returns (report: seq<ReportByCategory>, err: Option<Error>)
      requires Valid()
      ensures err == None
      ensures report == ReportOf(AllCategoriesAsWritten(categories, nextCategoryID, userId), spendings, nextSpendingID, userId, first, last)
    {
      var reportMap: map<int, Decimal> := map[];
      for id := 0 to nextSpendingID
        invariant forall cid :: Accumulated(reportMap, cid) == CategorySum(spendings, id, userId, cid, first, last)
      {
        var sp := spendings[id];
        ghost var before := reportMap;
        if sp.userId == userId && first < sp.date && sp.date < last {
          reportMap := reportMap[sp.categoryId := Accumulated(reportMap, sp.categoryId) + sp.amount];
        }
        AccumulateStep(before, reportMap, spendings, id, userId, first, last);
      }
      var cats, _ := GetAllCategories(userId);
      report := [];
      for k := 0 to |cats|
        invariant report + ReportOf(cats[k..], spendings, nextSpendingID, userId, first, last) ==
          ReportOf(cats, spendings, nextSpendingID, userId, first, last)
      {
        var sum := Accumulated(reportMap, cats[k].id);
        ReportStep(report, cats, spendings, nextSpendingID, userId, first, last, k, sum);
        if sum != 0.0 {
          report := report + [ReportByCategory(cats[k].name, sum)];
        }
      }
      assert cats[|cats|..] == [];
      return report, None;
    }

    /** The user's active currency; an unknown user is given "RUB", which is recorded. */
    method GetActiveCurrency(userId: UserId) returns (curr: string)
      modifies this
      ensures old(userId in currency) ==> curr == old(currency[userId]) && currency == old(currency)
      ensures old(userId !in currency) ==> curr == "RUB" && currency == old(currency)[userId := "RUB"]
      ensures userId in currency && currency[userId] == curr
      ensures categories == old(categories) && spendings == old(spendings)
      ensures nextCategoryID == old(nextCategoryID) && nextSpendingID == old(nextSpendingID)
    {
      if userId in currency {
        curr := currency[userId];
      } else {
        curr := "RUB";
        currency := currency[userId := "RUB"];
      }
    }

    /** Records the user's active currency. */
    method SetActiveCurrency(userId: UserId, curr: string) returns (err: Option<Error>)
      modifies this
      ensures err == None
      ensures currency == old(currency)[userId := curr]
      ensures categories == old(categories) && spendings == old(spendings)
      ensures nextCategoryID == old(nextCategoryID) && nextSpendingID == old(nextSpendingID)
    {
      currency := currency[userId := curr];
      return None;
    }
  }
}
