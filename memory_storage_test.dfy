/**
 * Scenarios against the contracts of `MemoryStorage`: find-or-create of
 * categories, the default and recorded currency, the strict report window, and
 * the listing that GetAllCategories builds by position.
 */
module MemoryStoreTests {
  import opened Wrappers
  import opened Repository
  import opened MemoryStore

  /** A second category of the same name is refused; the first keeps its id. */
  method CreateCategoryTwiceRefused()
  {
    var ms := new MemoryStorage();
    var err := ms.CreateCategory(1, "food");
    assert err == None;
    assert ms.categories == map[0 := Category(0, 1, "food")];
    err := ms.CreateCategory(1, "food");
    assert Matches(ms.categories[0], 1, "food");
    assert err == Some(ErrCategoryExists);
    assert ms.nextCategoryID == 1;
    err := ms.CreateCategory(2, "food");
    assert err == None;
    assert ms.categories[1] == Category(1, 2, "food");
  }

  /** A spending in an existing category reuses it; one in a new category creates it. */
  method CreateSpendingFindsOrCreates()
  {
    var ms := new MemoryStorage();
    var _ := ms.CreateCategory(1, "food");
    assert Matches(ms.categories[0], 1, "food");
    var err := ms.CreateSpending(1, "food", 10.0, 5);
    assert err == None;
    assert ms.nextCategoryID == 1 && ms.spendings[0] == Spending(0, 1, 0, 10.0, 5);
    err := ms.CreateSpending(1, "taxi", 3.0, 6);
    assert ms.nextCategoryID == 2 && ms.categories[1] == Category(1, 1, "taxi");
    assert ms.spendings[1] == Spending(1, 1, 1, 3.0, 6);
  }

  /** An unknown user gets "RUB", recorded; a set currency is what the next read returns. */
  method ActiveCurrencyRoundTrip()
  {
    var ms := new MemoryStorage();
    var curr := ms.GetActiveCurrency(7);
    assert curr == "RUB" && ms.currency == map[7 := "RUB"];
    var err := ms.SetActiveCurrency(7, "USD");
    assert err == None;
    curr := ms.GetActiveCurrency(7);
    assert curr == "USD";
  }

  /**
   * User 2 owns one category, so the listing has one entry, but it is
   * category 0, which user 1 owns.
   */
  method AllCategoriesTakenByPosition()
  {
    var ms := new MemoryStorage();
    var _ := ms.CreateCategory(1, "food");
    var _ := ms.CreateCategory(2, "taxi");
    assert ms.categories == map[0 := Category(0, 1, "food"), 1 := Category(1, 2, "taxi")];
    var cats, err := ms.GetAllCategories(2);
    assert OwnedCount(ms.categories, 2, 2) == 1;
    assert err == None && cats == [Category(0, 1, "food")];
  }

  /** Spendings dated exactly at either bound of the window are not counted. */
  method ReportWindowIsOpen()
  {
    var ms := new MemoryStorage();
    var _ := ms.CreateSpending(1, "food", 10.0, 100);
    var _ := ms.CreateSpending(1, "food", 20.0, 150);
    var _ := ms.CreateSpending(1, "food", 40.0, 200);
    assert ms.categories == map[0 := Category(0, 1, "food")];
    assert ms.spendings == map[0 := Spending(0, 1, 0, 10.0, 100), 1 := Spending(1, 1, 0, 20.0, 150), 2 := Spending(2, 1, 0, 40.0, 200)];
    var report, err := ms.ReportPeriod(1, 100, 200);
    assert OwnedCount(ms.categories, 1, 1) == 1;
    assert CategorySum(map[0 := Spending(0, 1, 0, 10.0, 100), 1 := Spending(1, 1, 0, 20.0, 150), 2 := Spending(2, 1, 0, 40.0, 200)], 3, 1, 0, 100, 200) == 20.0;
    assert err == None && report == [ReportByCategory("food", 20.0)];
    report, err := ms.ReportPeriod(1, 300, 400);
    assert CategorySum(map[0 := Spending(0, 1, 0, 10.0, 100), 1 := Spending(1, 1, 0, 20.0, 150), 2 := Spending(2, 1, 0, 40.0, 200)], 3, 1, 0, 300, 400) == 0.0;
    assert report == [];
  }
}
