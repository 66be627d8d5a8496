/**
 * Records and error values shared by the store, the caches and the message model
 * (internal/repository/storage.go, internal/cache/cache.go,
 * internal/currency/currency.go), plus the collaborators the core only calls.
 */
module Repository {
  import opened Wrappers

  /** A Telegram user id (int64 in the source). */
  type UserId = int

  /** An instant; only its order matters to the core. */
  type Time = int

  /** shopspring decimals: addition and multiplication are exact. */
  type Decimal = real

  /** Every error value the core produces or passes on. */
  datatype Error =
    | ErrCategoryExists        // repository.ErrCategoryExists
    | ErrCategoryIsEmpty       // repository.ErrCategoryIsEmpty
    | ErrLimitNotSet           // repository.ErrLimitNotSet
    | ErrLimitExceeded         // repository.ErrLimitExceeded
    | ErrElementNotInCache     // cache.ErrElementNotInCache
    | ErrCurrencyNotSupported  // currency.ErrCurrencyNotSupported
    | ErrInvalidDecimal        // what decimal.NewFromString reports for a bad number
    | ErrExternal(code: nat)   // any failure of a store, the broker or Telegram

  datatype Category = Category(id: int, userId: UserId, name: string)

  datatype Spending = Spending(id: int, userId: UserId, categoryId: int, amount: Decimal, date: Time)

  datatype ReportByCategory = ReportByCategory(categoryName: string, sum: Decimal)

  datatype Report = Report(byCategory: seq<ReportByCategory>, minDate: Time)

  /**
   * Library routines whose exact behaviour is outside the model: parsing a
   * decimal (decimal.NewFromString), parsing a "02/01/06" date (time.Parse),
   * decimal division with its rounding, and the two decimal renderings.
   */
  datatype Env = Env(
    parseDecimal: string -> Option<Decimal>,
    parseDate: string -> Option<Time>,
    div: (Decimal, Decimal) -> Decimal,
    fixed2: Decimal -> string,
    decimalText: Decimal -> string)

  /**
   * time.Now() and the three rolling boundaries computed from it with
   * time.AddDate: a week, a month and a year back.
   */
  datatype Clock = Clock(now: Time, weekAgo: Time, monthAgo: Time, yearAgo: Time) {
    /** What calendar arithmetic guarantees about the boundaries. */
    predicate Ordered() {
      yearAgo < monthAgo < weekAgo < now
    }
  }
}
