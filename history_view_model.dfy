/** TransactionHistoryViewModel: the list of transactions for a date filter
    and today's statistics. The current date is a parameter (the clock is not
    modelled); a range bound is the epoch day whose start it is. */
module HistoryViewModel {
  import opened Outcomes
  import opened Models
  import opened Calendar
  import Seqs

  datatype DateFilter = TODAY | YESTERDAY | THIS_WEEK | THIS_MONTH

  /** From the start of day `start` (inclusive) to the start of day `end`
      (exclusive). */
  datatype DateRange = DateRange(start: int, end: int)

  predicate InRange(r: DateRange, day: int)
  {
    r.start <= day < r.end
  }

  /** `getDateRangeForFilter`: half-open ranges of epoch days. YESTERDAY
      ends where today starts, every other range ends where tomorrow starts,
      and THIS_WEEK starts on a Monday. */
  function DateRangeForFilter(filter: DateFilter, today: LocalDate): (r: DateRange)
    ensures filter == YESTERDAY ==> r.end == EpochDay(today)
    ensures filter != YESTERDAY && ValidDate(today) ==> r.end == EpochDay(NextDay(today))
    ensures filter == THIS_WEEK ==> DayOfWeek(r.start) == 1
    ensures ValidDate(today) ==> r.start < r.end
  {
    var e := EpochDay(today);
    MondayOfWeek(e);
    TomorrowIsNextDay(today);
    match filter
    case TODAY => DateRange(e, e + 1)
    case YESTERDAY => DateRange(e - 1, e)
    case THIS_WEEK => DateRange(e - (DayOfWeek(e) - 1), e + 1)
    case THIS_MONTH => DateRange(EpochDay(today.(day := 1)), e + 1)
  }

  lemma TomorrowIsNextDay(today: LocalDate)
    ensures ValidDate(today) ==> EpochDay(NextDay(today)) == EpochDay(today) + 1
  {
    if ValidDate(today) {
      EpochDayNext(today);
    }
  }

  /** Every range is non-empty; TODAY is today's single day, YESTERDAY the
      day before, and they meet without overlapping. */
  lemma DayRanges(today: LocalDate)
    ensures var t := DateRangeForFilter(TODAY, today);
            var y := DateRangeForFilter(YESTERDAY, today);
            && t.end - t.start == 1 && InRange(t, EpochDay(today))
            && y.end - y.start == 1 && y.end == t.start
            && !InRange(y, EpochDay(today))
  {
  }

  /** THIS_WEEK starts on the Monday of this week and ends with today, so it
      spans as many days as today's day of the week. */
  lemma WeekRange(today: LocalDate)
    ensures var w := DateRangeForFilter(THIS_WEEK, today);
            && DayOfWeek(w.start) == 1
            && w.end - w.start == DayOfWeek(EpochDay(today))
            && 1 <= w.end - w.start <= 7
            && InRange(w, EpochDay(today))
  {
    MondayOfWeek(EpochDay(today));
  }

  /** THIS_MONTH starts on the first of this month and ends with today, so
      it spans as many days as today's day of the month. */
  lemma MonthRange(today: LocalDate)
    requires ValidDate(today)
    ensures var m := DateRangeForFilter(THIS_MONTH, today);
            && m.start == EpochDay(LocalDate(today.year, today.month, 1))
            && m.end - m.start == today.day
            && InRange(m, EpochDay(today))
  {
    EpochDayInMonth(today);
  }

  /** Every range is half-open with its start before its end, and all but
      YESTERDAY contain today. */
  lemma RangesNonEmpty(filter: DateFilter, today: LocalDate)
    requires ValidDate(today)
    ensures DateRangeForFilter(filter, today).start < DateRangeForFilter(filter, today).end
    ensures filter != YESTERDAY ==> InRange(DateRangeForFilter(filter, today), EpochDay(today))
  {
    match filter {
      case TODAY =>
      case YESTERDAY =>
      case THIS_WEEK => WeekRange(today);
      case THIS_MONTH => MonthRange(today);
    }
  }

  // ---- calculateStatistics ----

  datatype TodayStatistics = TodayStatistics(transactionCount: nat, totalAmount: int, cancelledCount: nat)

  predicate IsActive(t: Transaction) { !t.isCancelled }
  predicate IsCancelled(t: Transaction) { t.isCancelled }
  function FinalAmount(t: Transaction): int { t.finalAmount }

  /** The takings of the transactions that are not cancelled, defined on
      its own by recursion. */
  function ActiveTakings(ts: seq<Transaction>): int
    decreases |ts|
  {
    if ts == [] then 0
    else (if ts[0].isCancelled then 0 else ts[0].finalAmount) + ActiveTakings(ts[1..])
  }

  lemma {:induction false} SumOfActiveIsTakings(ts: seq<Transaction>)
    ensures Seqs.Sum(Seqs.Filter(ts, IsActive), FinalAmount) == ActiveTakings(ts)
    decreases |ts|
  {
    if ts != [] {
      SumOfActiveIsTakings(ts[1..]);
    }
  }

  /** The number of transactions that are not cancelled, defined on its
      own by recursion. */
  function ActiveCount(ts: seq<Transaction>): nat
    decreases |ts|
  {
    if ts == [] then 0
    else (if ts[0].isCancelled then 0 else 1) + ActiveCount(ts[1..])
  }

  lemma {:induction false} FilterActiveIsActiveCount(ts: seq<Transaction>)
    ensures |Seqs.Filter(ts, IsActive)| == ActiveCount(ts)
    decreases |ts|
  {
    if ts != [] {
      FilterActiveIsActiveCount(ts[1..]);
    }
  }

  /** `calculateStatistics`: the transactions that are not cancelled are
      counted and summed, the cancelled ones only counted, so every
      transaction is counted exactly once. */
  function CalculateStatistics(ts: seq<Transaction>): (r: TodayStatistics)
    ensures r.transactionCount == ActiveCount(ts)
    ensures r.cancelledCount == |ts| - ActiveCount(ts)
    ensures r.totalAmount == ActiveTakings(ts)
  {
    var active := Seqs.Filter(ts, IsActive);
    var cancelled := Seqs.Filter(ts, IsCancelled);
    Seqs.FilterComplementLength(ts, IsActive, IsCancelled);
    FilterActiveIsActiveCount(ts);
    SumOfActiveIsTakings(ts);
    TodayStatistics(|active|, Seqs.Sum(active, FinalAmount), |cancelled|)
  }

  /** The statistics of two lists together are the sums of their
      statistics. */
  lemma StatisticsAppend(a: seq<Transaction>, b: seq<Transaction>)
    ensures CalculateStatistics(a + b).transactionCount ==
            CalculateStatistics(a).transactionCount + CalculateStatistics(b).transactionCount
    ensures CalculateStatistics(a + b).cancelledCount ==
            CalculateStatistics(a).cancelledCount + CalculateStatistics(b).cancelledCount
    ensures CalculateStatistics(a + b).totalAmount ==
            CalculateStatistics(a).totalAmount + CalculateStatistics(b).totalAmount
  {
    Seqs.FilterAppend(a, b, IsActive);
    Seqs.FilterAppend(a, b, IsCancelled);
    Seqs.SumAppend(Seqs.Filter(a, IsActive), Seqs.Filter(b, IsActive), FinalAmount);
  }

  /** A cancelled transaction adds one to the cancelled count and nothing to
      the takings. */
  lemma CancelledAddsNothing(ts: seq<Transaction>, t: Transaction)
    requires t.isCancelled
    ensures CalculateStatistics(ts + [t]) ==
            CalculateStatistics(ts).(cancelledCount := CalculateStatistics(ts).cancelledCount + 1)
  {
    StatisticsAppend(ts, [t]);
  }

  // ---- the state ----

  datatype HistoryUiState = HistoryUiState(
    transactions: seq<Transaction>,
    dateFilter: DateFilter,
    todayStatistics: Option<TodayStatistics>,
    isLoading: bool,
    error: Option<Msg>)

  const InitialState := HistoryUiState([], TODAY, None, false, None)

  class TransactionHistoryViewModel {
    var uiState: HistoryUiState

    constructor()
      ensures uiState == InitialState
    {
      uiState := InitialState;
    }

    /** `loadTransactions`: asks for the current filter's range (returned)
        and applies the outcome. */
    method LoadTransactions(today: LocalDate, outcome: Resource<seq<Transaction>>) returns (range: DateRange)
      modifies this
      ensures range == DateRangeForFilter(old(uiState).dateFilter, today)
      ensures uiState == match outcome
                         case Success(ts) => old(uiState).(transactions := ts, isLoading := false, error := None)
                         case Error(m) =>
                           old(uiState).(isLoading := false, error := Some(MessageOr(m, LoadTransactionsFailed)))
    {
      range := DateRangeForFilter(uiState.dateFilter, today);
      match outcome {
        case Success(ts) =>
          uiState := uiState.(transactions := ts, isLoading := false, error := None);
        case Error(m) =>
          uiState := uiState.(isLoading := false, error := Some(MessageOr(m, LoadTransactionsFailed)));
      }
    }

    /** `loadTodayStatistics`: a failure is only logged. */
    method LoadTodayStatistics(outcome: Resource<seq<Transaction>>)
      modifies this
      ensures uiState == match outcome
                         case Success(ts) => old(uiState).(todayStatistics := Some(CalculateStatistics(ts)))
                         case Error(_) => old(uiState)
    {
      if outcome.Success? {
        uiState := uiState.(todayStatistics := Some(CalculateStatistics(outcome.data)));
      }
    }

    /** `setDateFilter`: stores the filter and reloads with its range. */
    method SetDateFilter(filter: DateFilter, today: LocalDate, outcome: Resource<seq<Transaction>>)
      returns (range: DateRange)
      modifies this
      ensures range == DateRangeForFilter(filter, today)
      ensures uiState == match outcome
                         case Success(ts) =>
                           old(uiState).(dateFilter := filter, transactions := ts, isLoading := false, error := None)
                         case Error(m) =>
                           old(uiState).(dateFilter := filter, isLoading := false,
                                         error := Some(MessageOr(m, LoadTransactionsFailed)))
    {
      uiState := uiState.(dateFilter := filter);
      range := LoadTransactions(today, outcome);
    }

    /** `refresh`: the list, then today's statistics. */
    method Refresh(today: LocalDate, transactions: Resource<seq<Transaction>>, todays: Resource<seq<Transaction>>)
      returns (range: DateRange)
      modifies this
      ensures range == DateRangeForFilter(old(uiState).dateFilter, today)
      ensures var listed := match transactions
                            case Success(ts) => old(uiState).(transactions := ts, isLoading := false, error := None)
                            case Error(m) =>
                              old(uiState).(isLoading := false, error := Some(MessageOr(m, LoadTransactionsFailed)));
              uiState == match todays
                         case Success(ts) => listed.(todayStatistics := Some(CalculateStatistics(ts)))
                         case Error(_) => listed
    {
      range := LoadTransactions(today, transactions);
      LoadTodayStatistics(todays);
    }
  }
}
