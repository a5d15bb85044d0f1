// The four consumers of the payment scans, and what the reports rely on: rebalances and
// ordinary payments partition all payments, and a backfill that scans its range once
// and buckets by day stores for every day what that day's own report would.
module PaymentReports {
  import opened Prelude
  import opened PaymentScan
  import opened Days

  datatype Totals = Totals(feeMsat: int, count: int)

  const NOTHING := Totals(0, 0)

  // The payments a figure is about: of one kind, and of one local day or of every day.
  datatype Filter = Filter(kind: Kind, everyDay: bool, day: int, zone: Zone)

  function AllOf(kind: Kind): Filter {
    Filter(kind, true, 0, 0)
  }

  function DayOnly(kind: Kind, day: int, zone: Zone): Filter {
    Filter(kind, false, day, zone)
  }

  predicate Passes(p: Payment, f: Filter) {
    IsOfKind(p, f.kind) && (f.everyDay || DayOf(p.ts, f.zone) == f.day)
  }

  // The two figures that are added up.
  datatype Figure = Fees | Number

  function Share(p: Payment, f: Filter, figure: Figure): int {
    if !Passes(p, f) then 0 else if figure == Fees then p.feeMsat else 1
  }

  function SumOf(s: seq<Payment>, f: Filter, figure: Figure): int {
    if s == [] then 0 else Share(s[0], f, figure) + SumOf(s[1..], f, figure)
  }

  function Total(s: seq<Payment>, f: Filter): Totals {
    Totals(SumOf(s, f, Fees), SumOf(s, f, Number))
  }

  lemma {:induction false} SumAppend(a: seq<Payment>, b: seq<Payment>, f: Filter, figure: Figure)
    ensures SumOf(a + b, f, figure) == SumOf(a, f, figure) + SumOf(b, f, figure)
  {
    hide Share;
    if a == [] {
      assert a + b == b;
    } else {
      assert (a + b)[0] == a[0] && (a + b)[1..] == a[1..] + b;
      SumAppend(a[1..], b, f, figure);
    }
  }

  lemma SumOne(s: seq<Payment>, p: Payment, f: Filter, figure: Figure)
    ensures SumOf(s + [p], f, figure) == SumOf(s, f, figure) + Share(p, f, figure)
  {
    hide Share;
    SumAppend(s, [p], f, figure);
    assert [p][1..] == [];
  }

  // The order in which payments are reported does not matter.
  lemma {:induction false} SumIgnoresOrder(a: seq<Payment>, b: seq<Payment>, f: Filter, figure: Figure)
    requires multiset(a) == multiset(b)
    ensures SumOf(a, f, figure) == SumOf(b, f, figure)
  {
    hide Share;
    if a == [] {
      SameLength(a, b);
    } else {
      var i := FindFirst(a, b);
      SumIgnoresOrder(a[1..], b[..i] + b[i + 1..], f, figure);
      SumAppend(b[..i], b[i + 1..], f, figure);
      SumAppend(b[..i] + [b[i]], b[i + 1..], f, figure);
      SumOne(b[..i], b[i], f, figure);
    }
  }

  lemma TotalIgnoresOrder(a: seq<Payment>, b: seq<Payment>, f: Filter)
    requires multiset(a) == multiset(b)
    ensures Total(a, f) == Total(b, f)
  {
    SumIgnoresOrder(a, b, f, Fees);
    SumIgnoresOrder(a, b, f, Number);
  }

  lemma SelectedSum(s: seq<Payment>, first: int, last: int, kind: Kind, f: Filter, figure: Figure)
    requires s != []
    ensures SumOf(Select(s, first, last, kind), f, figure) ==
            (if Counts(s[0], first, last, kind) then Share(s[0], f, figure) else 0) + SumOf(Select(s[1..], first, last, kind), f, figure)
  {
    hide Share, Counts;
    if Counts(s[0], first, last, kind) {
      SumAppend([s[0]], Select(s[1..], first, last, kind), f, figure);
      assert [s[0]][1..] == [];
    } else {
      assert Select(s, first, last, kind) == Select(s[1..], first, last, kind);
    }
  }

  // Selecting by kind first, or counting by kind later, is the same.
  lemma {:induction false} SumOfSelected(s: seq<Payment>, first: int, last: int, f: Filter, figure: Figure)
    ensures SumOf(Select(s, first, last, f.kind), f, figure) == SumOf(Select(s, first, last, AnyKind), f, figure)
  {
    if s != [] {
      SelectedSum(s, first, last, f.kind, f, figure);
      SelectedSum(s, first, last, AnyKind, f, figure);
      SumOfSelected(s[1..], first, last, f, figure);
      assert !IsOfKind(s[0], f.kind) ==> Share(s[0], f, figure) == 0;
      hide SumOf, Select, Share;
    }
  }

  // A server that answers from a store in index and time order that the scan can reach.
  ghost predicate Stored(serve: Server, store: seq<Payment>) {
    Increasing(store) && InTimeOrder(store) && Serves(serve, store) && |store| <= PAGE_SIZE * MAX_PAGES
  }

  lemma ReportedTotal(store: seq<Payment>, reported: seq<Payment>, first: int, last: int, scanned: Kind, f: Filter)
    requires InTimeOrder(store) && |store| <= PAGE_SIZE * MAX_PAGES
    requires multiset(reported) == multiset(Select(store[Unread(store, |store|, MAX_PAGES, first)..], first, last, scanned))
    requires scanned == f.kind || scanned == AnyKind
    ensures Total(reported, f) == Total(Select(store, first, last, AnyKind), f)
  {
    hide SumOf, Select;
    ScanIsComplete(store, first, last, scanned);
    TotalIgnoresOrder(reported, Select(store, first, last, scanned), f);
    SumOfSelected(store, first, last, f, Fees);
    SumOfSelected(store, first, last, f, Number);
  }

  // ---- The figures in terms of the store ---------------------------------------------------

  // The places of the store with a succeeded payment of the range, kind and day.
  ghost function Wanted(store: seq<Payment>, first: int, last: int, f: Filter): set<int> {
    set i | 0 <= i < |store| && store[i].succeeded && first <= store[i].ts <= last
            && (f.kind == AnyKind || store[i].isRebalance == (f.kind == Rebalances))
            && (f.everyDay || (store[i].ts + f.zone) / 86400 == f.day)
  }

  function FeeAt(store: seq<Payment>): int -> int {
    i => if 0 <= i < |store| then store[i].feeMsat else 0
  }

  // The sum of their fees, and their number.
  ghost function Figures(store: seq<Payment>, first: int, last: int, f: Filter): Totals {
    Totals(SumSet(Wanted(store, first, last, f), FeeAt(store)), |Wanted(store, first, last, f)|)
  }

  lemma {:induction false} TotalIsFigures(store: seq<Payment>, first: int, last: int, f: Filter)
    ensures Total(Select(store, first, last, AnyKind), f) == Figures(store, first, last, f)
  {
    if store == [] {
      assert Wanted(store, first, last, f) == {};
    } else {
      var init, p := store[..|store| - 1], store[|store| - 1];
      TotalIsFigures(init, first, last, f);
      assert store == init + [p];
      SelectOne(init, p, first, last, AnyKind);
      hide SumOf, Select, SumSet, Wanted, FeeAt, Share;
      SumOne(Select(init, first, last, AnyKind), p, f, Fees);
      SumOne(Select(init, first, last, AnyKind), p, f, Number);
      assert Select(init, first, last, AnyKind) + [] == Select(init, first, last, AnyKind);
      OneMoreWanted(store, first, last, f);
    }
  }

  lemma OthersWanted(store: seq<Payment>, first: int, last: int, f: Filter)
    requires store != []
    ensures var n := |store| - 1;
            var wanted := Wanted(store, first, last, f);
            && Wanted(store[..n], first, last, f) == wanted - {n}
            && |wanted| == |wanted - {n}| + (if n in wanted then 1 else 0)
            && (n !in wanted ==> wanted - {n} == wanted)
  {
    var n := |store| - 1;
    var init, wanted := store[..n], Wanted(store, first, last, f);
    assert forall i :: 0 <= i < n ==> init[i] == store[i];
    assert Wanted(init, first, last, f) == wanted - {n};
    if n !in wanted {
      assert wanted - {n} == wanted;
    }
  }

  lemma OneMoreWanted(store: seq<Payment>, first: int, last: int, f: Filter)
    requires store != []
    ensures var init, p := store[..|store| - 1], store[|store| - 1];
            var counted := Counts(p, first, last, AnyKind);
            Figures(store, first, last, f) ==
            Totals(Figures(init, first, last, f).feeMsat + (if counted then Share(p, f, Fees) else 0),
                   Figures(init, first, last, f).count + (if counted then Share(p, f, Number) else 0))
  {
    hide SumSet;
    var n := |store| - 1;
    var init, wanted, p := store[..n], Wanted(store, first, last, f), store[n];
    assert n in wanted <==> Counts(p, first, last, AnyKind) && Passes(p, f);
    SumSetSame(Wanted(init, first, last, f), FeeAt(init), FeeAt(store));
    OthersWanted(store, first, last, f);
    assert FeeAt(store)(n) == p.feeMsat;
    assert Share(p, f, Fees) == (if Passes(p, f) then p.feeMsat else 0) && Share(p, f, Number) == if Passes(p, f) then 1 else 0;
    hide Wanted, FeeAt, Counts, Passes, Share;
    if n in wanted {
      SumSetRemove(wanted, n, FeeAt(store));
    }
  }

  // ---- The consumers -----------------------------------------------------------------------

  method Sum(reported: seq<Payment>, kind: Kind) returns (t: Totals)
    ensures t == Total(reported, AllOf(kind))
  {
    t := NOTHING;
    for i := 0 to |reported|
      invariant t == Total(reported[..i], AllOf(kind))
    {
      assert reported[..i + 1] == reported[..i] + [reported[i]];
      SumOne(reported[..i], reported[i], AllOf(kind), Fees);
      SumOne(reported[..i], reported[i], AllOf(kind), Number);
      hide SumOf;
      if IsOfKind(reported[i], kind) {
        t := Totals(t.feeMsat + reported[i].feeMsat, t.count + 1);
      }
    }
    assert reported[..|reported|] == reported;
  }

  // FetchPaymentMetrics: all payments are scanned, rebalances are skipped.
  method FetchPaymentMetrics(serve: Server, first: Int64, last: Int64, ghost store: seq<Payment>) returns (r: Result<Totals, RpcError>)
    ensures Stored(serve, store) ==> r == Ok(Figures(store, first, last, Filter(Ordinary, true, 0, 0)))
  {
    var reported, _ := Scan(serve, first, last, AnyKind, store);
    if reported.Err? {
      return Err(reported.error);
    }
    var t := Sum(reported.value, Ordinary);
    if Stored(serve, store) {
      ReportedTotal(store, reported.value, first, last, AnyKind, AllOf(Ordinary));
      TotalIsFigures(store, first, last, AllOf(Ordinary));
    }
    return Ok(t);
  }

  // FetchRebalanceMetrics: only rebalances are scanned.
  method FetchRebalanceMetrics(serve: Server, first: Int64, last: Int64, ghost store: seq<Payment>) returns (r: Result<Totals, RpcError>)
    ensures Stored(serve, store) ==> r == Ok(Figures(store, first, last, Filter(Rebalances, true, 0, 0)))
  {
    var reported, _ := Scan(serve, first, last, Rebalances, store);
    if reported.Err? {
      return Err(reported.error);
    }
    var t := Sum(reported.value, Rebalances);
    if Stored(serve, store) {
      ReportedTotal(store, reported.value, first, last, Rebalances, AllOf(Rebalances));
      TotalIsFigures(store, first, last, AllOf(Rebalances));
    }
    return Ok(t);
  }

  // A Go map read: the zero value for a missing key.
  function At(days: map<int, Totals>, day: int): Totals {
    if day in days then days[day] else NOTHING
  }

  method Bucket(reported: seq<Payment>, kind: Kind, zone: Zone) returns (days: map<int, Totals>)
    ensures forall day :: At(days, day) == Total(reported, DayOnly(kind, day, zone))
  {
    days := map[];
    for i := 0 to |reported|
      invariant forall day :: At(days, day) == Total(reported[..i], DayOnly(kind, day, zone))
    {
      var p := reported[i];
      assert reported[..i + 1] == reported[..i] + [p];
      forall day
        ensures Total(reported[..i + 1], DayOnly(kind, day, zone)) ==
                Grown(Total(reported[..i], DayOnly(kind, day, zone)), p, Passes(p, DayOnly(kind, day, zone)))
      {
        SumOne(reported[..i], p, DayOnly(kind, day, zone), Fees);
        SumOne(reported[..i], p, DayOnly(kind, day, zone), Number);
      }
      hide Total;
      if IsOfKind(p, kind) {
        var day := DayOf(p.ts, zone);
        days := days[day := Grown(At(days, day), p, true)];
      }
    }
    assert reported[..|reported|] == reported;
  }

  function Grown(t: Totals, p: Payment, counted: bool): Totals {
    if counted then Totals(t.feeMsat + p.feeMsat, t.count + 1) else t
  }

  // FetchPaymentFeesByDay and FetchRebalanceFeesByDay
  method FetchFeesByDay(serve: Server, first: Int64, last: Int64, kind: Kind, zone: Zone, ghost store: seq<Payment>)
    returns (r: Result<map<int, Totals>, RpcError>)
    ensures Stored(serve, store) ==>
              r.Ok? && forall day :: At(r.value, day) == Figures(store, first, last, Filter(kind, false, day, zone))
  {
    var scanned := if kind == Ordinary then AnyKind else kind;
    var reported, _ := Scan(serve, first, last, scanned, store);
    if reported.Err? {
      return Err(reported.error);
    }
    var days := Bucket(reported.value, kind, zone);
    if Stored(serve, store) {
      forall day
        ensures At(days, day) == Figures(store, first, last, Filter(kind, false, day, zone))
      {
        ReportedTotal(store, reported.value, first, last, scanned, DayOnly(kind, day, zone));
        TotalIsFigures(store, first, last, DayOnly(kind, day, zone));
      }
    }
    return Ok(days);
  }

  // ---- What the reports rely on --------------------------------------------------------------

  // Rebalances and ordinary payments together are all succeeded payments in range, fees
  // and counts alike.
  lemma KindsAddUp(store: seq<Payment>, first: int, last: int, f: Filter)
    ensures var r, o, all := Figures(store, first, last, f.(kind := Rebalances)), Figures(store, first, last, f.(kind := Ordinary)),
                             Figures(store, first, last, f.(kind := AnyKind));
            r.feeMsat + o.feeMsat == all.feeMsat && r.count + o.count == all.count
  {
    hide SumOf, Select, Figures;
    TotalIsFigures(store, first, last, f.(kind := Rebalances));
    TotalIsFigures(store, first, last, f.(kind := Ordinary));
    TotalIsFigures(store, first, last, f.(kind := AnyKind));
    KindsPartition(Select(store, first, last, AnyKind), f, Fees);
    KindsPartition(Select(store, first, last, AnyKind), f, Number);
  }

  lemma {:induction false} KindsPartition(s: seq<Payment>, f: Filter, figure: Figure)
    ensures SumOf(s, f.(kind := Rebalances), figure) + SumOf(s, f.(kind := Ordinary), figure) == SumOf(s, f.(kind := AnyKind), figure)
  {
    if s != [] {
      KindsPartition(s[1..], f, figure);
      hide DayOf;
      var share := Share(s[0], f.(kind := AnyKind), figure);
      assert Share(s[0], f.(kind := Rebalances), figure) == if s[0].isRebalance then share else 0;
      assert Share(s[0], f.(kind := Ordinary), figure) == if s[0].isRebalance then 0 else share;
    }
  }

  // Bucketing one scan of a range of days by local day gives each of those days what a
  // scan of that day's own window gives.
  lemma BackfillEqualsDaily(store: seq<Payment>, kind: Kind, zone: Zone, firstDay: int, lastDay: int, day: int)
    requires firstDay <= day <= lastDay
    ensures var w := RangeForDate(Midnight(day, zone), zone);
            Figures(store, BackfillStart(firstDay, zone), BackfillEnd(lastDay, zone), Filter(kind, false, day, zone)) ==
            Figures(store, w.StartUnix(), w.EndUnixInclusive(), Filter(kind, true, 0, 0))
  {
    hide SumOf, Midnight, RangeForDate, Figures;
    var w := RangeForDate(Midnight(day, zone), zone);
    TotalIsFigures(store, BackfillStart(firstDay, zone), BackfillEnd(lastDay, zone), DayOnly(kind, day, zone));
    TotalIsFigures(store, w.StartUnix(), w.EndUnixInclusive(), AllOf(kind));
    BackfillSums(store, kind, zone, firstDay, lastDay, day, Fees);
    BackfillSums(store, kind, zone, firstDay, lastDay, day, Number);
  }

  lemma {:induction false} BackfillSums(store: seq<Payment>, kind: Kind, zone: Zone, firstDay: int, lastDay: int, day: int, figure: Figure)
    requires firstDay <= day <= lastDay
    ensures var w := RangeForDate(Midnight(day, zone), zone);
            SumOf(Select(store, BackfillStart(firstDay, zone), BackfillEnd(lastDay, zone), AnyKind), DayOnly(kind, day, zone), figure) ==
            SumOf(Select(store, w.StartUnix(), w.EndUnixInclusive(), AnyKind), AllOf(kind), figure)
  {
    hide DayOf, Midnight, BackfillStart, BackfillEnd, TimeRange.StartUnix, TimeRange.EndUnixInclusive, RangeForDate;
    if store != [] {
      var w := RangeForDate(Midnight(day, zone), zone);
      BackfillSums(store[1..], kind, zone, firstDay, lastDay, day, figure);
      SameDayEitherWay(store[0], zone, firstDay, lastDay, day);
      SelectedSum(store, BackfillStart(firstDay, zone), BackfillEnd(lastDay, zone), AnyKind, DayOnly(kind, day, zone), figure);
      SelectedSum(store, w.StartUnix(), w.EndUnixInclusive(), AnyKind, AllOf(kind), figure);
      hide SumOf, Select;
    }
  }

  lemma SameDayEitherWay(p: Payment, zone: Zone, firstDay: int, lastDay: int, day: int)
    requires firstDay <= day <= lastDay
    ensures var w := RangeForDate(Midnight(day, zone), zone);
            Counts(p, BackfillStart(firstDay, zone), BackfillEnd(lastDay, zone), AnyKind) && DayOf(p.ts, zone) == day <==>
            Counts(p, w.StartUnix(), w.EndUnixInclusive(), AnyKind)
  {
    BackfillRangeHoldsItsDays(firstDay, lastDay, zone, p.ts);
    DayWindowHoldsTheDay(Midnight(day, zone), zone, p.ts);
    MidnightIsMidnight(day, zone);
    InDay(day * DAY_SECONDS - zone, zone, day);
    hide Midnight, DayOf, BackfillStart, BackfillEnd, TimeRange.StartUnix, TimeRange.EndUnixInclusive, RangeForDate;
  }
}
