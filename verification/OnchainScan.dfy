// On-chain fees of a period: from the wallet's transactions, with a breakdown of what
// channel closures cost, kept in total and per local day. Transaction ids are taken
// normalised (trimmed, lower case).
module OnchainScan {
  import opened Prelude
  import opened Days

  type Txid = string

  datatype WalletTx = WalletTx(txid: Txid, ts: int, feeSat: int)

  datatype CloseType = Cooperative | LocalForce | RemoteForce | Breach | OtherClose

  datatype ClosedChannel = ClosedChannel(closeType: CloseType, closingTx: Txid, sweeps: seq<Txid>)

  datatype Bucket = NoBucket | Coop | Local | Remote

  // closeBucketFromLndCloseType
  function BucketFor(t: CloseType): Bucket {
    match t
    case Cooperative => Coop
    case LocalForce => Local
    case RemoteForce => Remote
    case Breach => Remote
    case OtherClose => NoBucket
  }

  // A fee found by the external lookup, if any.
  type Lookup = Txid -> Option<int>

  // What is known of a transaction inside the period: its last positive fee and its first
  // time. The source's HasTime flag is always set here.
  datatype TxMeta = TxMeta(feeSat: int, ts: int)

  datatype Override = Override(feeMsat: int, count: int, coopMsat: int, localMsat: int, remoteMsat: int)

  const ZERO := Override(0, 0, 0, 0, 0)

  datatype Figure = TotalFee | Number | CoopCost | LocalCost | RemoteCost

  function Get(o: Override, fig: Figure): int {
    match fig
    case TotalFee => o.feeMsat
    case Number => o.count
    case CoopCost => o.coopMsat
    case LocalCost => o.localMsat
    case RemoteCost => o.remoteMsat
  }

  function AtDay(days: map<int, Override>, day: int): Override {
    if day in days then days[day] else ZERO
  }

  // The whole period, or one local day of it.
  datatype Scope = Scope(whole: bool, day: int, zone: Zone)

  predicate In(ts: int, sc: Scope) {
    sc.whole || DayOf(ts, sc.zone) == sc.day
  }

  function GetIn(totals: Override, days: map<int, Override>, sc: Scope, fig: Figure): int {
    Get(if sc.whole then totals else AtDay(days, sc.day), fig)
  }

  // What a fee, and what a closure cost, adds to each figure.
  function FeeDelta(feeSat: int, fig: Figure): int {
    if feeSat <= 0 then 0
    else if fig == TotalFee then feeSat * 1000
    else if fig == Number then 1
    else 0
  }

  function CostDelta(feeSat: int, bucket: Bucket, fig: Figure): int {
    if feeSat > 0 && ((bucket == Coop && fig == CoopCost) || (bucket == Local && fig == LocalCost) || (bucket == Remote && fig == RemoteCost))
    then feeSat * 1000
    else 0
  }

  // ---- The running totals -------------------------------------------------------------------

  // The totals are the sum of the days, field by field.
  ghost predicate Conserved(totals: Override, days: map<int, Override>) {
    forall fig :: Get(totals, fig) == SumSet(days.Keys, DayFigure(days, fig))
  }

  function DayFigure(days: map<int, Override>, fig: Figure): int -> int {
    day => Get(AtDay(days, day), fig)
  }

  lemma UpdateConserves(days: map<int, Override>, day: int, entry: Override, fig: Figure)
    ensures var days' := days[day := entry];
            SumSet(days'.Keys, DayFigure(days', fig)) ==
            SumSet(days.Keys, DayFigure(days, fig)) + Get(entry, fig) - Get(AtDay(days, day), fig)
  {
    var days' := days[day := entry];
    var rest := days.Keys - {day};
    assert days'.Keys - {day} == rest;
    SumSetRemove(days'.Keys, day, DayFigure(days', fig));
    SumSetSame(rest, DayFigure(days', fig), DayFigure(days, fig));
    if day in days {
      SumSetRemove(days.Keys, day, DayFigure(days, fig));
    } else {
      assert rest == days.Keys;
    }
  }

  function WithCost(o: Override, msat: int, bucket: Bucket): Override {
    match bucket
    case Coop => o.(coopMsat := o.coopMsat + msat)
    case Local => o.(localMsat := o.localMsat + msat)
    case Remote => o.(remoteMsat := o.remoteMsat + msat)
    case NoBucket => o
  }

  class Tally {
    const zone: Zone
    var totals: Override
    var byDay: map<int, Override>

    ghost predicate Valid()
      reads this
    {
      Conserved(totals, byDay)
    }

    constructor (zone: Zone)
      ensures Valid() && totals == ZERO && byDay == map[] && this.zone == zone
    {
      this.zone := zone;
      totals := ZERO;
      byDay := map[];
    }

    // accumulateOnchainTotals
    method AddFee(ts: int, feeSat: int)
      requires Valid()
      modifies this
      ensures Valid()
      ensures forall sc: Scope, fig :: sc.zone == zone ==>
                GetIn(totals, byDay, sc, fig) == old(GetIn(totals, byDay, sc, fig)) + (if In(ts, sc) then FeeDelta(feeSat, fig) else 0)
    {
      hide DayOf, Conserved;
      if feeSat <= 0 {
        return;
      }
      var day := DayOf(ts, zone);
      var entry := AtDay(byDay, day);
      Put(day,
          totals.(feeMsat := totals.feeMsat + feeSat * 1000, count := totals.count + 1),
          entry.(feeMsat := entry.feeMsat + feeSat * 1000, count := entry.count + 1));
    }

    // accumulateOnchainBreakdown
    method AddCost(ts: int, feeSat: int, bucket: Bucket)
      requires Valid()
      modifies this
      ensures Valid()
      ensures forall sc: Scope, fig :: sc.zone == zone ==>
                GetIn(totals, byDay, sc, fig) == old(GetIn(totals, byDay, sc, fig)) + (if In(ts, sc) then CostDelta(feeSat, bucket, fig) else 0)
    {
      hide DayOf, Conserved;
      if feeSat <= 0 || bucket == NoBucket {
        return;
      }
      var day := DayOf(ts, zone);
      Put(day, WithCost(totals, feeSat * 1000, bucket), WithCost(AtDay(byDay, day), feeSat * 1000, bucket));
    }

    // Both the totals and one day's entry grow by the same.
    method Put(day: int, t: Override, entry: Override)
      requires Valid()
      requires forall fig :: Get(t, fig) - Get(totals, fig) == Get(entry, fig) - Get(AtDay(byDay, day), fig)
      modifies this
      ensures Valid() && totals == t && byDay == old(byDay)[day := entry]
    {
      forall fig {
        UpdateConserves(byDay, day, entry, fig);
      }
      totals := t;
      byDay := byDay[day := entry];
    }
  }

  // ---- The wallet's transactions -------------------------------------------------------------

  datatype Period = Period(first: int, last: int)

  predicate InPeriod(ts: int, p: Period) {
    p.first <= ts <= p.last
  }

  // What the transactions of the period add to a figure.
  function WalletSum(items: seq<WalletTx>, p: Period, sc: Scope, fig: Figure): int {
    if items == [] then 0
    else
      var tx := items[|items| - 1];
      WalletSum(items[..|items| - 1], p, sc, fig) + (if InPeriod(tx.ts, p) && In(tx.ts, sc) then FeeDelta(tx.feeSat, fig) else 0)
  }

  // What they tell about one transaction id.
  function MetaOf(items: seq<WalletTx>, p: Period, txid: Txid): Option<TxMeta> {
    if items == [] then None
    else
      var tx, before := items[|items| - 1], MetaOf(items[..|items| - 1], p, txid);
      if txid == "" || tx.txid != txid || !InPeriod(tx.ts, p) then before
      else Some(Noted(before, tx))
  }

  function Noted(before: Option<TxMeta>, tx: WalletTx): TxMeta {
    TxMeta(if tx.feeSat > 0 then tx.feeSat else if before.Some? then before.value.feeSat else 0,
           if before.Some? then before.value.ts else tx.ts)
  }

  function Find<V>(m: map<Txid, V>, txid: Txid): Option<V> {
    if txid in m then Some(m[txid]) else None
  }

  // FetchOnchainFeeMetricsFast
  method FetchFast(items: seq<WalletTx>, p: Period) returns (totals: Override)
    ensures forall fig :: Get(totals, fig) == WalletSum(items, p, Scope(true, 0, 0), fig)
    ensures totals == Override(1000 * SumSet(Paying(items, p, Scope(true, 0, 0)), FeeAt(items)), |Paying(items, p, Scope(true, 0, 0))|, 0, 0, 0)
  {
    hide SumSet, FeeAt, Paying;
    totals := ZERO;
    for i := 0 to |items|
      invariant forall fig :: Get(totals, fig) == WalletSum(items[..i], p, Scope(true, 0, 0), fig)
    {
      assert items[..i + 1][..i] == items[..i];
      if InPeriod(items[i].ts, p) && items[i].feeSat > 0 {
        totals := totals.(feeMsat := totals.feeMsat + items[i].feeSat * 1000, count := totals.count + 1);
      }
    }
    assert items[..|items|] == items;
    assert forall fig :: Get(totals, fig) == WalletSum(items, p, Scope(true, 0, 0), fig);
    WalletFigures(items, p, Scope(true, 0, 0));
    WalletHasNoCosts(items, p, Scope(true, 0, 0));
    assert totals == Override(Get(totals, TotalFee), Get(totals, Number), Get(totals, CoopCost), Get(totals, LocalCost), Get(totals, RemoteCost));
  }

  // The first loop of fetchOnchainFees.
  method ScanWallet(items: seq<WalletTx>, p: Period, zone: Zone) returns (tally: Tally, metas: map<Txid, TxMeta>)
    ensures fresh(tally) && tally.Valid() && tally.zone == zone
    ensures forall sc: Scope, fig :: sc.zone == zone ==> GetIn(tally.totals, tally.byDay, sc, fig) == WalletSum(items, p, sc, fig)
    ensures forall txid :: Find(metas, txid) == MetaOf(items, p, txid)
  {
    tally := new Tally(zone);
    metas := map[];
    for i := 0 to |items|
      invariant fresh(tally) && tally.Valid() && tally.zone == zone
      invariant forall sc: Scope, fig :: sc.zone == zone ==> GetIn(tally.totals, tally.byDay, sc, fig) == WalletSum(items[..i], p, sc, fig)
      invariant forall txid :: Find(metas, txid) == MetaOf(items[..i], p, txid)
    {
      var tx := items[i];
      assert items[..i + 1][..i] == items[..i];
      if InPeriod(tx.ts, p) {
        tally.AddFee(tx.ts, tx.feeSat);
        if tx.txid != "" {
          metas := metas[tx.txid := Noted(Find(metas, tx.txid), tx)];
        }
      }
    }
    assert items[..|items|] == items;
  }

  // ---- Which transactions closed a channel -----------------------------------------------------

  // addClosureTx: the first bucket given to a transaction stays.
  function AddClosure(m: map<Txid, Bucket>, txid: Txid, bucket: Bucket): map<Txid, Bucket> {
    if txid == "" || txid in m then m else m[txid := bucket]
  }

  function Classified(pairs: seq<(Txid, Bucket)>): map<Txid, Bucket> {
    if pairs == [] then map[]
    else AddClosure(Classified(pairs[..|pairs| - 1]), pairs[|pairs| - 1].0, pairs[|pairs| - 1].1)
  }

  function SweepPairs(sweeps: seq<Txid>, bucket: Bucket): (r: seq<(Txid, Bucket)>)
    ensures |r| == |sweeps|
  {
    seq(|sweeps|, i requires 0 <= i < |sweeps| => (sweeps[i], bucket))
  }

  // The closing transaction and the sweeps of every closed channel, in order.
  function ClosurePairs(channels: seq<ClosedChannel>): seq<(Txid, Bucket)> {
    if channels == [] then []
    else
      var c := channels[|channels| - 1];
      ClosurePairs(channels[..|channels| - 1]) + [(c.closingTx, BucketFor(c.closeType))] + SweepPairs(c.sweeps, BucketFor(c.closeType))
  }

  method Classify(channels: seq<ClosedChannel>) returns (m: map<Txid, Bucket>)
    ensures m == Classified(ClosurePairs(channels))
    ensures forall txid ::
              && (Find(m, txid) == Some(Coop) <==> FirstNamedBy(channels, txid, {Cooperative}))
              && (Find(m, txid) == Some(Local) <==> FirstNamedBy(channels, txid, {LocalForce}))
              && (Find(m, txid) == Some(Remote) <==> FirstNamedBy(channels, txid, {RemoteForce, Breach}))
              && (txid in m <==> exists c :: c in channels && Names(c, txid))
  {
    m := map[];
    for i := 0 to |channels|
      invariant m == Classified(ClosurePairs(channels[..i]))
    {
      assert channels[..i + 1][..i] == channels[..i];
      m := ClassifyOne(m, ClosurePairs(channels[..i]), channels[i]);
    }
    assert channels[..|channels|] == channels;
    hide FirstNamedBy, Names, Classified, ClosurePairs;
    forall txid {
      FirstChannelWins(channels, txid);
    }
  }

  method ClassifyOne(before: map<Txid, Bucket>, ghost pairs: seq<(Txid, Bucket)>, c: ClosedChannel) returns (m: map<Txid, Bucket>)
    requires before == Classified(pairs)
    ensures m == Classified(pairs + [(c.closingTx, BucketFor(c.closeType))] + SweepPairs(c.sweeps, BucketFor(c.closeType)))
  {
    var bucket := BucketFor(c.closeType);
    ghost var first, sweeps := pairs + [(c.closingTx, bucket)], SweepPairs(c.sweeps, bucket);
    assert first[..|first| - 1] == pairs;
    m := AddClosure(before, c.closingTx, bucket);
    assert first + sweeps[..0] == first;
    for j := 0 to |c.sweeps|
      invariant m == Classified(first + sweeps[..j])
    {
      ghost var longer := first + sweeps[..j + 1];
      assert longer[..|longer| - 1] == first + sweeps[..j];
      m := AddClosure(m, c.sweeps[j], bucket);
    }
    assert sweeps[..|c.sweeps|] == sweeps;
  }

  // A transaction is a closure if and only if some closed channel names it, and its bucket
  // is that of the first one that does.
  lemma {:induction false} FirstClassificationWins(pairs: seq<(Txid, Bucket)>, txid: Txid)
    ensures txid in Classified(pairs) <==> txid != "" && exists i :: 0 <= i < |pairs| && pairs[i].0 == txid
    ensures txid in Classified(pairs) ==>
              exists i :: 0 <= i < |pairs| && pairs[i] == (txid, Classified(pairs)[txid]) && forall j :: 0 <= j < i ==> pairs[j].0 != txid
  {
    if pairs != [] {
      var init, n := pairs[..|pairs| - 1], |pairs| - 1;
      FirstClassificationWins(init, txid);
      if txid in Classified(init) {
        var i :| 0 <= i < |init| && init[i] == (txid, Classified(init)[txid]) && forall j :: 0 <= j < i ==> init[j].0 != txid;
        assert pairs[i] == init[i] && forall j :: 0 <= j < i ==> pairs[j] == init[j];
      } else if txid != "" {
        assert forall j :: 0 <= j < n ==> init[j] == pairs[j] && init[j].0 != txid;
        assert pairs[n].0 == txid ==> pairs[n] == (txid, Classified(pairs)[txid]);
      }
    }
  }

  // ---- What closures add ------------------------------------------------------------------------

  // The fee the lookup supplies for a transaction the wallet lists without one.
  function Supplement(meta: TxMeta, found: Option<int>): int {
    if meta.feeSat > 0 || found.None? || found.value <= 0 then 0 else found.value
  }

  function CloseFee(meta: TxMeta, found: Option<int>): int {
    if meta.feeSat > 0 then meta.feeSat else Supplement(meta, found)
  }

  // Closures the wallet does not know in the period add nothing.
  function ClosureDelta(meta: Option<TxMeta>, bucket: Bucket, found: Option<int>, sc: Scope, fig: Figure): int {
    if meta.None? || !In(meta.value.ts, sc) then 0
    else FeeDelta(Supplement(meta.value, found), fig) + CostDelta(CloseFee(meta.value, found), bucket, fig)
  }

  function ClosureFigure(items: seq<WalletTx>, p: Period, closures: map<Txid, Bucket>, lookup: Lookup, sc: Scope, fig: Figure): Txid -> int {
    txid => ClosureDelta(MetaOf(items, p, txid), if txid in closures then closures[txid] else NoBucket, lookup(txid), sc, fig)
  }

  ghost function ClosureSum(items: seq<WalletTx>, p: Period, closures: map<Txid, Bucket>, lookup: Lookup, sc: Scope, fig: Figure): int {
    SumSet(closures.Keys, ClosureFigure(items, p, closures, lookup, sc, fig))
  }

  method AddOneClosure(tally: Tally, known: Option<TxMeta>, bucket: Bucket, found: Option<int>)
    requires tally.Valid()
    modifies tally
    ensures tally.Valid()
    ensures forall sc: Scope, fig :: sc.zone == tally.zone ==>
              GetIn(tally.totals, tally.byDay, sc, fig) == old(GetIn(tally.totals, tally.byDay, sc, fig)) + ClosureDelta(known, bucket, found, sc, fig)
  {
    hide DayOf, GetIn, Conserved;
    if known.None? {
      return;
    }
    var meta := known.value;
    var feeSat := CloseFee(meta, found);
    if feeSat <= 0 {
      return;
    }
    if meta.feeSat <= 0 {
      tally.AddFee(meta.ts, feeSat);
    }
    tally.AddCost(meta.ts, feeSat, bucket);
  }

  lemma OneMoreClosure(items: seq<WalletTx>, p: Period, closures: map<Txid, Bucket>, lookup: Lookup, sc: Scope, fig: Figure,
                       done: set<Txid>, txid: Txid)
    requires txid in closures && txid !in done
    ensures SumSet(done + {txid}, ClosureFigure(items, p, closures, lookup, sc, fig)) ==
            SumSet(done, ClosureFigure(items, p, closures, lookup, sc, fig)) +
            ClosureDelta(MetaOf(items, p, txid), closures[txid], lookup(txid), sc, fig)
  {
    assert done + {txid} - {txid} == done;
    hide MetaOf, ClosureDelta;
    SumSetRemove(done + {txid}, txid, ClosureFigure(items, p, closures, lookup, sc, fig));
  }

  // The last loop of fetchOnchainFees. Go visits the map in any order.
  method AddClosures(tally: Tally, items: seq<WalletTx>, metas: map<Txid, TxMeta>, p: Period, closures: map<Txid, Bucket>, lookup: Lookup)
    requires tally.Valid()
    requires forall txid :: Find(metas, txid) == MetaOf(items, p, txid)
    modifies tally
    ensures tally.Valid()
    ensures forall sc: Scope, fig :: sc.zone == tally.zone ==>
              GetIn(tally.totals, tally.byDay, sc, fig) ==
              old(GetIn(tally.totals, tally.byDay, sc, fig)) + ClosureSum(items, p, closures, lookup, sc, fig)
  {
    var left := closures.Keys;
    ghost var done: set<Txid> := {};
    while left != {}
      invariant tally.Valid() && done !! left && done + left == closures.Keys
      invariant forall sc: Scope, fig :: sc.zone == tally.zone ==>
                  GetIn(tally.totals, tally.byDay, sc, fig) ==
                  old(GetIn(tally.totals, tally.byDay, sc, fig)) + SumSet(done, ClosureFigure(items, p, closures, lookup, sc, fig))
      decreases |left|
    {
      var txid :| txid in left;
      left := left - {txid};
      ghost var next := done + {txid};
      assert next - {txid} == done;
      hide SumSet, MetaOf, ClosureDelta, GetIn, Conserved, ClosureFigure;
      forall sc: Scope, fig
        ensures SumSet(next, ClosureFigure(items, p, closures, lookup, sc, fig)) ==
                SumSet(done, ClosureFigure(items, p, closures, lookup, sc, fig)) +
                ClosureDelta(MetaOf(items, p, txid), closures[txid], lookup(txid), sc, fig)
      {
        OneMoreClosure(items, p, closures, lookup, sc, fig, done, txid);
      }
      done := next;
      AddOneClosure(tally, Find(metas, txid), closures[txid], lookup(txid));
    }
    assert done == closures.Keys;
  }

  // ---- The whole report ---------------------------------------------------------------------------

  // What fetchOnchainFees reports of a scope. The channel list may be unavailable; then
  // only the wallet's fees are reported.
  ghost function Reported(items: seq<WalletTx>, p: Period, channels: Option<seq<ClosedChannel>>, lookup: Lookup, sc: Scope, fig: Figure): int {
    WalletSum(items, p, sc, fig) +
    (if channels.Some? then ClosureSum(items, p, Classified(ClosurePairs(channels.value)), lookup, sc, fig) else 0)
  }

  // ---- The report in terms of its inputs -----------------------------------------------------------

  // The wallet lists this transaction at this place, in the period.
  predicate Listed(items: seq<WalletTx>, p: Period, i: int, txid: Txid) {
    0 <= i < |items| && txid != "" && items[i].txid == txid && p.first <= items[i].ts <= p.last
  }

  // It first lists it at a time in the scope.
  ghost predicate FirstSeenIn(items: seq<WalletTx>, p: Period, sc: Scope, txid: Txid) {
    exists i :: Listed(items, p, i, txid) && In(items[i].ts, sc) && forall j :: 0 <= j < i ==> !Listed(items, p, j, txid)
  }

  // The last positive fee it lists for it, or 0 if there is none.
  ghost predicate LastFeeIs(items: seq<WalletTx>, p: Period, txid: Txid, feeSat: int) {
    || (feeSat == 0 && forall i :: Listed(items, p, i, txid) ==> items[i].feeSat <= 0)
    || (feeSat > 0 && exists i :: Listed(items, p, i, txid) && items[i].feeSat == feeSat && forall j :: i < j && Listed(items, p, j, txid) ==> items[j].feeSat <= 0)
  }

  // The last positive fee listed, else what the lookup finds, else 0.
  ghost predicate ClosingFeeIs(items: seq<WalletTx>, p: Period, lookup: Lookup, txid: Txid, feeSat: int) {
    || (feeSat > 0 && LastFeeIs(items, p, txid, feeSat))
    || (LastFeeIs(items, p, txid, 0) && feeSat == match lookup(txid) { case Some(fee) => if fee > 0 then fee else 0 case None => 0 })
  }

  predicate Names(c: ClosedChannel, txid: Txid) {
    txid != "" && (c.closingTx == txid || txid in c.sweeps)
  }

  // The first closed channel that names it was closed in one of these ways.
  ghost predicate FirstNamedBy(channels: seq<ClosedChannel>, txid: Txid, types: set<CloseType>) {
    exists i :: 0 <= i < |channels| && Names(channels[i], txid) && channels[i].closeType in types && forall j :: 0 <= j < i ==> !Names(channels[j], txid)
  }

  function Txids(items: seq<WalletTx>): set<Txid> {
    set i | 0 <= i < |items| :: items[i].txid
  }

  // The transactions whose fees are charged to these ways of closing.
  ghost function Charged(items: seq<WalletTx>, p: Period, channels: seq<ClosedChannel>, sc: Scope, types: set<CloseType>): set<Txid> {
    set txid | txid in Txids(items) && FirstSeenIn(items, p, sc, txid) && FirstNamedBy(channels, txid, types)
  }

  // The transactions whose fees only the lookup knows: listed without one, and named by
  // some closed channel.
  ghost function LookedUp(items: seq<WalletTx>, p: Period, channels: seq<ClosedChannel>, lookup: Lookup, sc: Scope): set<Txid> {
    set txid | txid in Txids(items) && FirstSeenIn(items, p, sc, txid) && LastFeeIs(items, p, txid, 0)
               && (exists c :: c in channels && Names(c, txid)) && lookup(txid).Some? && lookup(txid).value > 0
  }

  // The places of the wallet's list with a fee in the period and the scope.
  function Paying(items: seq<WalletTx>, p: Period, sc: Scope): set<int> {
    set i | 0 <= i < |items| && p.first <= items[i].ts <= p.last && In(items[i].ts, sc) && items[i].feeSat > 0
  }

  function FeeAt(items: seq<WalletTx>): int -> int {
    i => if 0 <= i < |items| then items[i].feeSat else 0
  }

  function ClosingFee(items: seq<WalletTx>, p: Period, lookup: Lookup): Txid -> int {
    txid =>
      var meta := MetaOf(items, p, txid);
      if meta.None? then 0 else CloseFee(meta.value, lookup(txid))
  }

  // What one more transaction in the wallet's list changes.
  lemma OneMoreListed(items: seq<WalletTx>, p: Period, txid: Txid, sc: Scope)
    requires items != []
    ensures var n := |items| - 1;
            var init, tx := items[..n], items[n];
            && (FirstSeenIn(items, p, sc, txid) <==>
                FirstSeenIn(init, p, sc, txid) || (Listed(items, p, n, txid) && In(tx.ts, sc) && forall j :: !Listed(init, p, j, txid)))
            && ((exists i :: Listed(items, p, i, txid)) <==> Listed(items, p, n, txid) || exists i :: Listed(init, p, i, txid))
            && forall fee :: LastFeeIs(init, p, txid, fee) ==>
                 LastFeeIs(items, p, txid, if Listed(items, p, n, txid) && tx.feeSat > 0 then tx.feeSat else fee)
  {
    hide In;
    var n := |items| - 1;
    var init := items[..n];
    assert forall i :: 0 <= i < n ==> init[i] == items[i];
    assert forall i :: i < n ==> (Listed(items, p, i, txid) <==> Listed(init, p, i, txid));
    assert forall i :: Listed(items, p, i, txid) ==> i < n || i == n;
    assert forall i :: Listed(init, p, i, txid) ==> i < n;
    hide Listed;
  }

  lemma {:induction false} MetaMeans(items: seq<WalletTx>, p: Period, txid: Txid, sc: Scope)
    ensures var meta := MetaOf(items, p, txid);
            && (meta.Some? <==> exists i :: Listed(items, p, i, txid))
            && (meta.Some? && In(meta.value.ts, sc) <==> FirstSeenIn(items, p, sc, txid))
            && LastFeeIs(items, p, txid, if meta.Some? then meta.value.feeSat else 0)
  {
    hide In;
    if items != [] {
      MetaMeans(items[..|items| - 1], p, txid, sc);
      OneMoreListed(items, p, txid, sc);
      hide LastFeeIs, FirstSeenIn;
    }
  }

  // The fee charged for a closure is the one of the listing, or the one looked up.
  lemma ClosingFeeIsListed(items: seq<WalletTx>, p: Period, lookup: Lookup, txid: Txid)
    requires exists i :: Listed(items, p, i, txid)
    ensures ClosingFeeIs(items, p, lookup, txid, ClosingFee(items, p, lookup)(txid))
  {
    MetaMeans(items, p, txid, Scope(true, 0, 0));
    OneLastFee(items, p, txid, MetaOf(items, p, txid).value.feeSat);
    hide LastFeeIs, MetaOf;
  }

  // ---- The first channel that names a transaction -----------------------------------------------

  lemma {:induction false} ClassifiedInTwo(a: seq<(Txid, Bucket)>, b: seq<(Txid, Bucket)>, txid: Txid)
    ensures Find(Classified(a + b), txid) == if txid in Classified(a) then Find(Classified(a), txid) else Find(Classified(b), txid)
  {
    if b == [] {
      assert a + b == a;
    } else {
      var init := b[..|b| - 1];
      assert (a + b)[..|a + b| - 1] == a + init;
      ClassifiedInTwo(a, init, txid);
    }
  }

  function PairsOf(c: ClosedChannel): seq<(Txid, Bucket)> {
    [(c.closingTx, BucketFor(c.closeType))] + SweepPairs(c.sweeps, BucketFor(c.closeType))
  }

  lemma ClassifiedByOne(c: ClosedChannel, txid: Txid)
    ensures Find(Classified(PairsOf(c)), txid) == if Names(c, txid) then Some(BucketFor(c.closeType)) else None
  {
    var pairs := PairsOf(c);
    FirstClassificationWins(pairs, txid);
    assert forall i :: 0 <= i < |pairs| ==> pairs[i].1 == BucketFor(c.closeType);
    assert forall i :: 1 <= i < |pairs| ==> pairs[i].0 == c.sweeps[i - 1];
    if txid in c.sweeps {
      var i :| 0 <= i < |c.sweeps| && c.sweeps[i] == txid;
      assert pairs[i + 1].0 == txid;
    }
    assert pairs[0].0 == c.closingTx;
  }

  // What a transaction is classified as goes by the close type of the first channel that
  // names it.
  lemma {:induction false} FirstChannelWins(channels: seq<ClosedChannel>, txid: Txid)
    ensures var bucket := Find(Classified(ClosurePairs(channels)), txid);
            && (bucket == Some(Coop) <==> FirstNamedBy(channels, txid, {Cooperative}))
            && (bucket == Some(Local) <==> FirstNamedBy(channels, txid, {LocalForce}))
            && (bucket == Some(Remote) <==> FirstNamedBy(channels, txid, {RemoteForce, Breach}))
            && (bucket.Some? <==> exists c :: c in channels && Names(c, txid))
  {
    hide Names, Classified, ClosurePairs, PairsOf, FirstNamedBy;
    if channels == [] {
      NoClosures();
      NoChannels(txid);
    } else {
      var n := |channels| - 1;
      var init, c := channels[..n], channels[n];
      FirstChannelWins(init, txid);
      PairsStep(channels);
      ClassifiedInTwo(ClosurePairs(init), PairsOf(c), txid);
      ClassifiedByOne(c, txid);
      OneMoreChannel(channels, txid, {Cooperative});
      OneMoreChannel(channels, txid, {LocalForce});
      OneMoreChannel(channels, txid, {RemoteForce, Breach});
      assert channels == init + [c];
    }
  }

  lemma NoChannels(txid: Txid)
    ensures forall types :: !FirstNamedBy([], txid, types)
  {
  }

  lemma PairsStep(channels: seq<ClosedChannel>)
    requires channels != []
    ensures ClosurePairs(channels) == ClosurePairs(channels[..|channels| - 1]) + PairsOf(channels[|channels| - 1])
  {
  }

  lemma OneMoreChannel(channels: seq<ClosedChannel>, txid: Txid, types: set<CloseType>)
    requires channels != []
    ensures var init, c := channels[..|channels| - 1], channels[|channels| - 1];
            FirstNamedBy(channels, txid, types) <==>
            FirstNamedBy(init, txid, types) || (Names(c, txid) && c.closeType in types && forall d :: d in init ==> !Names(d, txid))
  {
    hide Names;
    var n := |channels| - 1;
    var init, c := channels[..n], channels[n];
    assert forall i :: 0 <= i < n ==> init[i] == channels[i];
    if Names(c, txid) && c.closeType in types && forall d :: d in init ==> !Names(d, txid) {
      assert forall j :: 0 <= j < n ==> !Names(channels[j], txid) by {
        assert forall j :: 0 <= j < n ==> init[j] in init;
      }
    }
    if FirstNamedBy(channels, txid, types) && !FirstNamedBy(init, txid, types) {
      var i :| 0 <= i < |channels| && Names(channels[i], txid) && channels[i].closeType in types && forall j :: 0 <= j < i ==> !Names(channels[j], txid);
      assert i == n;
    }
  }

  // ---- The five figures ----------------------------------------------------------------------------

  lemma {:induction false} WalletFigures(items: seq<WalletTx>, p: Period, sc: Scope)
    ensures WalletSum(items, p, sc, TotalFee) == 1000 * SumSet(Paying(items, p, sc), FeeAt(items))
    ensures WalletSum(items, p, sc, Number) == |Paying(items, p, sc)|
  {
    hide In, FeeAt, SumSet;
    if items == [] {
      NothingPays(items, p, sc);
    } else {
      WalletFigures(items[..|items| - 1], p, sc);
      OneMorePays(items, p, sc);
    }
  }

  lemma NothingPays(items: seq<WalletTx>, p: Period, sc: Scope)
    requires items == []
    ensures Paying(items, p, sc) == {} && SumSet(Paying(items, p, sc), FeeAt(items)) == 0
  {
    assert Paying(items, p, sc) == {};
  }

  lemma OneMorePays(items: seq<WalletTx>, p: Period, sc: Scope)
    requires items != []
    ensures var n := |items| - 1;
            var init, paying := items[..n], Paying(items, p, sc);
            var more := InPeriod(items[n].ts, p) && In(items[n].ts, sc) && items[n].feeSat > 0;
            && SumSet(paying, FeeAt(items)) == SumSet(Paying(init, p, sc), FeeAt(init)) + (if more then items[n].feeSat else 0)
            && |paying| == |Paying(init, p, sc)| + (if more then 1 else 0)
  {
    hide In, SumSet;
    var n := |items| - 1;
    var init, paying := items[..n], Paying(items, p, sc);
    SumSetSame(Paying(init, p, sc), FeeAt(init), FeeAt(items));
    assert paying - {n} == Paying(init, p, sc);
    if n in paying {
      SumSetRemove(paying, n, FeeAt(items));
    } else {
      assert paying == Paying(init, p, sc);
    }
  }

  // A closure costs what the fee of its transaction says, and counts for the bucket of the
  // way it was closed.
  lemma CostFigure(items: seq<WalletTx>, p: Period, channels: seq<ClosedChannel>, lookup: Lookup, sc: Scope, types: set<CloseType>, bucket: Bucket, fig: Figure)
    requires forall txid :: Find(Classified(ClosurePairs(channels)), txid) == Some(bucket) <==> FirstNamedBy(channels, txid, types)
    requires (bucket == Coop && fig == CoopCost) || (bucket == Local && fig == LocalCost) || (bucket == Remote && fig == RemoteCost)
    ensures ClosureSum(items, p, Classified(ClosurePairs(channels)), lookup, sc, fig) ==
            1000 * SumSet(Charged(items, p, channels, sc, types), ClosingFee(items, p, lookup))
  {
    hide In, MetaOf, Classified, ClosurePairs, FirstNamedBy;
    var closures, charged := Classified(ClosurePairs(channels)), Charged(items, p, channels, sc, types);
    forall txid
      ensures txid in charged <==> MetaOf(items, p, txid).Some? && In(MetaOf(items, p, txid).value.ts, sc) && Find(closures, txid) == Some(bucket)
    {
      MetaMeans(items, p, txid, sc);
    }
    SumSetSupport(closures.Keys, charged, ClosureFigure(items, p, closures, lookup, sc, fig), ClosingFee(items, p, lookup), 1000);
  }

  lemma LookedUpFigures(items: seq<WalletTx>, p: Period, channels: seq<ClosedChannel>, lookup: Lookup, sc: Scope)
    ensures ClosureSum(items, p, Classified(ClosurePairs(channels)), lookup, sc, TotalFee) ==
            1000 * SumSet(LookedUp(items, p, channels, lookup, sc), ClosingFee(items, p, lookup))
    ensures ClosureSum(items, p, Classified(ClosurePairs(channels)), lookup, sc, Number) == |LookedUp(items, p, channels, lookup, sc)|
  {
    hide In, MetaOf, Classified, ClosurePairs, FirstNamedBy, Names, LastFeeIs;
    var closures, found := Classified(ClosurePairs(channels)), LookedUp(items, p, channels, lookup, sc);
    forall txid
      ensures txid in found <==>
                && MetaOf(items, p, txid).Some? && In(MetaOf(items, p, txid).value.ts, sc) && txid in closures
                && MetaOf(items, p, txid).value.feeSat <= 0 && lookup(txid).Some? && lookup(txid).value > 0
    {
      MetaMeans(items, p, txid, sc);
      FirstChannelWins(channels, txid);
      OneLastFee(items, p, txid, if MetaOf(items, p, txid).Some? then MetaOf(items, p, txid).value.feeSat else 0);
    }
    SumSetSupport(closures.Keys, found, ClosureFigure(items, p, closures, lookup, sc, TotalFee), ClosingFee(items, p, lookup), 1000);
    SumSetSupport(closures.Keys, found, ClosureFigure(items, p, closures, lookup, sc, Number), _ => 1, 1);
    SumOfOnes(found);
  }

  lemma OneLastFee(items: seq<WalletTx>, p: Period, txid: Txid, feeSat: int)
    requires LastFeeIs(items, p, txid, feeSat)
    ensures feeSat >= 0 && (LastFeeIs(items, p, txid, 0) <==> feeSat == 0)
  {
  }

  // Every figure of the report, for the whole period or for one day: the positive fees of
  // the wallet's list and those only the lookup knows; and, for each way of closing, the
  // fees of the listed transactions whose first naming channel was closed that way.
  lemma ReportedFigures(items: seq<WalletTx>, p: Period, channels: Option<seq<ClosedChannel>>, lookup: Lookup, sc: Scope)
    ensures var fee, closed := ClosingFee(items, p, lookup), if channels.Some? then channels.value else [];
            var paying, found := Paying(items, p, sc), LookedUp(items, p, closed, lookup, sc);
            && Reported(items, p, channels, lookup, sc, TotalFee) == 1000 * (SumSet(paying, FeeAt(items)) + SumSet(found, fee))
            && Reported(items, p, channels, lookup, sc, Number) == |paying| + |found|
            && Reported(items, p, channels, lookup, sc, CoopCost) == 1000 * SumSet(Charged(items, p, closed, sc, {Cooperative}), fee)
            && Reported(items, p, channels, lookup, sc, LocalCost) == 1000 * SumSet(Charged(items, p, closed, sc, {LocalForce}), fee)
            && Reported(items, p, channels, lookup, sc, RemoteCost) == 1000 * SumSet(Charged(items, p, closed, sc, {RemoteForce, Breach}), fee)
  {
    hide In, WalletSum, MetaOf, Classified, FirstNamedBy, ClosureFigure;
    var closed := if channels.Some? then channels.value else [];
    assert channels.None? ==> Classified(ClosurePairs(closed)) == map[] by {
      NoClosures();
    }
    WalletFigures(items, p, sc);
    WalletHasNoCosts(items, p, sc);
    LookedUpFigures(items, p, closed, lookup, sc);
    forall txid {
      FirstChannelWins(closed, txid);
    }
    hide ClosurePairs;
    CostFigure(items, p, closed, lookup, sc, {Cooperative}, Coop, CoopCost);
    CostFigure(items, p, closed, lookup, sc, {LocalForce}, Local, LocalCost);
    CostFigure(items, p, closed, lookup, sc, {RemoteForce, Breach}, Remote, RemoteCost);
  }

  lemma NoClosures()
    ensures Classified(ClosurePairs([])) == map[]
  {
  }

  // The figures of an entry, each told in terms of the report's inputs.
  ghost predicate FiguresOf(o: Override, items: seq<WalletTx>, p: Period, channels: Option<seq<ClosedChannel>>, lookup: Lookup, sc: Scope) {
    var fee, closed := ClosingFee(items, p, lookup), if channels.Some? then channels.value else [];
    var paying, found := Paying(items, p, sc), LookedUp(items, p, closed, lookup, sc);
    && o.feeMsat == 1000 * (SumSet(paying, FeeAt(items)) + SumSet(found, fee))
    && o.count == |paying| + |found|
    && o.coopMsat == 1000 * SumSet(Charged(items, p, closed, sc, {Cooperative}), fee)
    && o.localMsat == 1000 * SumSet(Charged(items, p, closed, sc, {LocalForce}), fee)
    && o.remoteMsat == 1000 * SumSet(Charged(items, p, closed, sc, {RemoteForce, Breach}), fee)
  }

  function Costs(o: Override): int {
    o.coopMsat + o.localMsat + o.remoteMsat
  }

  // fetchOnchainFees. Totals and days are functions of the inputs alone, whatever order the
  // closure map is visited in; the totals are the sum of the days, field by field; and what
  // closures cost never exceeds the total fee. Each figure, of the period or of a day, is
  // told in terms of the wallet's list, the closed channels and the lookup.
  method FetchOnchainFees(items: seq<WalletTx>, p: Period, channels: Option<seq<ClosedChannel>>, lookup: Lookup, zone: Zone)
    returns (totals: Override, byDay: map<int, Override>)
    ensures forall sc: Scope, fig :: sc.zone == zone ==> GetIn(totals, byDay, sc, fig) == Reported(items, p, channels, lookup, sc, fig)
    ensures forall sc: Scope :: sc.zone == zone ==> FiguresOf(if sc.whole then totals else AtDay(byDay, sc.day), items, p, channels, lookup, sc)
    ensures Conserved(totals, byDay)
    ensures 0 <= Costs(totals) <= totals.feeMsat
  {
    hide WalletSum, MetaOf, Classified, ClosurePairs, SumSet, ClosureFigure, FirstNamedBy, Names, DayOf, In, Conserved, Paying, LookedUp, Charged, FeeAt, ClosingFee;
    var tally, metas := ScanWallet(items, p, zone);
    if channels.Some? {
      var closures := Classify(channels.value);
      AddClosures(tally, items, metas, p, closures, lookup);
    }
    totals, byDay := tally.totals, tally.byDay;
    CostsFit(items, p, channels, lookup, Scope(true, 0, zone));
    hide Reported;
    assert forall fig :: GetIn(totals, byDay, Scope(true, 0, zone), fig) == Get(totals, fig);
    forall sc: Scope | sc.zone == zone
      ensures FiguresOf(if sc.whole then totals else AtDay(byDay, sc.day), items, p, channels, lookup, sc)
    {
      ReportedFigures(items, p, channels, lookup, sc);
      assert forall fig :: GetIn(totals, byDay, sc, fig) == Get(if sc.whole then totals else AtDay(byDay, sc.day), fig);
    }
  }

  // The fast metric is the full one without the fees the lookup supplied: their sum and
  // their number are what it leaves out.
  lemma FastOmitsTheSupplements(items: seq<WalletTx>, p: Period, channels: seq<ClosedChannel>, lookup: Lookup, zone: Zone, fig: Figure)
    requires fig == TotalFee || fig == Number
    ensures var sc, closures := Scope(true, 0, zone), Classified(ClosurePairs(channels));
            Reported(items, p, Some(channels), lookup, sc, fig) ==
            WalletSum(items, p, sc, fig) + SumSet(closures.Keys, SupplementFigure(items, p, lookup, sc, fig))
  {
    var sc, closures := Scope(true, 0, zone), Classified(ClosurePairs(channels));
    SumSetSame(closures.Keys, ClosureFigure(items, p, closures, lookup, sc, fig), SupplementFigure(items, p, lookup, sc, fig));
  }

  function SupplementFigure(items: seq<WalletTx>, p: Period, lookup: Lookup, sc: Scope, fig: Figure): Txid -> int {
    txid =>
      var meta := MetaOf(items, p, txid);
      if meta.None? || !In(meta.value.ts, sc) then 0 else FeeDelta(Supplement(meta.value, lookup(txid)), fig)
  }

  // ---- Costs never exceed fees -----------------------------------------------------------------------

  // No transaction is listed twice.
  predicate Distinct(items: seq<WalletTx>) {
    forall i, j :: 0 <= i < j < |items| && items[i].txid != "" ==> items[i].txid != items[j].txid
  }

  function MetaFee(items: seq<WalletTx>, p: Period, sc: Scope): Txid -> int {
    txid =>
      var meta := MetaOf(items, p, txid);
      if meta.None? || !In(meta.value.ts, sc) then 0 else FeeDelta(meta.value.feeSat, TotalFee)
  }

  lemma {:induction false} UnlistedHasNoMeta(items: seq<WalletTx>, p: Period, txid: Txid)
    requires forall i :: 0 <= i < |items| ==> items[i].txid != txid
    ensures MetaOf(items, p, txid) == None
  {
    if items != [] {
      UnlistedHasNoMeta(items[..|items| - 1], p, txid);
    }
  }

  // The fees noted for any set of transactions are among the wallet's fees. Within one
  // day this needs every transaction listed once.
  lemma {:induction false} NotedFeesFit(items: seq<WalletTx>, p: Period, sc: Scope, txids: set<Txid>)
    requires sc.whole || Distinct(items)
    ensures SumSet(txids, MetaFee(items, p, sc)) <= WalletSum(items, p, sc, TotalFee)
  {
    if items == [] {
      SumSetSame(txids, MetaFee(items, p, sc), _ => 0);
      ZeroSum(txids);
    } else {
      var init, tx := items[..|items| - 1], items[|items| - 1];
      NotedFeesFit(init, p, sc, txids);
      if tx.txid in txids {
        NotedFeesFitLast(items, p, sc, txids);
      } else {
        SumSetSame(txids, MetaFee(items, p, sc), MetaFee(init, p, sc));
      }
    }
  }

  lemma {:induction false} ZeroSum(txids: set<Txid>)
    ensures SumSet(txids, _ => 0) == 0
    decreases |txids|
  {
    if txids != {} {
      var x :| x in txids;
      SumSetRemove(txids, x, _ => 0);
      ZeroSum(txids - {x});
    }
  }

  lemma NotedFeesFitLast(items: seq<WalletTx>, p: Period, sc: Scope, txids: set<Txid>)
    requires items != [] && items[|items| - 1].txid in txids
    requires sc.whole || Distinct(items)
    requires SumSet(txids, MetaFee(items[..|items| - 1], p, sc)) <= WalletSum(items[..|items| - 1], p, sc, TotalFee)
    ensures SumSet(txids, MetaFee(items, p, sc)) <= WalletSum(items, p, sc, TotalFee)
  {
    var init, tx := items[..|items| - 1], items[|items| - 1];
    SumSetRemove(txids, tx.txid, MetaFee(items, p, sc));
    SumSetRemove(txids, tx.txid, MetaFee(init, p, sc));
    SumSetSame(txids - {tx.txid}, MetaFee(items, p, sc), MetaFee(init, p, sc));
    if !sc.whole && tx.txid != "" {
      UnlistedHasNoMeta(init, p, tx.txid);
    }
  }

  // What closures cost in a scope is at most its total fee; within one day this needs
  // every transaction listed once.
  lemma CostsFit(items: seq<WalletTx>, p: Period, channels: Option<seq<ClosedChannel>>, lookup: Lookup, sc: Scope)
    requires sc.whole || Distinct(items)
    ensures 0 <= Reported(items, p, channels, lookup, sc, CoopCost) + Reported(items, p, channels, lookup, sc, LocalCost)
                 + Reported(items, p, channels, lookup, sc, RemoteCost)
              <= Reported(items, p, channels, lookup, sc, TotalFee)
  {
    WalletHasNoCosts(items, p, sc);
    if channels.Some? {
      ClosureCostsFit(items, p, Classified(ClosurePairs(channels.value)), lookup, sc);
    }
  }

  lemma {:induction false} WalletHasNoCosts(items: seq<WalletTx>, p: Period, sc: Scope)
    ensures forall fig :: WalletSum(items, p, sc, fig) >= 0
    ensures forall fig :: fig != TotalFee && fig != Number ==> WalletSum(items, p, sc, fig) == 0
  {
    if items != [] {
      WalletHasNoCosts(items[..|items| - 1], p, sc);
    }
  }

  lemma ClosureCostsFit(items: seq<WalletTx>, p: Period, closures: map<Txid, Bucket>, lookup: Lookup, sc: Scope)
    requires sc.whole || Distinct(items)
    ensures 0 <= ClosureSum(items, p, closures, lookup, sc, CoopCost) + ClosureSum(items, p, closures, lookup, sc, LocalCost)
                 + ClosureSum(items, p, closures, lookup, sc, RemoteCost)
              <= WalletSum(items, p, sc, TotalFee) + ClosureSum(items, p, closures, lookup, sc, TotalFee)
  {
    var keys := closures.Keys;
    var coop, local := ClosureFigure(items, p, closures, lookup, sc, CoopCost), ClosureFigure(items, p, closures, lookup, sc, LocalCost);
    var remote, fee := ClosureFigure(items, p, closures, lookup, sc, RemoteCost), ClosureFigure(items, p, closures, lookup, sc, TotalFee);
    var two, three: Txid -> int := t => coop(t) + local(t), t => coop(t) + local(t) + remote(t);
    var noted := MetaFee(items, p, sc);
    var bound: Txid -> int := t => noted(t) + fee(t);
    SumSetAdd(keys, coop, local, two);
    SumSetAdd(keys, two, remote, three);
    SumSetAdd(keys, noted, fee, bound);
    forall t
      ensures 0 <= three(t) <= bound(t)
    {
      OneClosureFits(MetaOf(items, p, t), if t in closures then closures[t] else NoBucket, lookup(t), sc);
      hide ClosureDelta, FeeDelta;
    }
    hide ClosureFigure, MetaFee;
    SumSetBelow(keys, three, bound);
    SumSetMonotone({}, keys, three);
    NotedFeesFit(items, p, sc, keys);
  }

  lemma OneClosureFits(meta: Option<TxMeta>, bucket: Bucket, found: Option<int>, sc: Scope)
    ensures var cost := ClosureDelta(meta, bucket, found, sc, CoopCost) + ClosureDelta(meta, bucket, found, sc, LocalCost)
                        + ClosureDelta(meta, bucket, found, sc, RemoteCost);
            0 <= cost <= (if meta.None? || !In(meta.value.ts, sc) then 0 else FeeDelta(meta.value.feeSat, TotalFee))
                         + ClosureDelta(meta, bucket, found, sc, TotalFee)
  {
    hide DayOf;
  }

  // ---- Backfill equals daily ----------------------------------------------------------------------------

  function WindowOf(day: int, zone: Zone): Period {
    var w := RangeForDate(Midnight(day, zone), zone);
    Period(w.StartUnix(), w.EndUnixInclusive())
  }

  function BackfillPeriod(firstDay: int, lastDay: int, zone: Zone): Period {
    Period(BackfillStart(firstDay, zone), BackfillEnd(lastDay, zone))
  }

  lemma SameDayEitherWay(ts: int, zone: Zone, firstDay: int, lastDay: int, day: int)
    requires firstDay <= day <= lastDay
    ensures InPeriod(ts, WindowOf(day, zone)) <==> InPeriod(ts, BackfillPeriod(firstDay, lastDay, zone)) && DayOf(ts, zone) == day
  {
    BackfillRangeHoldsItsDays(firstDay, lastDay, zone, ts);
    DayWindowHoldsTheDay(Midnight(day, zone), zone, ts);
    MidnightIsMidnight(day, zone);
    InDay(day * DAY_SECONDS - zone, zone, day);
    hide DayOf, Midnight, BackfillStart, BackfillEnd, TimeRange.StartUnix, TimeRange.EndUnixInclusive, RangeForDate;
  }

  // Bucketing one scan of a range of days gives each day what a scan of that day's own
  // window gives in total, if every transaction is listed once.
  lemma BackfillEqualsDaily(items: seq<WalletTx>, channels: Option<seq<ClosedChannel>>, lookup: Lookup, zone: Zone,
                            firstDay: int, lastDay: int, day: int, fig: Figure)
    requires firstDay <= day <= lastDay && Distinct(items)
    ensures Reported(items, BackfillPeriod(firstDay, lastDay, zone), channels, lookup, Scope(false, day, zone), fig) ==
            Reported(items, WindowOf(day, zone), channels, lookup, Scope(true, 0, zone), fig)
  {
    hide DayOf, WindowOf, BackfillPeriod;
    var range, window := BackfillPeriod(firstDay, lastDay, zone), WindowOf(day, zone);
    forall ts
      ensures InPeriod(ts, window) <==> InPeriod(ts, range) && DayOf(ts, zone) == day
    {
      SameDayEitherWay(ts, zone, firstDay, lastDay, day);
    }
    WalletSumsAgree(items, range, window, zone, day, fig);
    if channels.Some? {
      var closures := Classified(ClosurePairs(channels.value));
      forall txid
        ensures ClosureFigure(items, range, closures, lookup, Scope(false, day, zone), fig)(txid) ==
                ClosureFigure(items, window, closures, lookup, Scope(true, 0, zone), fig)(txid)
      {
        MetasAgree(items, range, window, zone, day, txid);
        DeltasAgree(MetaOf(items, range, txid), if txid in closures then closures[txid] else NoBucket, lookup(txid), zone, day, fig);
        hide ClosureDelta;
      }
      SumSetSame(closures.Keys, ClosureFigure(items, range, closures, lookup, Scope(false, day, zone), fig),
                 ClosureFigure(items, window, closures, lookup, Scope(true, 0, zone), fig));
    }
  }

  lemma DeltasAgree(r: Option<TxMeta>, bucket: Bucket, found: Option<int>, zone: Zone, day: int, fig: Figure)
    ensures ClosureDelta(r, bucket, found, Scope(false, day, zone), fig) ==
            ClosureDelta(if r.Some? && DayOf(r.value.ts, zone) == day then r else None, bucket, found, Scope(true, 0, zone), fig)
  {
    hide DayOf;
  }

  lemma {:induction false} WalletSumsAgree(items: seq<WalletTx>, range: Period, window: Period, zone: Zone, day: int, fig: Figure)
    requires forall ts :: InPeriod(ts, window) <==> InPeriod(ts, range) && DayOf(ts, zone) == day
    ensures WalletSum(items, range, Scope(false, day, zone), fig) == WalletSum(items, window, Scope(true, 0, zone), fig)
  {
    hide DayOf, InPeriod;
    if items != [] {
      WalletSumsAgree(items[..|items| - 1], range, window, zone, day, fig);
    }
  }

  // The window knows a transaction exactly when the range knows it on that day.
  lemma {:induction false} MetasAgree(items: seq<WalletTx>, range: Period, window: Period, zone: Zone, day: int, txid: Txid)
    requires Distinct(items)
    requires forall ts :: InPeriod(ts, window) <==> InPeriod(ts, range) && DayOf(ts, zone) == day
    ensures var r := MetaOf(items, range, txid);
            MetaOf(items, window, txid) == if r.Some? && DayOf(r.value.ts, zone) == day then r else None
  {
    hide DayOf, InPeriod;
    if items != [] {
      var init, tx := items[..|items| - 1], items[|items| - 1];
      MetasAgree(init, range, window, zone, day, txid);
      if txid != "" && tx.txid == txid {
        UnlistedHasNoMeta(init, range, txid);
        UnlistedHasNoMeta(init, window, txid);
      }
    }
  }

  // A transaction listed twice, on two days, is charged to the first day by a backfill and
  // to both by daily runs.
  lemma RepeatedTransactionsBreakTheDays(lookup: Lookup)
    ensures var items := [WalletTx("a", 0, 1), WalletTx("a", DAY_SECONDS, 1)];
            var channels := Some([ClosedChannel(Cooperative, "a", [])]);
            && Reported(items, BackfillPeriod(0, 1, 0), channels, lookup, Scope(false, 1, 0), CoopCost) == 0
            && Reported(items, WindowOf(1, 0), channels, lookup, Scope(true, 0, 0), CoopCost) == 1000
  {
    var first, second := WalletTx("a", 0, 1), WalletTx("a", DAY_SECONDS, 1);
    var items := [first, second];
    var c := ClosedChannel(Cooperative, "a", []);
    assert items[..1] == [first] && [first][..0] == [] && [c][..0] == [];
    assert ClosurePairs([c]) == [("a", Coop)];
    assert [("a", Coop)][..0] == [];
    var closures := Classified(ClosurePairs([c]));
    assert closures == map["a" := Coop];
    var range, window := BackfillPeriod(0, 1, 0), WindowOf(1, 0);
    SameDayEitherWay(0, 0, 0, 1, 1);
    SameDayEitherWay(DAY_SECONDS, 0, 0, 1, 1);
    BackfillRangeHoldsItsDays(0, 1, 0, 0);
    BackfillRangeHoldsItsDays(0, 1, 0, DAY_SECONDS);
    assert DayOf(0, 0) == 0 && DayOf(DAY_SECONDS, 0) == 1;
    hide BackfillPeriod, WindowOf, DayOf;
    assert MetaOf([first], range, "a") == Some(TxMeta(1, 0));
    assert MetaOf(items, range, "a") == Some(TxMeta(1, 0));
    assert MetaOf([first], window, "a") == None;
    assert MetaOf(items, window, "a") == Some(TxMeta(1, DAY_SECONDS));
    SumSetRemove(closures.Keys, "a", ClosureFigure(items, range, closures, lookup, Scope(false, 1, 0), CoopCost));
    SumSetRemove(closures.Keys, "a", ClosureFigure(items, window, closures, lookup, Scope(true, 0, 0), CoopCost));
    assert closures.Keys - {"a"} == {};
    WalletHasNoCosts(items, range, Scope(false, 1, 0));
    WalletHasNoCosts(items, window, Scope(true, 0, 0));
  }
}
