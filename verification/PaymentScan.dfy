// The backward paged scans over LND's payments and their consumers. The two scans of
// the source run one and the same loop; they differ in which payments they report.
module PaymentScan {
  import opened Prelude

  const PAGE_SIZE := 5000
  const MAX_PAGES := 200000
  const MAX_INT64 := TWO_63 - 1

  // A payment as the scan sees it: its index, its timestamp, whether it succeeded, its
  // fee, and whether it pays the node itself.
  datatype Payment = Payment(index: nat, ts: Int64, succeeded: bool, feeMsat: int, isRebalance: bool)

  datatype Page = Page(payments: seq<Option<Payment>>, firstIndexOffset: nat)

  datatype RpcError = RpcError

  // LND's answers by the number of the request and the offset asked for.
  type Server = (nat, nat) -> Result<Page, RpcError>

  // Which payments a consumer counts.
  datatype Kind = AnyKind | Rebalances | Ordinary

  predicate IsOfKind(p: Payment, kind: Kind) {
    match kind
    case AnyKind => true
    case Rebalances => p.isRebalance
    case Ordinary => !p.isRebalance
  }

  predicate Counts(p: Payment, first: int, last: int, kind: Kind) {
    first <= p.ts <= last && p.succeeded && IsOfKind(p, kind)
  }

  function Select(s: seq<Payment>, first: int, last: int, kind: Kind): seq<Payment> {
    if s == [] then []
    else (if Counts(s[0], first, last, kind) then [s[0]] else []) + Select(s[1..], first, last, kind)
  }

  lemma {:induction false} SelectAppend(a: seq<Payment>, b: seq<Payment>, first: int, last: int, kind: Kind)
    ensures Select(a + b, first, last, kind) == Select(a, first, last, kind) + Select(b, first, last, kind)
  {
    if a == [] {
      assert a + b == b;
    } else {
      assert (a + b)[0] == a[0] && (a + b)[1..] == a[1..] + b;
      SelectAppend(a[1..], b, first, last, kind);
    }
  }

  lemma {:induction false} SelectNone(s: seq<Payment>, first: int, last: int, kind: Kind)
    requires forall p :: p in s ==> p.ts < first
    ensures Select(s, first, last, kind) == []
  {
    if s != [] {
      SelectNone(s[1..], first, last, kind);
    }
  }

  // Each payment is selected as often as it is there, if it succeeded, lies in the range and
  // is of the kind asked for, and not at all otherwise.
  lemma {:induction false} SelectedAreThose(s: seq<Payment>, first: int, last: int, kind: Kind, p: Payment)
    ensures multiset(Select(s, first, last, kind))[p] ==
            if p.succeeded && first <= p.ts <= last && (kind == AnyKind || p.isRebalance == (kind == Rebalances)) then multiset(s)[p] else 0
  {
    if s != [] {
      SelectedAreThose(s[1..], first, last, kind, p);
      assert s == [s[0]] + s[1..];
      hide Select;
      SelectAppend([s[0]], s[1..], first, last, kind);
      SelectOfOne(s[0], first, last, kind);
    }
  }

  lemma SelectOfOne(p: Payment, first: int, last: int, kind: Kind)
    ensures Select([p], first, last, kind) == if Counts(p, first, last, kind) then [p] else []
  {
    assert [p][1..] == [];
  }

  // ---- The server's store ----------------------------------------------------------------

  predicate Increasing(store: seq<Payment>) {
    && (forall i :: 0 <= i < |store| ==> store[i].index > 0)
    && (forall i, j :: 0 <= i < j < |store| ==> store[i].index < store[j].index)
  }

  predicate InTimeOrder(store: seq<Payment>) {
    forall i, j :: 0 <= i < j < |store| ==> store[i].ts <= store[j].ts
  }

  // How many payments have an index below the offset; all of them for offset zero.
  function Below(store: seq<Payment>, offset: nat): (n: nat)
    ensures n <= |store|
  {
    if store == [] || offset == 0 || store[|store| - 1].index < offset then |store|
    else Below(store[..|store| - 1], offset)
  }

  lemma {:induction false} BelowFindsIndex(store: seq<Payment>, n: nat)
    requires Increasing(store) && n < |store|
    ensures Below(store, store[n].index) == n
  {
    if n == |store| - 1 {
      var init := store[..n];
      if init != [] {
        assert init[n - 1].index < store[n].index;
      }
      assert Below(store, store[n].index) == Below(init, store[n].index) == n;
    } else {
      assert store[n].index < store[|store| - 1].index;
      BelowFindsIndex(store[..|store| - 1], n);
    }
  }

  function PageStart(n: nat): nat {
    if n < PAGE_SIZE then 0 else n - PAGE_SIZE
  }

  function Somes(s: seq<Payment>): (r: seq<Option<Payment>>)
    ensures |r| == |s| && forall i :: 0 <= i < |s| ==> r[i] == Some(s[i])
  {
    seq(|s|, i requires 0 <= i < |s| => Some(s[i]))
  }

  // A server that answers a reversed request from this store: the last payments below
  // the offset, with or without the index of the first of them.
  ghost predicate Serves(serve: Server, store: seq<Payment>) {
    forall k, offset :: ServedAt(serve(k, offset), store, offset)
  }

  ghost predicate ServedAt(r: Result<Page, RpcError>, store: seq<Payment>, offset: nat) {
    ServesAt(r, store, Below(store, offset))
  }

  ghost predicate ServesAt(r: Result<Page, RpcError>, store: seq<Payment>, n: nat)
    requires n <= |store|
  {
    && r.Ok?
    && r.value.payments == Somes(store[PageStart(n)..n])
    && (r.value.firstIndexOffset == 0 || (n > 0 && r.value.firstIndexOffset == store[PageStart(n)].index))
  }

  // ---- One page -------------------------------------------------------------------------

  function Present(page: seq<Option<Payment>>): seq<Payment> {
    if page == [] then []
    else (if page[0].Some? then [page[0].value] else []) + Present(page[1..])
  }

  lemma {:induction false} PresentAppend(a: seq<Option<Payment>>, b: seq<Option<Payment>>)
    ensures Present(a + b) == Present(a) + Present(b)
  {
    if a == [] {
      assert a + b == b;
    } else {
      assert (a + b)[0] == a[0] && (a + b)[1..] == a[1..] + b;
      PresentAppend(a[1..], b);
    }
  }

  lemma {:induction false} PresentSomes(s: seq<Payment>)
    ensures Present(Somes(s)) == s
  {
    if s != [] {
      assert Somes(s)[1..] == Somes(s[1..]);
      PresentSomes(s[1..]);
    }
  }

  // What the scan learns about a page besides the payments it reports.
  datatype Stats = Stats(minIndex: nat, minTs: int, maxTs: int)

  predicate StatsOf(st: Stats, s: seq<Payment>) {
    && 0 <= st.maxTs && (forall p :: p in s ==> st.minTs <= p.ts <= st.maxTs)
    && (st.maxTs == 0 || exists p :: p in s && p.ts == st.maxTs)
    && (st.minTs == MAX_INT64 || exists p :: p in s && p.ts == st.minTs)
    && (st.minIndex == 0 || exists p :: p in s && p.index == st.minIndex)
    && (forall p :: p in s && p.index > 0 ==> 0 < st.minIndex <= p.index)
  }

  method ReadPage(page: seq<Option<Payment>>, first: int, last: int, kind: Kind) returns (matches: seq<Payment>, st: Stats)
    ensures matches == Select(Present(page), first, last, kind)
    ensures StatsOf(st, Present(page))
  {
    matches := [];
    var minIndex, minTs, maxTs := 0, MAX_INT64, 0;
    for i := 0 to |page|
      invariant matches == Select(Present(page[..i]), first, last, kind)
      invariant StatsOf(Stats(minIndex, minTs, maxTs), Present(page[..i]))
    {
      PresentStep(page, i);
      if page[i].Some? {
        var p := page[i].value;
        StatsGrow(Stats(minIndex, minTs, maxTs), Present(page[..i]), p);
        SelectOne(Present(page[..i]), p, first, last, kind);
        hide Present, Select, StatsOf;
        if p.index > 0 && (minIndex == 0 || p.index < minIndex) {
          minIndex := p.index;
        }
        maxTs := if p.ts > maxTs then p.ts else maxTs;
        minTs := if p.ts < minTs then p.ts else minTs;
        if Counts(p, first, last, kind) {
          matches := matches + [p];
        }
      }
    }
    assert page[..|page|] == page;
    st := Stats(minIndex, minTs, maxTs);
  }

  lemma PresentStep(page: seq<Option<Payment>>, i: nat)
    requires i < |page|
    ensures page[i].None? ==> Present(page[..i + 1]) == Present(page[..i])
    ensures page[i].Some? ==> Present(page[..i + 1]) == Present(page[..i]) + [page[i].value]
  {
    assert page[..i + 1] == page[..i] + [page[i]];
    PresentAppend(page[..i], [page[i]]);
    assert [page[i]][1..] == [];
  }

  lemma SelectOne(s: seq<Payment>, p: Payment, first: int, last: int, kind: Kind)
    ensures Select(s + [p], first, last, kind) ==
            Select(s, first, last, kind) + (if Counts(p, first, last, kind) then [p] else [])
  {
    SelectAppend(s, [p], first, last, kind);
    assert [p][1..] == [];
  }

  lemma StatsGrow(st: Stats, s: seq<Payment>, p: Payment)
    requires StatsOf(st, s)
    ensures StatsOf(Stats(if p.index > 0 && (st.minIndex == 0 || p.index < st.minIndex) then p.index else st.minIndex,
                          if p.ts < st.minTs then p.ts else st.minTs,
                          if p.ts > st.maxTs then p.ts else st.maxTs), s + [p])
  {
    forall q | q in s
      ensures q in s + [p]
    {
    }
    assert p in s + [p];
  }

  // ---- The scan ---------------------------------------------------------------------------

  // A page on which every payment is too old ends the scan.
  predicate AllOld(page: seq<Payment>, first: int) {
    first > 0 && forall p :: p in page ==> p.ts < first
  }

  // How many payments, the oldest ones, a scan never reads that has n left to read and
  // may still send this many requests.
  function Unread(store: seq<Payment>, n: nat, requests: nat, first: int): (left: nat)
    requires n <= |store|
    ensures left <= n
    decreases n
  {
    if n == 0 || requests == 0 then n
    else if AllOld(store[PageStart(n)..n], first) then PageStart(n)
    else Unread(store, PageStart(n), requests - 1, first)
  }

  // scanOutgoingPayments and scanRebalancePayments: what they report, in the order they
  // report it. Whatever the server answers they stop within 200000 requests. Over a
  // store, they report exactly the matching payments among those they read, each once.
  method Scan(serve: Server, first: Int64, last: Int64, kind: Kind, ghost store: seq<Payment>)
    returns (r: Result<seq<Payment>, RpcError>, requests: nat)
    ensures requests <= 200000
    ensures Increasing(store) && Serves(serve, store) ==>
              r.Ok? && multiset(r.value) == multiset(Select(store[Unread(store, |store|, 200000, first)..], first, last, kind))
    ensures Increasing(store) && Serves(serve, store) ==>
              forall p :: multiset(r.value)[p] ==
                if p.succeeded && first <= p.ts <= last && (kind == AnyKind || p.isRebalance == (kind == Rebalances))
                then multiset(store[Unread(store, |store|, 200000, first)..])[p] else 0
  {
    hide Unread, ReadFrom, Somes, Present, StatsOf, AllOld, Select;
    ghost var served := Increasing(store) && Serves(serve, store);
    var reported: seq<Payment> := [];
    var offset: nat, lastOffset: nat := 0, 0;
    requests := 0;
    ghost var n: nat := |store|;
    NothingRead(store, first, last, kind);
    while requests < MAX_PAGES
      invariant requests <= MAX_PAGES && n <= |store|
      invariant served ==> ReadFrom(store, n, offset, reported, first, last, kind)
      invariant served ==> Unread(store, n, MAX_PAGES - requests, first) == Unread(store, |store|, MAX_PAGES, first)
      invariant lastOffset == offset
    {
      hide Increasing;
      var response := serve(requests, offset);
      assert served ==> ServedAt(response, store, offset);
      hide Serves, ServedAt;
      UnreadStep(store, n, MAX_PAGES - requests, first);
      requests := requests + 1;
      if response.Err? {
        ServedIsOk(response, store, offset, served);
        return Err(response.error), requests;
      }
      var page := response.value;
      if page.payments == [] {
        EmptyPageEnds(page, store, n, offset, reported, first, last, kind, served);
        break;
      }
      var matches, st := ReadPage(page.payments, first, last, kind);
      if served {
        PageRead(store, n, offset, page, reported, matches, st, first, last, kind);
      }
      reported := reported + matches;
      if st.maxTs < first {
        n := PageStart(n);
        break;
      }
      var next := NextOffset(page, st);
      if next == 0 || next == offset || lastOffset == next {
        break;
      }
      lastOffset := next;
      offset := next;
      n := PageStart(n);
      if |page.payments| < PAGE_SIZE && st.minTs < first {
        UnreadStep(store, n, MAX_PAGES - requests, first);
        break;
      }
    }
    UnreadStep(store, n, 0, first);
    assert served ==> n == Unread(store, |store|, MAX_PAGES, first);
    ReadIsReported(store, n, offset, reported, first, last, kind);
    forall p {
      SelectedAreThose(store[n..], first, last, kind, p);
    }
    r := Ok(reported);
  }

  lemma NothingRead(store: seq<Payment>, first: int, last: int, kind: Kind)
    ensures ReadFrom(store, |store|, 0, [], first, last, kind)
  {
    assert store[|store|..] == [];
  }

  lemma ReadIsReported(store: seq<Payment>, n: nat, offset: nat, reported: seq<Payment>, first: int, last: int, kind: Kind)
    requires n <= |store|
    ensures (exists o: nat :: ReadFrom(store, n, o, reported, first, last, kind)) ==>
              multiset(reported) == multiset(Select(store[n..], first, last, kind))
  {
  }

  lemma ServedIsOk(response: Result<Page, RpcError>, store: seq<Payment>, offset: nat, served: bool)
    requires response.Err? && (served ==> ServedAt(response, store, offset))
    ensures !served
  {
  }

  lemma UnreadStep(store: seq<Payment>, n: nat, requests: nat, first: int)
    requires n <= |store|
    ensures n == 0 || requests == 0 ==> Unread(store, n, requests, first) == n
    ensures n > 0 && requests > 0 ==>
              Unread(store, n, requests, first) ==
              if AllOld(store[PageStart(n)..n], first) then PageStart(n) else Unread(store, PageStart(n), requests - 1, first)
  {
  }

  // All but the first n payments have been read, and the next request is for those.
  ghost predicate ReadFrom(store: seq<Payment>, n: nat, offset: nat, reported: seq<Payment>, first: int, last: int, kind: Kind)
    requires n <= |store|
  {
    && n == Below(store, offset) && (if n < |store| then offset == store[n].index else offset == 0)
    && multiset(reported) == multiset(Select(store[n..], first, last, kind))
  }

  function NextOffset(page: Page, st: Stats): nat {
    if page.firstIndexOffset != 0 then page.firstIndexOffset else st.minIndex
  }

  lemma EmptyPageEnds(page: Page, store: seq<Payment>, n: nat, offset: nat, reported: seq<Payment>, first: int, last: int, kind: Kind, served: bool)
    requires n <= |store| && page.payments == []
    requires served ==> ServedAt(Ok(page), store, offset) && ReadFrom(store, n, offset, reported, first, last, kind)
    ensures served ==> n == 0
  {
    if served {
      assert |Somes(store[PageStart(n)..n])| == n - PageStart(n);
    }
  }

  // What reading a page of the store's own achieves, and where the scan goes next.
  lemma PageRead(store: seq<Payment>, n: nat, offset: nat, page: Page, reported: seq<Payment>, matches: seq<Payment>, st: Stats,
                 first: int, last: int, kind: Kind)
    requires Increasing(store) && n <= |store| && page.payments != []
    requires ServedAt(Ok(page), store, offset) && ReadFrom(store, n, offset, reported, first, last, kind)
    requires matches == Select(Present(page.payments), first, last, kind) && StatsOf(st, Present(page.payments))
    ensures n > 0 && ReadFrom(store, PageStart(n), NextOffset(page, st), reported + matches, first, last, kind)
    ensures st.maxTs < first <==> AllOld(store[PageStart(n)..n], first)
    ensures NextOffset(page, st) > 0 && NextOffset(page, st) != offset
    ensures |page.payments| < PAGE_SIZE ==> PageStart(n) == 0
  {
    hide Select, Below, Present, StatsOf;
    var m := PageStart(n);
    PresentSomes(store[m..n]);
    PageExtends(store, n, first, last, kind);
    StatsOfPage(store, n, st, first);
    BelowFindsIndex(store, m);
  }

  // Reading a page extends what has been reported from the suffix read so far.
  lemma PageExtends(store: seq<Payment>, n: nat, first: int, last: int, kind: Kind)
    requires n <= |store|
    ensures Select(store[PageStart(n)..], first, last, kind) ==
            Select(store[PageStart(n)..n], first, last, kind) + Select(store[n..], first, last, kind)
  {
    assert store[PageStart(n)..] == store[PageStart(n)..n] + store[n..];
    SelectAppend(store[PageStart(n)..n], store[n..], first, last, kind);
  }

  lemma StatsOfPage(store: seq<Payment>, n: nat, st: Stats, first: int)
    requires Increasing(store) && 0 < n <= |store| && StatsOf(st, store[PageStart(n)..n])
    ensures st.maxTs < first <==> AllOld(store[PageStart(n)..n], first)
    ensures st.minIndex == store[PageStart(n)].index > 0
  {
    OldestFirst(store, n);
    hide Increasing;
    assert store[PageStart(n)] in store[PageStart(n)..n];
  }

  lemma OldestFirst(store: seq<Payment>, n: nat)
    requires Increasing(store) && 0 < n <= |store|
    ensures store[PageStart(n)..n] != [] && store[PageStart(n)..n][0] == store[PageStart(n)]
    ensures forall p :: p in store[PageStart(n)..n] ==> 0 < store[PageStart(n)].index <= p.index
  {
    var page := store[PageStart(n)..n];
    forall p | p in page
      ensures store[PageStart(n)].index <= p.index
    {
      var i :| 0 <= i < |page| && page[i] == p;
      assert page[i] == store[PageStart(n) + i];
    }
  }

  // ---- What a scan misses -------------------------------------------------------------------

  lemma {:induction false} SelectFinds(s: seq<Payment>, first: int, last: int, kind: Kind)
    ensures Select(s, first, last, kind) != [] <==> exists i :: 0 <= i < |s| && Counts(s[i], first, last, kind)
  {
    if s != [] {
      SelectFinds(s[1..], first, last, kind);
      if exists i :: 0 <= i < |s| && Counts(s[i], first, last, kind) {
        var i :| 0 <= i < |s| && Counts(s[i], first, last, kind);
        assert i > 0 ==> Counts(s[1..][i - 1], first, last, kind);
      }
    }
  }

  // Counting whole pages back from this end, a page that starts at b is all older than the
  // range, and a payment to be counted stands before it.
  ghost predicate Hides(store: seq<Payment>, end: nat, b: nat, first: int, last: int, kind: Kind)
    requires end <= |store|
  {
    && 0 < b && b + 5000 <= end && (end - b) % 5000 == 0
    && first > 0 && (forall p :: p in store[b..b + 5000] ==> p.ts < first)
    && exists i :: 0 <= i < b && Counts(store[i], first, last, kind)
  }

  lemma HidingMovesBack(store: seq<Payment>, end: nat, b: nat, first: int, last: int, kind: Kind)
    requires PAGE_SIZE <= end <= |store| && !AllOld(store[end - PAGE_SIZE..end], first)
    ensures Hides(store, end, b, first, last, kind) <==> Hides(store, end - PAGE_SIZE, b, first, last, kind)
  {
    if Hides(store, end, b, first, last, kind) {
      assert b != end - PAGE_SIZE;
      PagesApart(end, b);
    }
    if Hides(store, end - PAGE_SIZE, b, first, last, kind) {
      assert (end - b) % PAGE_SIZE == (end - PAGE_SIZE - b) % PAGE_SIZE;
    }
  }

  lemma PagesApart(end: int, b: int)
    requires b + PAGE_SIZE <= end && (end - b) % PAGE_SIZE == 0 && b != end - PAGE_SIZE
    ensures b + PAGE_SIZE <= end - PAGE_SIZE && (end - PAGE_SIZE - b) % PAGE_SIZE == 0
  {
  }

  // What a scan with n payments left to read, and requests enough for them, will never read
  // holds a payment to be counted if and only if an old page hides one.
  lemma {:induction false} UnreadCounts(store: seq<Payment>, n: nat, requests: nat, first: int, last: int, kind: Kind)
    requires n <= |store| && n <= requests * PAGE_SIZE
    ensures Select(store[..Unread(store, n, requests, first)], first, last, kind) != [] <==> exists b :: Hides(store, n, b, first, last, kind)
    decreases n
  {
    if n > 0 {
      var m := PageStart(n);
      UnreadStep(store, n, requests, first);
      if AllOld(store[m..n], first) {
        hide Unread, Select;
        SelectFinds(store[..m], first, last, kind);
        if i :| 0 <= i < |store[..m]| && Counts(store[..m][i], first, last, kind) {
          assert Counts(store[i], first, last, kind) && m == n - PAGE_SIZE;
          assert Hides(store, n, m, first, last, kind);
        }
        if b :| Hides(store, n, b, first, last, kind) {
          var i :| 0 <= i < b && Counts(store[i], first, last, kind);
          assert Counts(store[..m][i], first, last, kind);
        }
      } else {
        UnreadCounts(store, m, requests - 1, first, last, kind);
        if n >= PAGE_SIZE {
          forall b
            ensures Hides(store, n, b, first, last, kind) <==> Hides(store, m, b, first, last, kind)
          {
            HidingMovesBack(store, n, b, first, last, kind);
          }
        }
      }
    }
  }

  // Over any store within the page limit a scan reports every payment to be counted if and
  // only if none of them stands before a page, counted in whole pages from the newest
  // payment, on which every payment is older than the range.
  lemma CompleteIffNoOldPageHides(store: seq<Payment>, first: int, last: int, kind: Kind)
    requires |store| <= 1_000_000_000
    ensures multiset(Select(store[Unread(store, |store|, 200000, first)..], first, last, kind)) == multiset(Select(store, first, last, kind))
            <==> !exists b :: Hides(store, |store|, b, first, last, kind)
  {
    hide Unread, Select, Hides;
    var left := Unread(store, |store|, MAX_PAGES, first);
    UnreadCounts(store, |store|, MAX_PAGES, first, last, kind);
    CompleteIffUnreadIsEmpty(store, left, first, last, kind);
  }

  lemma CompleteIffUnreadIsEmpty(store: seq<Payment>, left: nat, first: int, last: int, kind: Kind)
    requires left <= |store|
    ensures multiset(Select(store[left..], first, last, kind)) == multiset(Select(store, first, last, kind))
            <==> Select(store[..left], first, last, kind) == []
  {
    var a, b := Select(store[..left], first, last, kind), Select(store[left..], first, last, kind);
    assert store == store[..left] + store[left..];
    SelectAppend(store[..left], store[left..], first, last, kind);
    assert |multiset(a + b)| == |a| + |b| && |multiset(b)| == |b|;
    if a == [] {
      assert a + b == b;
    }
  }

  // Over a store in time order, of at most five thousand payments for each of the two
  // hundred thousand requests, what a scan leaves unread is too old to match.
  lemma {:induction false} UnreadIsTooOld(store: seq<Payment>, n: nat, requests: nat, first: int)
    requires InTimeOrder(store) && n <= |store| && n <= requests * PAGE_SIZE
    ensures forall p :: p in store[..Unread(store, n, requests, first)] ==> p.ts < first
    decreases n
  {
    if n > 0 {
      var m := PageStart(n);
      if AllOld(store[m..n], first) {
        assert store[m..n][0] in store[m..n];
        forall p | p in store[..m]
          ensures p.ts < first
        {
          var i :| 0 <= i < m && store[i] == p;
          assert store[i].ts <= store[m].ts;
        }
      } else {
        UnreadIsTooOld(store, m, requests - 1, first);
      }
    }
  }

  // So there a scan reports every matching payment of the store exactly once.
  lemma ScanIsComplete(store: seq<Payment>, first: int, last: int, kind: Kind)
    requires InTimeOrder(store) && |store| <= 1_000_000_000
    ensures Select(store[Unread(store, |store|, 200000, first)..], first, last, kind) == Select(store, first, last, kind)
  {
    var left := Unread(store, |store|, MAX_PAGES, first);
    UnreadIsTooOld(store, |store|, MAX_PAGES, first);
    SelectNone(store[..left], first, last, kind);
    assert store == store[..left] + store[left..];
    SelectAppend(store[..left], store[left..], first, last, kind);
  }

  // Timestamps out of order can hide a payment: behind a full page of older ones.
  lemma OutOfOrderPaymentsCanBeMissed()
    ensures exists store :: Increasing(store) && Unread(store, |store|, MAX_PAGES, 5) == 1 && Select(store[..1], 5, 10, AnyKind) != []
  {
    var hidden := Payment(1, 7, true, 0, false);
    var store := [hidden] + seq(PAGE_SIZE, i requires 0 <= i < PAGE_SIZE => Payment(i + 2, 3, true, 0, false));
    assert PageStart(|store|) == 1;
    forall p | p in store[1..]
      ensures p.ts < 5
    {
      var i :| 0 <= i < |store| - 1 && store[1..][i] == p;
    }
    assert store[1..|store|] == store[1..];
    assert AllOld(store[1..|store|], 5);
    assert store[..1] == [hidden];
  }
}
