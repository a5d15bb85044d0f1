// Every step two honest nodes can take keeps the invariant; so it holds in every
// run, and the guarantees of the protocol follow.
module OpenRuns {
  import opened Prelude
  import opened Bitcoin
  import opened Session
  import opened FundingPlan
  import opened Lnd
  import opened OpenWorld
  import opened OpenSafety
  import opened OpenAgreement
  import Orphan = OrphanRecovery

  // ---- The four ways a world grows ---------------------------------------------------

  // The rows and the frame a node had stay good in a later world.
  lemma OldNodeLasts(h: Hashes, w: World, x: World, side: Role)
    requires GoodNode(h, w, side) && Extends(w, x)
    ensures forall r :: r in NodeOf(w, side).hist ==> GoodRow(h, x, side, r)
    ensures NodeOf(w, side).frame.Some? ==> GoodMeta(h, x, side, NodeOf(w, side).frame.value.meta)
  {
    forall r | r in NodeOf(w, side).hist
      ensures GoodRow(h, x, side, r)
    {
      assert GoodRow(h, w, side, r);
      GoodMetaLasts(h, w, x, side, r.meta);
    }
    if NodeOf(w, side).frame.Some? {
      GoodMetaLasts(h, w, x, side, NodeOf(w, side).frame.value.meta);
    }
  }

  // Packets and recoveries stay good; only new ones need checking.
  lemma TrafficLasts(h: Hashes, w: World, x: World)
    requires GoodTraffic(h, w) && Extends(w, x)
    requires forall p :: p in x.net && p !in w.net ==> GoodPacket(h, x, p)
    requires forall e :: e in x.log && e !in w.log && e.PublishedFunding? ==> BroadcastOk(h, DealOf(x), x.log, e.tx)
    ensures GoodTraffic(h, x)
  {
    assert BothOwn(DealOf(w)) ==> DealOf(x) == DealOf(w);
    hide AgreedPlan, BothOwn;
    forall p | p in x.net
      ensures GoodPacket(h, x, p)
    {
      if p in w.net {
        GoodPacketLasts(h, w, x, p);
      }
    }
  }

  // A node whose rows did not change stays good if its frame is.
  lemma SameRowsStayGood(h: Hashes, w: World, x: World, side: Role)
    requires GoodNode(h, w, side) && Extends(w, x)
    requires NodeOf(x, side).hist == NodeOf(w, side).hist && NodeOf(x, side).row == NodeOf(w, side).row
    requires NodeOf(x, side).frame.Some? && NodeOf(x, side).frame != NodeOf(w, side).frame ==>
               GoodMeta(h, x, side, NodeOf(x, side).frame.value.meta)
    ensures GoodNode(h, x, side)
  {
    OldNodeLasts(h, w, x, side);
  }

  // A row that may follow the present one of a node.
  ghost predicate GoodSuccessor(h: Hashes, w: World, side: Role, r: Row) {
    var n := NodeOf(w, side);
    && r.cap == w.cap && r.fee == w.fee && r.peer == NodeOf(w, Other(side)).pub
    && GoodDoc(h, DealOf(w), w.log, side, r.meta)
    && RowAbsorbs(n.row, Some(r))
    && (n.row.Some? ==> KeepsRecords(n.row.value.meta, r.meta))
    && (n.row.None? ==> n.hist == {})
  }

  lemma StoringKeepsGood(h: Hashes, w: World, side: Role, r: Row)
    requires Honest(h, w) && GoodSuccessor(h, w, side, r)
    ensures var x := StoredRow(w, side, r);
            Extends(w, x) && GoodNode(h, x, side) && GoodNode(h, x, Other(side)) && GoodTraffic(h, x)
  {
    hide Safe, FundedOnce, GoodPacket, RowAbsorbs;
    var x := StoredRow(w, side, r);
    assert Extends(w, x);
    OldNodeLasts(h, w, x, side);
    assert GoodRow(h, x, side, r);
    SuccessorRemembers(NodeOf(w, side), r);
    SameRowsStayGood(h, w, x, Other(side));
    TrafficLasts(h, w, x);
  }

  lemma SuccessorRemembers(n: Node, r: Row)
    requires Remembers(n.hist, n.row)
    requires if n.row.Some? then KeepsRecords(n.row.value.meta, r.meta) else n.hist == {}
    ensures Remembers(n.hist + {r}, Some(r))
  {
  }

  lemma SuccessorAccounts(side: Role, n: Node, r: Row)
    requires Accounted(side, n.row, n.frame)
    requires KeepsRecords(n.row.value.meta, r.meta) && Absorbs(n.row.value.state, r.state)
    requires r.meta.mode == DualMode
    ensures Accounted(side, Some(r), n.frame)
  {
    var m := n.row.value.meta;
    assert forall f :: f in {FInitKey, FInitTransitKey, FAccKey, FAccTransitKey} && Records(m, f) ==> Records(r.meta, f);
    if Funded(side, m) {
      assert if side == Initiator then Records(m, FInitKey) && Records(m, FInitTransitKey)
             else Records(m, FAccKey) && Records(m, FAccTransitKey);
    }
  }

  lemma StoringKeepsHonest(h: Hashes, w: World, side: Role, r: Row)
    requires Honest(h, w) && GoodSuccessor(h, w, side, r) && RowSafe(h, w.log, side, r)
    ensures var x := StoredRow(w, side, r);
            Honest(h, x) && Extends(w, x)
  {
    StoringKeepsSafe(h, w, side, r);
    StoringKeepsGood(h, w, side, r);
    if NodeOf(w, side).own.Some? {
      SuccessorAccounts(side, NodeOf(w, side), r);
    }
  }

  // A transition keeps the invariant if its state fits the role and its patch leads
  // to a good document.
  lemma TransitionKeepsHonest(h: Hashes, w: World, side: Role, next: State, p: Patch, now: int, r: Row)
    requires Honest(h, w) && StateFits(side, next)
    requires DocumentSafe(h, w.log, EMPTY_META.(fundingTx := p.fundingTx))
    requires NodeOf(w, side).row.Some? && Transition(NodeOf(w, side).row.value, next, p, now) == Ok(r)
    requires GoodDoc(h, DealOf(w), w.log, side, r.meta) && KeepsRecords(NodeOf(w, side).row.value.meta, r.meta)
    ensures Honest(h, StoredRow(w, side, r)) && Extends(w, StoredRow(w, side, r))
  {
    var n := NodeOf(w, side);
    assert RowSafe(h, w.log, side, n.row.value) && GoodRow(h, w, side, n.row.value);
    assert GoodSuccessor(h, w, side, r);
    StoringKeepsHonest(h, w, side, r);
  }

  lemma LoggingKeepsLocks(log: seq<LndEvent>, events: seq<LndEvent>, side: Role, own: Option<Artifacts>)
    requires LockedOnce(log, side, own)
    requires forall e :: e in events ==> !FundedBy(e, side)
    ensures LockedOnce(log + events, side, own)
  {
    var all := log + events;
    forall i | |log| <= i < |all|
      ensures !FundedBy(all[i], side)
    {
      assert all[i] in events;
    }
  }

  lemma LoggingKeepsHonest(h: Hashes, w: World, events: seq<LndEvent>)
    requires Honest(h, w) && Safe(h, Log(w, events))
    requires forall e :: e in events ==> !e.SentOutput?
    requires forall e :: e in events && e.PublishedFunding? ==> BroadcastOk(h, DealOf(w), w.log, e.tx)
    ensures Honest(h, Log(w, events)) && Extends(w, Log(w, events))
  {
    hide Safe, GoodNode, LockedOnce, Accounted, AgreedPlan;
    LoggingKeepsLocks(w.log, events, Initiator, w.initiator.own);
    LoggingKeepsLocks(w.log, events, Accepter, w.accepter.own);
    var x := Log(w, events);
    assert Extends(w, x);
    SameRowsStayGood(h, w, x, Initiator);
    SameRowsStayGood(h, w, x, Accepter);
    TrafficLasts(h, w, x);
  }

  lemma SendingKeepsHonest(h: Hashes, w: World, packets: set<Packet>)
    requires Honest(h, w)
    requires forall p :: p in packets ==> GoodPacket(h, w, p)
    ensures var x := w.(net := w.net + packets); Honest(h, x) && Extends(w, x)
  {
    var x := w.(net := w.net + packets);
    assert Extends(w, x);
    SameRowsStayGood(h, w, x, Initiator);
    SameRowsStayGood(h, w, x, Accepter);
    forall p | p in packets
      ensures GoodPacket(h, x, p)
    {
      GoodPacketLasts(h, w, x, p);
    }
    TrafficLasts(h, w, x);
  }

  lemma FramingKeepsGood(h: Hashes, w: World, side: Role, f: Option<Frame>)
    requires Honest(h, w)
    requires f.Some? ==> GoodMeta(h, w, side, f.value.meta)
    ensures var x := Framed(w, side, f);
            Extends(w, x) && GoodNode(h, x, side) && GoodNode(h, x, Other(side)) && GoodTraffic(h, x)
  {
    var x := Framed(w, side, f);
    assert Extends(w, x);
    if f.Some? {
      GoodMetaLasts(h, w, x, side, f.value.meta);
    }
    SameRowsStayGood(h, w, x, side);
    SameRowsStayGood(h, w, x, Other(side));
    TrafficLasts(h, w, x);
  }

  // A frame may change as long as what was locked stays accounted for.
  lemma FramingKeepsHonest(h: Hashes, w: World, side: Role, f: Option<Frame>)
    requires Honest(h, w)
    requires NodeOf(w, side).own.Some? ==> Accounted(side, NodeOf(w, side).row, f)
    requires f.Some? ==> f.value.row in NodeOf(w, side).hist && GoodMeta(h, w, side, f.value.meta) && DocumentSafe(h, w.log, f.value.meta)
    ensures var x := Framed(w, side, f); Honest(h, x) && Extends(w, x)
  {
    OpenSafety.FramingKeepsSafe(h, w, side, f, NodeOf(w, side).own);
    FramingKeepsGood(h, w, side, f);
  }

  // ---- Operator calls ---------------------------------------------------------------

  lemma BeginKeepsHonest(h: Hashes, w: World, op: OperatorStep)
    requires Honest(h, w) && OperatorMay(h, w, op) && op.Begin?
    ensures Honest(h, Operated(h, w, op)) && Extends(w, Operated(h, w, op))
  {
    var side := op.side;
    var r := NodeOf(w, side).row.value;
    assert RowSafe(h, w.log, side, r) && GoodRow(h, w, side, r);
    FramingKeepsHonest(h, w, side, Some(Frame(r, r.meta, false)));
  }

  lemma EndKeepsHonest(h: Hashes, w: World, op: OperatorStep)
    requires Honest(h, w) && OperatorMay(h, w, op) && op.End?
    ensures Honest(h, Operated(h, w, op)) && Extends(w, Operated(h, w, op))
  {
    FramingKeepsHonest(h, w, op.side, None);
  }

  // An unfunded document in an open operator call means nothing was locked before.
  lemma FundingIsFirst(h: Hashes, w: World, side: Role)
    requires Honest(h, w) && NodeOf(w, side).frame.Some? && CanFund(side, NodeOf(w, side).frame.value)
    ensures NodeOf(w, side).own.None?
    ensures forall e :: e in w.log ==> !FundedBy(e, side)
  {
    assert FundedOnce(h, w.cap, w.fee, w.log, side, NodeOf(w, side));
  }

  lemma FirstLock(log: seq<LndEvent>, side: Role, e: LndEvent, own: Artifacts)
    requires forall v :: v in log ==> !FundedBy(v, side)
    requires FundedBy(e, side) && IsLockOf(e, own)
    ensures LockedOnce(log + [e], side, Some(own))
  {
    var all := log + [e];
    forall i | 0 <= i < |log|
      ensures !FundedBy(all[i], side)
    {
      assert all[i] in log;
    }
  }

  lemma FundKeepsHonest(h: Hashes, w: World, op: OperatorStep)
    requires Honest(h, w) && OperatorMay(h, w, op) && op.Fund?
    ensures Honest(h, Operated(h, w, op)) && Extends(w, Operated(h, w, op))
  {
    var side := op.side;
    var r := NodeOf(w, side).frame.value.row;
    assert GoodRow(h, w, side, r) && r in NodeOf(w, side).hist;
    FundingIsFirst(h, w, side);
    var own := FundedArtifacts(h, r, op.multisig, op.transitKey, op.at);
    assert OwnOk(h, w.cap, w.fee, own);
    hide Safe, GoodNode, GoodTraffic, FundedOnce, OwnOk;
    LockingKeepsHonest(h, w, side, own);
  }

  lemma LockingKeepsHonest(h: Hashes, w: World, side: Role, own: Artifacts)
    requires Honest(h, w) && NodeOf(w, side).frame.Some? && NodeOf(w, side).own.None?
    requires forall e :: e in w.log ==> !FundedBy(e, side)
    requires side == Accepter ==> NodeOf(w, side).frame.value.meta.mode == DualMode
    requires OwnOk(h, w.cap, w.fee, own)
    ensures Honest(h, Locked(w, side, own)) && Extends(w, Locked(w, side, own))
  {
    LockingKeepsSafe(h, w, side, own);
    LockingKeepsGood(h, w, side, own);
    LockingLocksOnce(h, w, side, own);
  }

  lemma LockingLocksOnce(h: Hashes, w: World, side: Role, own: Artifacts)
    requires Honest(h, w) && NodeOf(w, side).frame.Some? && NodeOf(w, side).own.None?
    requires forall e :: e in w.log ==> !FundedBy(e, side)
    requires OwnOk(h, w.cap, w.fee, own)
    ensures var x := Locked(w, side, own);
            FundedOnce(h, w.cap, w.fee, x.log, Initiator, x.initiator) && FundedOnce(h, w.cap, w.fee, x.log, Accepter, x.accepter)
  {
    var e := SentOutput(side, own.transit.sat, own.transit.script, TransitPoint(own.transit));
    FirstLock(w.log, side, e, own);
    LoggingKeepsLocks(w.log, [e], Other(side), NodeOf(w, Other(side)).own);
    assert Funded(side, WithArtifacts(side, NodeOf(w, side).frame.value.meta, own));
    assert NodeOf(w, side).row.Some?;
    hide Safe, GoodNode, GoodTraffic, LockedOnce;
  }

  lemma LockingKeepsGood(h: Hashes, w: World, side: Role, own: Artifacts)
    requires Honest(h, w) && NodeOf(w, side).frame.Some? && NodeOf(w, side).own.None? && ValidArtifacts(own)
    ensures var x := Locked(w, side, own);
            Extends(w, x) && GoodNode(h, x, Initiator) && GoodNode(h, x, Accepter) && GoodTraffic(h, x)
  {
    hide Safe, FundedOnce, GoodPacket, BroadcastOk, Remembers, GoodRow;
    var n := NodeOf(w, side);
    var x := Locked(w, side, own);
    assert Extends(w, x);
    FundedMetaIsGood(h, w, side, n.frame.value.meta, own);
    assert DealOf(x) == DealWith(w, side, own);
    GoodDocLasts(h, DealOf(x), w.log, side, DealOf(x), x.log, WithArtifacts(side, n.frame.value.meta, own));
    hide GoodDoc;
    SameRowsStayGood(h, w, x, side);
    SameRowsStayGood(h, w, x, Other(side));
    TrafficLasts(h, w, x);
  }

  function DealWith(w: World, side: Role, own: Artifacts): Deal {
    if side == Initiator then DealOf(w).(initOwn := Some(own)) else DealOf(w).(accOwn := Some(own))
  }

  lemma FundedMetaIsGood(h: Hashes, w: World, side: Role, m: Meta, own: Artifacts)
    requires GoodMeta(h, w, side, m) && NodeOf(w, side).own.None? && ValidArtifacts(own)
    ensures GoodDoc(h, DealWith(w, side, own), w.log, side, WithArtifacts(side, m, own))
  {
    assert !BothOwn(DealOf(w));
  }

  // The accepter's document with the derived transaction.
  lemma DerivedIsGood(h: Hashes, d: Deal, log: seq<LndEvent>, m: Meta)
    requires HashWidths(h) && GoodDoc(h, d, log, Accepter, m)
    requires AccepterFunded(m) && HeardProposal(m) && WithFunding(h, d.cap, m).Ok?
    ensures var r := WithFunding(h, d.cap, m).value;
            && GoodDoc(h, d, log, Accepter, r)
            && BothOwn(d) && BuildDualFundingPlan(h, d.cap, r) == Ok(AgreedPlan(h, d))
            && r.accTransit == d.accOwn.value.transit && r.pendingId == AgreedId(h, d)
  {
    hide BuildOrphanPlan, AppearsSigned, HashWidths;
    GoodMetaPlans(h, d, Accepter, m);
    var id := PendingChanId(h, m.initKey.pub, m.accKey.pub).value;
    var derived := m.(mode := DualMode, pendingId := id);
    SameFundingSamePlan(h, d.cap, m, derived);
    SameFundingSamePlan(h, d.cap, m, WithFunding(h, d.cap, m).value);
    DualPlanSpendsBothTransits(h, d.cap, derived);
    AgreedPlanIsUnsigned(h, d);
    hide BuildDualFundingPlan;
  }

  // ... and with its witness once LND has signed.
  lemma CountersignedIsGood(h: Hashes, d: Deal, log: seq<LndEvent>, f: Frame, answer: Option<seq<Bytes>>)
    requires HashWidths(h) && GoodDoc(h, d, log, Accepter, f.meta) && f.row.cap == d.cap && CanCountersign(h, f)
    ensures GoodDoc(h, d, log + CountersignEvents(h, f, answer), Accepter, CountersignedMeta(h, f, answer))
    ensures AccepterFunded(CountersignedMeta(h, f, answer))
  {
    DerivedIsGood(h, d, log, f.meta);
    var m := WithFunding(h, d.cap, f.meta).value;
    var all := log + CountersignEvents(h, f, answer);
    GoodDocLasts(h, d, log, Accepter, d, all, m);
    hide WithFunding, BuildDualFundingPlan, BuildOrphanPlan;
    if answer.Some? {
      assert CountersignEvents(h, f, answer)[0] in all;
      assert StackOk(h, d, all, answer.value);
    }
  }

  lemma CountersignedDocument(h: Hashes, w: World, f: Frame, answer: Option<seq<Bytes>>)
    requires HashWidths(h) && Honest(h, w) && w.accepter.frame == Some(f) && CanCountersign(h, f)
    ensures var events, m := CountersignEvents(h, f, answer), CountersignedMeta(h, f, answer);
            && GoodDoc(h, DealOf(w), w.log + events, Accepter, m)
            && m.fundingTx.Some? && !AppearsSigned(m.fundingTx.value) && AccepterFunded(m)
            && forall e :: e in events ==> e.Signed?
  {
    assert GoodRow(h, w, Accepter, f.row) && GoodMeta(h, w, Accepter, f.meta);
    hide Honest, BuildDualFundingPlan;
    CountersignedIsGood(h, DealOf(w), w.log, f, answer);
    PlanIsUnsigned(h, f.row.cap, f.meta.(mode := DualMode, pendingId := CountersignedMeta(h, f, answer).pendingId));
    hide AppearsSigned;
  }

  lemma CountersignKeepsHonest(h: Hashes, w: World, op: OperatorStep)
    requires HashWidths(h) && Honest(h, w) && OperatorMay(h, w, op) && op.Countersign?
    ensures Honest(h, Operated(h, w, op)) && Extends(w, Operated(h, w, op))
  {
    hide Honest, CountersignedMeta, CountersignEvents, CanCountersign, Extends;
    var f := w.accepter.frame.value;
    CountersignedDocument(h, w, f, op.answer);
    CountersigningKeepsHonest(h, w, CountersignEvents(h, f, op.answer), CountersignedMeta(h, f, op.answer));
  }

  lemma CountersigningKeepsHonest(h: Hashes, w: World, events: seq<LndEvent>, m: Meta)
    requires Honest(h, w) && w.accepter.frame.Some?
    requires forall e :: e in events ==> e.Signed?
    requires GoodDoc(h, DealOf(w), w.log + events, Accepter, m)
    requires m.fundingTx.Some? && !AppearsSigned(m.fundingTx.value) && AccepterFunded(m)
    ensures var x := Framed(Log(w, events), Accepter, Some(w.accepter.frame.value.(meta := m)));
            Honest(h, x) && Extends(w, x)
  {
    var w1, f := Log(w, events), Some(w.accepter.frame.value.(meta := m));
    LoggingKeepsSafe(h, w, events);
    LoggingKeepsHonest(h, w, events);
    FramingKeepsHonest(h, w1, Accepter, f);
    ExtendsIsTransitive(w, w1, Framed(w1, Accepter, f));
  }

  lemma SavedIsGood(h: Hashes, w: World, side: Role, next: State, now: int, r: Row)
    requires HashWidths(h) && Honest(h, w) && NodeOf(w, side).frame.Some?
    requires Transition(NodeOf(w, side).row.value, next, Encode(NodeOf(w, side).frame.value.meta), now) == Ok(r)
    ensures GoodDoc(h, DealOf(w), w.log, side, r.meta) && KeepsRecords(NodeOf(w, side).row.value.meta, r.meta)
  {
    var n := NodeOf(w, side);
    assert GoodRow(h, w, side, n.row.value);
    GoodMerge(h, DealOf(w), w.log, side, n.row.value.meta, n.frame.value.meta);
  }

  lemma ExtendsIsTransitive(w: World, x: World, y: World)
    requires Extends(w, x) && Extends(x, y)
    ensures Extends(w, y)
  {
  }

  // After a write, the frame takes the new row and keeps its document.
  lemma ReframingKeepsHonest(h: Hashes, w: World, x: World, side: Role, r: Row, m: Meta)
    requires Honest(h, x) && Extends(w, x) && GoodMeta(h, w, side, m) && DocumentSafe(h, x.log, m)
    requires NodeOf(x, side).row == Some(r)
    requires NodeOf(x, side).frame.Some? && NodeOf(x, side).frame.value.meta == m
    requires Funded(side, m) ==> Funded(side, r.meta)
    requires NodeOf(x, side).own.Some? && !Funded(side, m) ==> IsTerminal(r.state)
    ensures var y := Framed(x, side, Some(Frame(r, m, false))); Honest(h, y) && Extends(w, y)
  {
    GoodMetaLasts(h, w, x, side, m);
    FramingKeepsHonest(h, x, side, Some(Frame(r, m, false)));
    ExtendsIsTransitive(w, x, Framed(x, side, Some(Frame(r, m, false))));
  }

  lemma EncodingFunded(side: Role, m: Meta, writer: Meta)
    requires Funded(side, writer) && (m.mode == DualMode || writer.mode == DualMode)
    ensures Funded(side, Merge(m, Encode(writer)))
  {
  }

  lemma SavedRowKeepsHonest(h: Hashes, w: World, side: Role, next: State, now: int, r: Row)
    requires HashWidths(h) && Honest(h, w) && NodeOf(w, side).frame.Some? && StateFits(side, next)
    requires Transition(NodeOf(w, side).row.value, next, Encode(NodeOf(w, side).frame.value.meta), now) == Ok(r)
    ensures Honest(h, StoredRow(w, side, r)) && Extends(w, StoredRow(w, side, r))
  {
    SavedIsGood(h, w, side, next, now, r);
    TransitionKeepsHonest(h, w, side, next, Encode(NodeOf(w, side).frame.value.meta), now, r);
  }

  lemma FrameIsGood(h: Hashes, w: World, side: Role)
    requires Honest(h, w) && NodeOf(w, side).frame.Some?
    ensures var n := NodeOf(w, side);
            && n.row.Some? && n.row.value.meta.mode == DualMode
            && GoodMeta(h, w, side, n.frame.value.meta) && DocumentSafe(h, w.log, n.frame.value.meta)
            && (n.own.Some? ==> Funded(side, n.frame.value.meta) || IsTerminal(n.frame.value.row.state))
  {
    assert NodeOf(w, side).row.Some?;
    assert GoodRow(h, w, side, NodeOf(w, side).row.value);
  }

  lemma SaveKeepsHonest(h: Hashes, w: World, side: Role, next: State, now: int, r: Row)
    requires HashWidths(h) && Honest(h, w) && NodeOf(w, side).frame.Some? && StateFits(side, next)
    requires !IsTerminal(NodeOf(w, side).frame.value.row.state)
    requires Transition(NodeOf(w, side).row.value, next, Encode(NodeOf(w, side).frame.value.meta), now) == Ok(r)
    ensures var x := Framed(StoredRow(w, side, r), side, Some(Frame(r, NodeOf(w, side).frame.value.meta, false)));
            Honest(h, x) && Extends(w, x)
  {
    hide Honest, Encode, Merge, Funded, Transition, GoodMeta, Extends, DocumentSafe, StateFits;
    var m := NodeOf(w, side).frame.value.meta;
    FrameIsGood(h, w, side);
    MovedRow(NodeOf(w, side).row.value, next, Encode(m), now);
    SavedRowKeepsHonest(h, w, side, next, now, r);
    if Funded(side, m) {
      EncodingFunded(side, NodeOf(w, side).row.value.meta, m);
    }
    var x := StoredRow(w, side, r);
    DocumentStaysSafe(h, w.log, [], m);
    assert w.log + [] == x.log;
    ReframingKeepsHonest(h, w, x, side, r, m);
  }

  lemma SavedWorldIsHonest(h: Hashes, w: World, side: Role, next: State, now: int)
    requires HashWidths(h) && Honest(h, w) && NodeOf(w, side).frame.Some? && StateFits(side, next)
    requires !IsTerminal(NodeOf(w, side).frame.value.row.state)
    ensures Honest(h, Saved(w, side, next, now)) && Extends(w, Saved(w, side, next, now))
  {
    assert NodeOf(w, side).row.Some?;
    SavedCases(w, side, next, now);
    hide Honest, Extends, Saved, Transition, StateFits;
    var n := NodeOf(w, side);
    var t := Transition(n.row.value, next, Encode(n.frame.value.meta), now);
    if t.Ok? {
      SaveKeepsHonest(h, w, side, next, now, t.value);
    } else {
      RefusedSaveKeepsHonest(h, w, side);
    }
  }

  lemma RefusedSaveKeepsHonest(h: Hashes, w: World, side: Role)
    requires Honest(h, w) && NodeOf(w, side).frame.Some? && NodeOf(w, side).row.Some? && IsTerminal(NodeOf(w, side).row.value.state)
    ensures var x := Framed(w, side, Some(NodeOf(w, side).frame.value.(unsaved := false)));
            Honest(h, x) && Extends(w, x)
  {
    FramingKeepsHonest(h, w, side, Some(NodeOf(w, side).frame.value.(unsaved := false)));
  }

  lemma SavesFitTheRole(h: Hashes, w: World, op: OperatorStep)
    requires Safe(h, w) && OperatorMay(h, w, op) && op.Save?
    ensures NodeOf(w, op.side).frame.Some? && StateFits(op.side, op.next)
    ensures !IsTerminal(NodeOf(w, op.side).frame.value.row.state)
    ensures Operated(h, w, op) == Saved(w, op.side, op.next, op.now)
  {
    assert RowSafe(h, w.log, op.side, NodeOf(w, op.side).frame.value.row);
  }

  lemma SaveStepKeepsHonest(h: Hashes, w: World, op: OperatorStep)
    requires HashWidths(h) && Honest(h, w) && OperatorMay(h, w, op) && op.Save?
    ensures Honest(h, Operated(h, w, op)) && Extends(w, Operated(h, w, op))
  {
    SavesFitTheRole(h, w, op);
    SavedWorldIsHonest(h, w, op.side, op.next, op.now);
  }

  // What a node sends is what it knows to be agreed.
  lemma SentIsGood(h: Hashes, w: World, side: Role, f: Frame)
    requires HashWidths(h) && Honest(h, w) && NodeOf(w, side).frame == Some(f) && CanSend(side, f)
    ensures GoodPacket(h, w, SentPacket(side, f))
  {
    assert GoodRow(h, w, side, f.row) && GoodMeta(h, w, side, f.meta);
    hide Honest, BuildOrphanPlan, BuildDualFundingPlan;
  }

  lemma SendKeepsHonest(h: Hashes, w: World, op: OperatorStep)
    requires HashWidths(h) && Honest(h, w) && OperatorMay(h, w, op) && op.Send?
    ensures Honest(h, Operated(h, w, op)) && Extends(w, Operated(h, w, op))
  {
    hide Honest, CanSend, GoodPacket, Extends, SentPacket;
    var f := NodeOf(w, op.side).frame.value;
    SentIsGood(h, w, op.side, f);
    SendingKeepsHonest(h, w, {SentPacket(op.side, f)});
  }

  lemma OperatorStepKeepsHonest(h: Hashes, w: World, op: OperatorStep)
    requires HashWidths(h) && Honest(h, w) && OperatorMay(h, w, op)
    ensures Honest(h, Operated(h, w, op)) && Extends(w, Operated(h, w, op))
  {
    if op.Begin? { BeginKeepsHonest(h, w, op); }
    else if op.Fund? { FundKeepsHonest(h, w, op); }
    else if op.Countersign? { CountersignKeepsHonest(h, w, op); }
    else if op.Save? { SaveStepKeepsHonest(h, w, op); }
    else if op.Send? { SendKeepsHonest(h, w, op); }
    else { EndKeepsHonest(h, w, op); }
  }

  // ---- Writes -----------------------------------------------------------------------

  // A patch leads from one good document to another and erases nothing.
  ghost predicate GoodStep(h: Hashes, w: World, side: Role, m: Meta, r: Meta) {
    GoodDoc(h, DealOf(w), w.log, side, r) && KeepsRecords(m, r)
  }

  lemma WritingKeepsHonest(h: Hashes, w: World, side: Role, next: State, p: Patch, now: int)
    requires Honest(h, w) && StateFits(side, next)
    requires DocumentSafe(h, w.log, EMPTY_META.(fundingTx := p.fundingTx))
    requires NodeOf(w, side).row.Some? ==> GoodStep(h, w, side, NodeOf(w, side).row.value.meta, Merge(NodeOf(w, side).row.value.meta, p))
    ensures var x := Written(w, side, next, p, now); Honest(h, x) && Extends(w, x)
  {
    hide GoodNode, GoodTraffic, FundedOnce, Safe, GoodDoc, KeepsRecords, Merge, DocumentSafe;
    var row := NodeOf(w, side).row;
    if row.Some? && Transition(row.value, next, p, now).Ok? {
      TransitionKeepsHonest(h, w, side, next, p, now, Transition(row.value, next, p, now).value);
    }
  }

  lemma GoodRowIsGoodDoc(h: Hashes, w: World, side: Role)
    requires Honest(h, w) && NodeOf(w, side).row.Some?
    ensures GoodDoc(h, DealOf(w), w.log, side, NodeOf(w, side).row.value.meta)
  {
    assert GoodRow(h, w, side, NodeOf(w, side).row.value);
  }

  lemma StoredRowsAreDual(h: Hashes, w: World, side: Role, r: Row)
    requires Honest(h, w) && r in NodeOf(w, side).hist
    ensures r.meta.mode == DualMode
  {
    assert GoodRow(h, w, side, r);
  }

  lemma SubmitIsGood(h: Hashes, w: World, from: Row, m: Meta)
    requires HashWidths(h) && Honest(h, w) && from in w.initiator.hist && HasPlan(h, from)
    requires GoodDoc(h, DealOf(w), w.log, Initiator, m)
    ensures GoodStep(h, w, Initiator, m, Merge(m, SubmitPatch(h, from)))
  {
    hide Honest, HasPlan, BuildDualFundingPlan, ExecuteMeta;
    ExecutableMeansAgreed(h, w, from);
    AgreedPlanIsUnsigned(h, DealOf(w));
    assert GoodTx(h, DealOf(w), w.log, AgreedPlan(h, DealOf(w)).tx);
    hide AgreedPlan, BothOwn, StackOk;
  }

  lemma AgreedPlanIsUnsigned(h: Hashes, d: Deal)
    requires BothOwn(d) && HashWidths(h)
    ensures var p := AgreedPlan(h, d);
            WithoutWitness(p.tx) == p.tx && p.vout == 0 && |p.txid| == 32 &&
            p.accIndex < |p.tx.ins| && p.tx.ins[p.accIndex].stack == [] &&
            p.initIndex < |p.tx.ins| && p.tx.ins[p.initIndex].stack == []
    ensures |AgreedId(h, d)| == 32
  {
    DualPlanSpendsBothTransits(h, d.cap, AgreedMeta(d));
  }

  // The initiator's LND signs its own input of the agreed plan.
  lemma SignEventIsOwn(h: Hashes, w: World, from: Row, stack: seq<Bytes>)
    requires Honest(h, w) && from in w.initiator.hist && HasPlan(h, from) && SignEvent(h, from, stack) in w.log
    ensures OwnStackOk(h, DealOf(w), w.log, stack)
  {
    assert GoodRow(h, w, Initiator, from);
    ExecutableMeansAgreed(h, w, from);
    hide Honest, HasPlan, PlanOf, AgreedPlan, StackOk, GoodFunding;
  }

  // The assembled transaction is the agreed one with witnesses.
  lemma AssembledIsAgreed(h: Hashes, w: World, from: Row, stack: seq<Bytes>)
    requires Honest(h, w) && from in w.initiator.hist && HasPlan(h, from) && SignEvent(h, from, stack) in w.log
    ensures BothOwn(DealOf(w)) && PlanOf(h, from) == AgreedPlan(h, DealOf(w))
    ensures BroadcastOk(h, DealOf(w), w.log, AssembledTx(h, from, stack))
  {
    hide Honest, ExecuteMeta, StackOk, OwnStackOk, AppearsSigned;
    ExecutableMeansAgreed(h, w, from);
    SignEventIsOwn(h, w, from, stack);
    WitnessesKeepTheTxid(h, from.cap, ExecuteMeta(h, from.meta), InputScript([], stack), from.meta.accStack);
  }

  lemma SignedIsGood(h: Hashes, w: World, from: Row, submitted: Row, stack: seq<Bytes>, actual: PointText, after: SignedWrite, m: Meta)
    requires HashWidths(h) && Honest(h, w) && from in w.initiator.hist && HasPlan(h, from)
    requires submitted in w.initiator.hist && submitted.meta.fundingId == PlanOf(h, from).txid != [] && SignEvent(h, from, stack) in w.log
    requires w.initiator.row.Some? && m == w.initiator.row.value.meta
    ensures GoodStep(h, w, Initiator, m, Merge(m, SignedPatch(h, from, stack, actual, after)))
  {
    GoodRowIsGoodDoc(h, w, Initiator);
    FundingIdIsKept(h, w, submitted);
    hide Honest, HasPlan, PlanOf, AssembledTx, GoodDoc, KeepsRecords, AgreedPlan, StackOk, BothOwn, HashWidths;
    AssembledIsAgreed(h, w, from, stack);
    AgreedPlanIsUnsigned(h, DealOf(w));
    AgreedTxIsGood(h, DealOf(w), w.log, m, AssembledTx(h, from, stack), SignedPatch(h, from, stack, actual, after));
  }

  lemma RecordsAreRemembered(h: Hashes, x: World, side: Role, r: Row, f: Field)
    requires Honest(h, x) && f != FChannelPoint && r in NodeOf(x, side).hist && Records(r.meta, f)
    ensures NodeOf(x, side).row.Some? && Records(NodeOf(x, side).row.value.meta, f)
  {
    assert Remembers(NodeOf(x, side).hist, NodeOf(x, side).row);
    hide Safe, GoodTraffic, FundedOnce, GoodRow, GoodMeta;
  }

  lemma FundingIdIsKept(h: Hashes, w: World, r: Row)
    requires Honest(h, w) && r in w.initiator.hist && r.meta.fundingId != []
    ensures w.initiator.row.Some? && w.initiator.row.value.meta.fundingId != []
  {
    hide Honest;
    assert Records(r.meta, FFundingId);
    RecordsAreRemembered(h, w, Initiator, r, FFundingId);
  }

  // A patch that writes the agreed transaction, with its id or over one stored before.
  lemma AgreedTxIsGood(h: Hashes, d: Deal, log: seq<LndEvent>, m: Meta, tx: Tx, p: Patch)
    requires GoodTx(h, d, log, tx) && AgreedPlan(h, d).txid != []
    requires GoodDoc(h, d, log, Initiator, m)
    requires p.fundingPoint == Some(OutPoint(AgreedPlan(h, d).txid, 0)) || (p.fundingPoint == None && m.fundingId != [])
    requires p == NO_PATCH.(mode := p.mode, channelPoint := p.channelPoint, fundingPoint := p.fundingPoint, fundingTx := Some(tx))
    requires p.mode in {None, Some(DualMode)}
    ensures GoodDoc(h, d, log, Initiator, Merge(m, p)) && KeepsRecords(m, Merge(m, p))
  {
    hide BuildDualFundingPlan, BuildOrphanPlan, AgreedPlan;
  }

  // What the accepter sent and an old good document make a good document.
  lemma HeardIsGood(h: Hashes, d: Deal, log: seq<LndEvent>, fee: int, from: Row, sender: Bytes, msg: Msg)
    requires msg.Accept? && GoodMsg(h, d, fee, log, Initiator, msg) && HearAccept(h, from, sender, msg).Ok?
    requires GoodDoc(h, d, log, Initiator, from.meta)
    ensures var r := HearAccept(h, from, sender, msg).value;
            GoodDoc(h, d, log, Initiator, r)
  {
    hide BuildDualFundingPlan, BuildOrphanPlan, AgreedMeta;
  }

  lemma AcceptIsGood(h: Hashes, w: World, side: Role, from: Row, sender: Bytes, msg: Msg, m: Meta)
    requires HashWidths(h) && Honest(h, w) && msg.Accept? && Delivered(w, side, sender, msg)
    requires from in NodeOf(w, side).hist && HearAccept(h, from, sender, msg).Ok?
    requires NodeOf(w, side).row.Some? && m == NodeOf(w, side).row.value.meta
    ensures GoodStep(h, w, side, m, Merge(m, Encode(HearAccept(h, from, sender, msg).value)))
  {
    assert GoodRow(h, w, side, from);
    GoodRowIsGoodDoc(h, w, side);
    assert GoodPacket(h, w, Packet(side, msg));
    hide Honest, GoodNode, GoodTraffic, BuildDualFundingPlan, GoodRow;
    HeardIsGood(h, DealOf(w), w.log, w.fee, from, sender, msg);
    var writer := HearAccept(h, from, sender, msg).value;
    GoodMerge(h, DealOf(w), w.log, side, m, writer);
  }

  lemma PointNotesAreGood(h: Hashes, w: World, side: Role, m: Meta, point: Option<PointText>)
    requires GoodDoc(h, DealOf(w), w.log, side, m)
    ensures GoodStep(h, w, side, m, Merge(m, NO_PATCH.(channelPoint := point)))
  {
  }

  lemma PlanHasId(h: Hashes, r: Row)
    requires HashWidths(h) && HasPlan(h, r)
    ensures PlanOf(h, r).txid != []
  {
    assert |PlanOf(h, r).txid| == 32;
  }

  // The writes of executeSessionDual.
  lemma ExecutePatchIsGood(h: Hashes, w: World, u: Update)
    requires HashWidths(h) && Honest(h, w) && MayUpdate(h, w, u) && (u.Submit? || u.SaveSigned?)
    requires w.initiator.row.Some?
    ensures var m := w.initiator.row.value.meta; GoodStep(h, w, Initiator, m, Merge(m, PatchOf(h, w, u)))
  {
    hide Honest, GoodStep, GoodDoc, Merge, SubmitPatch, SignedPatch, HasPlan, OpenAcknowledged, SignEvent, PlanOf;
    var m := w.initiator.row.value.meta;
    GoodRowIsGoodDoc(h, w, Initiator);
    if u.Submit? {
      SubmitIsGood(h, w, u.from, m);
    } else {
      PlanHasId(h, u.from);
      SignedIsGood(h, w, u.from, u.submitted, u.stack, u.actual, u.after, m);
    }
  }

  // The writes that at most note a channel point.
  lemma PlainPatchIsGood(h: Hashes, w: World, u: Update)
    requires Honest(h, w) && MayUpdate(h, w, u) && (u.PushOpened? || u.Note? || u.Promote? || u.HeardCancel?)
    requires NodeOf(w, SideOf(u)).row.Some?
    ensures var m := NodeOf(w, SideOf(u)).row.value.meta;
            GoodStep(h, w, SideOf(u), m, Merge(m, PatchOf(h, w, u)))
  {
    GoodRowIsGoodDoc(h, w, SideOf(u));
    if u.PushOpened? {
      StoredRowsAreDual(h, w, Initiator, u.from);
    }
    hide Honest, GoodStep, GoodDoc, Merge, SiteApplies;
    PointNotesAreGood(h, w, SideOf(u), NodeOf(w, SideOf(u)).row.value.meta, if u.Promote? then Some(u.point) else None);
  }

  lemma PatchIsGood(h: Hashes, w: World, u: Update)
    requires HashWidths(h) && Honest(h, w) && MayUpdate(h, w, u)
    requires NodeOf(w, SideOf(u)).row.Some?
    ensures var m := NodeOf(w, SideOf(u)).row.value.meta;
            GoodStep(h, w, SideOf(u), m, Merge(m, PatchOf(h, w, u)))
  {
    hide Honest, GoodStep, GoodDoc, Merge, HasPlan, PlanOf, Encode, HearAccept;
    if u.HeardAccept? {
      AcceptIsGood(h, w, u.side, u.from, u.sender, u.msg, NodeOf(w, u.side).row.value.meta);
    } else if u.Submit? || u.SaveSigned? {
      ExecutePatchIsGood(h, w, u);
    } else {
      PlainPatchIsGood(h, w, u);
    }
  }

  lemma UpdateKeepsHonest(h: Hashes, w: World, u: Update)
    requires HashWidths(h) && Honest(h, w) && MayUpdate(h, w, u)
    ensures Honest(h, Updated(h, w, u)) && Extends(w, Updated(h, w, u))
  {
    hide GoodNode, GoodTraffic, FundedOnce, Safe, GoodStep, MayUpdate, Written, PatchOf, NextState;
    UpdatesFitTheRole(h, w, u);
    UpdatesStoreSafely(h, w, u);
    if NodeOf(w, SideOf(u)).row.Some? {
      PatchIsGood(h, w, u);
    }
    WritingKeepsHonest(h, w, SideOf(u), NextState(u), PatchOf(h, w, u), u.now);
  }

  // ---- Calls, cancellation, proposals -------------------------------------------------

  // A stored transaction that appears signed carries the accepter's witness.
  lemma StoredIsBroadcastOk(h: Hashes, d: Deal, log: seq<LndEvent>, tx: Tx)
    requires GoodTx(h, d, log, tx) && AppearsSigned(tx)
    ensures BroadcastOk(h, d, log, tx)
  {
    DualPlanSpendsBothTransits(h, d.cap, AgreedMeta(d));
    hide StackOk;
    assert WithoutWitness(tx).ins[AgreedPlan(h, d).accIndex].sigScript == [];
  }

  lemma CallPublishesAgreed(h: Hashes, w: World, c: LndCall)
    requires Honest(h, w) && MayCall(h, w, c)
    ensures var e := EventOf(h, w, c);
            !e.SentOutput? && (e.PublishedFunding? ==> BroadcastOk(h, DealOf(w), w.log, e.tx))
  {
    hide Honest, HasPlan, PlanOf, AssembledTx, BroadcastOk, GoodTx;
    match c
    case PublishOwn(from, stack, actual, saved) =>
      AssembledIsAgreed(h, w, from, stack);
    case PublishStored(from) =>
      StoredTxIsGood(h, w, from);
      StoredIsBroadcastOk(h, DealOf(w), w.log, from.meta.fundingTx.value);
    case _ =>
  }

  lemma StoredTxIsGood(h: Hashes, w: World, r: Row)
    requires Honest(h, w) && r in w.initiator.hist && r.meta.fundingTx.Some?
    ensures GoodTx(h, DealOf(w), w.log, r.meta.fundingTx.value)
  {
    assert GoodRow(h, w, Initiator, r);
  }

  lemma CallKeepsHonest(h: Hashes, w: World, c: LndCall)
    requires Honest(h, w) && MayCall(h, w, c)
    ensures var x := Log(w, [EventOf(h, w, c)]); Honest(h, x) && Extends(w, x)
  {
    hide GoodNode, GoodTraffic, FundedOnce, Safe, Extends, MayCall, EventOf, BroadcastOk;
    CallsPublishSafely(h, w, c);
    CallPublishesAgreed(h, w, c);
    LoggingKeepsSafe(h, w, [EventOf(h, w, c)]);
    LoggingKeepsHonest(h, w, [EventOf(h, w, c)]);
  }

  lemma CancelKeepsHonest(h: Hashes, w: World, side: Role, now: int)
    requires Honest(h, w) && NodeOf(w, side).row.Some?
    ensures var x := StoredIfOk(w, side, CancelRow(NodeOf(w, side).row.value, now)); Honest(h, x) && Extends(w, x)
  {
    var row := NodeOf(w, side).row.value;
    assert RowSafe(h, w.log, side, row) && GoodRow(h, w, side, row);
    GoodRowIsGoodDoc(h, w, side);
    hide GoodNode, GoodTraffic, FundedOnce, NodeSafe, LogSafe, GoodDoc;
    if CancelRow(row, now).Ok? {
      StoringKeepsHonest(h, w, side, CancelRow(row, now).value);
    }
  }

  lemma ProposalPatchIsGood(h: Hashes, w: World, msg: Msg, m: Meta)
    requires HashWidths(h) && msg.Proposal? && GoodPacket(h, w, Packet(Accepter, msg))
    requires m == EMPTY_META || GoodDoc(h, DealOf(w), w.log, Accepter, m)
    ensures GoodStep(h, w, Accepter, m, Merge(m, ProposalPatch(msg)))
  {
    hide BuildDualFundingPlan, BuildOrphanPlan;
  }

  // A proposal from the initiator leaves the accepter with a good row.
  lemma ProposalIsGood(h: Hashes, w: World, sender: Bytes, msg: Msg, now: int)
    requires HashWidths(h) && Honest(h, w) && msg.Proposal? && Delivered(w, Accepter, sender, msg)
    requires UpsertFromProposal(w.accepter.row, sender, msg, now).Ok?
    ensures var r := UpsertFromProposal(w.accepter.row, sender, msg, now).value;
            GoodSuccessor(h, w, Accepter, r) && RowSafe(h, w.log, Accepter, r)
  {
    var row := w.accepter.row;
    assert GoodPacket(h, w, Packet(Accepter, msg));
    if row.Some? {
      assert RowSafe(h, w.log, Accepter, row.value) && GoodRow(h, w, Accepter, row.value);
      GoodRowIsGoodDoc(h, w, Accepter);
    }
    ProposalPatchIsGood(h, w, msg, if row.Some? then row.value.meta else EMPTY_META);
    hide GoodTraffic, FundedOnce, KeepsRecords, GoodDoc;
  }

  lemma ProposalKeepsHonest(h: Hashes, w: World, side: Role, sender: Bytes, msg: Msg, now: int)
    requires HashWidths(h) && Honest(h, w) && msg.Proposal? && Delivered(w, side, sender, msg)
    ensures var x := StoredIfOk(w, side, UpsertFromProposal(NodeOf(w, side).row, sender, msg, now)); Honest(h, x) && Extends(w, x)
  {
    assert GoodPacket(h, w, Packet(side, msg));
    assert side == Accepter;
    var r := UpsertFromProposal(w.accepter.row, sender, msg, now);
    if r.Ok? {
      ProposalIsGood(h, w, sender, msg, now);
      hide GoodNode, GoodTraffic, FundedOnce, UpsertFromProposal, GoodSuccessor, RowSafe, Safe;
      StoringKeepsHonest(h, w, Accepter, r.value);
    }
  }

  // ---- Recovery calls ------------------------------------------------------------------

  // A call may start, go on or end.
  lemma CallingKeepsHonest(h: Hashes, w: World, side: Role, id: nat, c: Option<Orphan.Call>)
    requires Honest(h, w) && (c.Some? ==> Orphan.RowsOf(c.value) <= NodeOf(w, side).hist)
    ensures Honest(h, WithCall(w, side, id, c)) && Extends(w, WithCall(w, side, id, c))
  {
    var x := WithCall(w, side, id, c);
    CallingKeepsSafe(h, w, side, id, c);
    CallingKeepsGood(h, w, side, id, c);
    hide Safe, GoodNode, GoodTraffic, LockedOnce, Accounted;
    assert x.log == w.log;
  }

  lemma CallingKeepsGood(h: Hashes, w: World, side: Role, id: nat, c: Option<Orphan.Call>)
    requires Honest(h, w)
    ensures var x := WithCall(w, side, id, c);
            Extends(w, x) && GoodNode(h, x, side) && GoodNode(h, x, Other(side)) && GoodTraffic(h, x)
  {
    hide Safe, FundedOnce, GoodMeta, GoodPacket, BroadcastOk, Remembers;
    var x := WithCall(w, side, id, c);
    assert Extends(w, x);
    SameRowsStayGood(h, w, x, side);
    SameRowsStayGood(h, w, x, Other(side));
    TrafficLasts(h, w, x);
  }

  lemma HonestIsSafe(h: Hashes, w: World, side: Role)
    requires Honest(h, w)
    ensures Safe(h, w)
    ensures var n := NodeOf(w, side); forall id :: id in n.calls ==> Orphan.RowsOf(n.calls[id]) <= n.hist
    ensures NodeOf(w, side).row.Some? ==> NodeOf(w, side).row.value.cap == w.cap
  {
    HeldRowsAreStored(h, w, side);
    assert NodeOf(w, side).row.Some? ==> GoodRow(h, w, side, NodeOf(w, side).row.value);
  }

  // The row a recovery call's document comes from; only recovery fields differ.
  lemma DocumentSource(h: Hashes, c: Orphan.Call, op: Orphan.Op) returns (from: Row)
    requires Orphan.May(c, op) && Orphan.IsWrite(op) && !op.SaveSwept?
    ensures from in Orphan.RowsOf(c)
    ensures var m := Orphan.DocumentOf(h, c, op);
            m == from.meta.(orphanRate := m.orphanRate, initSig := m.initSig, accSig := m.accSig, orphanTxid := m.orphanTxid)
  {
    hide Orphan.RecoveryTx;
    from := if op.SaveDone? then c.stage.half else c.row;
  }

  lemma RecoveryFieldsDoNotMatter(h: Hashes, d: Deal, log: seq<LndEvent>, side: Role, from: Meta, m: Meta)
    requires GoodDoc(h, d, log, side, from)
    requires m == from.(orphanRate := m.orphanRate, initSig := m.initSig, accSig := m.accSig, orphanTxid := m.orphanTxid)
    ensures GoodDoc(h, d, log, side, m)
  {
    hide StackOk, GoodTx, AgreedPlan;
  }

  // Whatever a recovery call writes back comes from a row the node has stored.
  lemma RecoveryPatchIsGood(h: Hashes, w: World, side: Role, id: nat, op: Orphan.Op)
    requires HashWidths(h) && Honest(h, w) && MayRecover(w, side, id, op) && Orphan.IsWrite(op)
    ensures var m := NodeOf(w, side).row.value.meta;
            GoodStep(h, w, side, m, Merge(m, Orphan.PatchOf(h, NodeOf(w, side).calls[id], op)))
  {
    hide Honest, GoodStep, GoodDoc, Encode, Merge, Orphan.RowsOf, Orphan.DocumentOf;
    GoodRowIsGoodDoc(h, w, side);
    HonestIsSafe(h, w, side);
    var c, m := NodeOf(w, side).calls[id], NodeOf(w, side).row.value.meta;
    if op.SaveSwept? {
      NothingIsGood(h, w, side, m);
    } else {
      var from := DocumentSource(h, c, op);
      StoredIsGoodDoc(h, w, side, from);
      var writer := Orphan.DocumentOf(h, c, op);
      RecoveryFieldsDoNotMatter(h, DealOf(w), w.log, side, from.meta, writer);
      GoodMerge(h, DealOf(w), w.log, side, m, writer);
      JoinStep(h, w, side, m, Merge(m, Encode(writer)));
    }
  }

  lemma NothingIsGood(h: Hashes, w: World, side: Role, m: Meta)
    requires GoodDoc(h, DealOf(w), w.log, side, m)
    ensures GoodStep(h, w, side, m, Merge(m, NO_PATCH))
  {
    hide GoodDoc;
    assert Merge(m, NO_PATCH) == m;
  }

  lemma StoredIsGoodDoc(h: Hashes, w: World, side: Role, r: Row)
    requires Honest(h, w) && r in NodeOf(w, side).hist
    ensures GoodDoc(h, DealOf(w), w.log, side, r.meta) && r.cap == w.cap && r.role == side
  {
    assert RowSafe(h, w.log, side, r) && GoodRow(h, w, side, r);
  }

  lemma JoinStep(h: Hashes, w: World, side: Role, m: Meta, r: Meta)
    requires GoodDoc(h, DealOf(w), w.log, side, r) && KeepsRecords(m, r)
    ensures GoodStep(h, w, side, m, r)
  {
  }

  lemma RecoveryWriteKeepsHonest(h: Hashes, w: World, side: Role, id: nat, op: Orphan.Op)
    requires HashWidths(h) && Honest(h, w) && MayRecover(w, side, id, op) && Orphan.IsWrite(op)
    ensures Honest(h, RecoveryStepped(h, w, side, id, op)) && Extends(w, RecoveryStepped(h, w, side, id, op))
  {
    hide Honest, GoodStep, Transition, Merge, StateFits, DocumentSafe, Extends, RecoveryStepped,
         Orphan.NextState, Orphan.PatchOf, Orphan.Written, Orphan.Refused, Orphan.RowsOf;
    var c := NodeOf(w, side).calls[id];
    var next, p := Orphan.NextState(c, op), Orphan.PatchOf(h, c, op);
    var row := NodeOf(w, side).row.value;
    var t := Transition(row, next, p, op.now);
    HonestIsSafe(h, w, side);
    RecoveryWritesSafely(h, w, side, id, op);
    RecoveryWrittenCases(h, w, side, id, op);
    if t.Ok? {
      RecoveryPatchIsGood(h, w, side, id, op);
      WritingKeepsHonest(h, w, side, next, p, op.now);
      var x := StoredRow(w, side, t.value);
      ContinuedRows(c, op, t.value);
      CallingKeepsHonest(h, x, side, id, Orphan.Written(c, op, t.value));
      ExtendsIsTransitive(w, x, WithCall(x, side, id, Orphan.Written(c, op, t.value)));
    } else {
      ContinuedRows(c, op, row);
      CallingKeepsHonest(h, w, side, id, Orphan.Refused(c, op));
    }
  }

  lemma RecoveryStartKeepsHonest(h: Hashes, w: World, side: Role, id: nat, op: Orphan.Op)
    requires Honest(h, w) && MayRecover(w, side, id, op) && (op.Ask? || op.Hear?)
    ensures Honest(h, RecoveryStepped(h, w, side, id, op)) && Extends(w, RecoveryStepped(h, w, side, id, op))
  {
    hide Honest, Orphan.RowsOf, Orphan.Asked, Orphan.Listening, Orphan.CheckOrphanMessage, Orphan.PlanRecovery,
         Extends, Delivered, RecoveryWritten;
    var row := NodeOf(w, side).row.value;
    HonestIsSafe(h, w, side);
    RecoveryRowsAreStored(h, w, side, id, op);
    CallingKeepsHonest(h, w, side, id, Some(if op.Ask? then Orphan.Asked(row, op.asked) else Orphan.Listening(row, op.msg)));
  }

  lemma RecoveryCallKeepsHonest(h: Hashes, w: World, side: Role, id: nat, op: Orphan.Op)
    requires Honest(h, w) && MayRecover(w, side, id, op) && !Orphan.IsWrite(op) && !op.Ask? && !op.Hear?
    ensures Honest(h, RecoveryStepped(h, w, side, id, op)) && Extends(w, RecoveryStepped(h, w, side, id, op))
  {
    hide Honest, Extends, GoodMsg, Orphan.EventsOf, Orphan.SentBy, Orphan.Continued, Orphan.RowsOf;
    var c := NodeOf(w, side).calls[id];
    var events, msgs := Orphan.EventsOf(c, op), Orphan.SentBy(c, op);
    HonestIsSafe(h, w, side);
    RecoveryRowsAreStored(h, w, side, id, op);
    RecoveryEventsAreSafe(c, op);
    LoggingKeepsSafe(h, w, events);
    LoggingKeepsHonest(h, w, events);
    var w1 := Log(w, events);
    RecoveryMessagesAreGood(h, w1, side, c, op);
    var w2 := Sent(w1, side, msgs);
    SendingKeepsHonest(h, w1, set m | m in msgs :: Packet(Other(side), m));
    CallingKeepsHonest(h, w2, side, id, Orphan.Continued(c, op));
    ExtendsIsTransitive(w, w1, w2);
    ExtendsIsTransitive(w, w2, WithCall(w2, side, id, Orphan.Continued(c, op)));
  }

  lemma RecoveryMessagesAreGood(h: Hashes, w: World, side: Role, c: Orphan.Call, op: Orphan.Op)
    requires Orphan.May(c, op) && !Orphan.IsWrite(op)
    ensures forall p :: p in (set m | m in Orphan.SentBy(c, op) :: Packet(Other(side), m)) ==> GoodPacket(h, w, p)
  {
  }

  lemma RecoveryKeepsHonest(h: Hashes, w: World, side: Role, id: nat, op: Orphan.Op)
    requires HashWidths(h) && Honest(h, w) && MayRecover(w, side, id, op)
    ensures Honest(h, RecoveryStepped(h, w, side, id, op)) && Extends(w, RecoveryStepped(h, w, side, id, op))
  {
    hide Honest, Extends, RecoveryStepped, MayRecover;
    if op.Ask? || op.Hear? {
      RecoveryStartKeepsHonest(h, w, side, id, op);
    } else if Orphan.IsWrite(op) {
      RecoveryWriteKeepsHonest(h, w, side, id, op);
    } else {
      RecoveryCallKeepsHonest(h, w, side, id, op);
    }
  }

  // ---- Runs -----------------------------------------------------------------------------

  lemma StepKeepsHonest(h: Hashes, w: World, step: Step)
    requires HashWidths(h) && Honest(h, w) && Enabled(h, w, step)
    ensures Honest(h, Apply(h, w, step)) && Extends(w, Apply(h, w, step))
  {
    hide Honest, Extends, OperatorMay, Operated, MayUpdate, Updated, MayCall, EventOf, StoredIfOk, MayRecover, RecoveryStepped,
         UpsertFromProposal, CancelRow, Log, Delivered;
    match step
    case Operate(op) => OperatorStepKeepsHonest(h, w, op);
    case Write(u) => UpdateKeepsHonest(h, w, u);
    case Call(c) => CallKeepsHonest(h, w, c);
    case CancelSession(side, now) => CancelKeepsHonest(h, w, side, now);
    case HearProposal(side, sender, msg, now) => ProposalKeepsHonest(h, w, side, sender, msg, now);
    case Recover(side, id, act) => RecoveryKeepsHonest(h, w, side, id, act);
  }

  lemma StartIsHonest(h: Hashes, w: World)
    requires Starts(w) && w.honest
    ensures Honest(h, w)
  {
    StartIsSafe(h, w);
  }

  lemma {:induction false} RunKeepsHonest(h: Hashes, w: World, steps: seq<Step>)
    requires HashWidths(h) && Honest(h, w) && CanRun(h, w, steps)
    ensures Honest(h, Run(h, w, steps)) && Extends(w, Run(h, w, steps))
    decreases |steps|
  {
    hide Honest, Apply, Enabled;
    if steps != [] {
      StepKeepsHonest(h, w, steps[0]);
      RunKeepsHonest(h, Apply(h, w, steps[0]), steps[1..]);
      ExtendsIsTransitive(w, Apply(h, w, steps[0]), Run(h, w, steps));
    }
  }
}
