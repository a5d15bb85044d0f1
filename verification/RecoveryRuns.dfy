// Recoveries in every run of two honest nodes in which no recovery call starts at another
// rate than an unfinished one of its node: all signatures on record, in messages and in
// calls were made over the agreed recovery at the rate they go with.
module RecoveryRuns {
  import opened Prelude
  import opened Bitcoin
  import opened Session
  import opened FundingPlan
  import opened Lnd
  import opened OpenWorld
  import opened OpenSafety
  import opened OpenRates
  import opened OpenAgreement
  import opened OpenRuns
  import opened RecoveryAgreement
  import Orphan = OrphanRecovery

  // ---- The invariant -----------------------------------------------------------------------

  // The signatures in a node's documents, and what its calls carry.
  ghost predicate DocsSigned(h: Hashes, d: Deal, log: seq<LndEvent>, rate: int, n: Node) {
    && (forall r :: r in n.hist ==> SigsOk(h, d, log, rate, r.meta))
    && (n.frame.Some? ==> SigsOk(h, d, log, rate, n.frame.value.meta))
  }

  ghost predicate CallsGood(h: Hashes, d: Deal, log: seq<LndEvent>, side: Role, n: Node) {
    forall id :: id in n.calls ==> GoodCall(h, d, log, side, n.calls[id])
  }

  ghost predicate NodeSigned(h: Hashes, w: World, side: Role) {
    var n := NodeOf(w, side);
    DocsSigned(h, DealOf(w), w.log, RateOf(n), n) && CallsGood(h, DealOf(w), w.log, side, n)
  }

  ghost predicate TrafficSigned(h: Hashes, w: World) {
    && (forall p :: p in w.net ==> OrphanMsgOk(h, DealOf(w), w.log, p.to, p.msg))
    && (forall e :: e in w.log && e.PublishedRecovery? ==> RecoveryOk(h, DealOf(w), w.log, e.tx))
  }

  ghost predicate AllSigned(h: Hashes, w: World) {
    NodeSigned(h, w, Initiator) && NodeSigned(h, w, Accepter) && TrafficSigned(h, w)
  }

  // ---- What lasts ---------------------------------------------------------------------------

  lemma SigsLast(h: Hashes, d: Deal, log: seq<LndEvent>, rate: int, e: Deal, log': seq<LndEvent>, rate': int, m: Meta)
    requires DealExtends(d, e) && (forall v :: v in log ==> v in log') && rate in {0, rate'} && SigsOk(h, d, log, rate, m)
    ensures SigsOk(h, e, log', rate', m)
  {
    hide AgreedRecovery;
    if BothOwn(d) {
      assert e == d;
    }
  }

  lemma CallLasts(h: Hashes, d: Deal, log: seq<LndEvent>, e: Deal, log': seq<LndEvent>, side: Role, c: Orphan.Call)
    requires DealExtends(d, e) && (forall v :: v in log ==> v in log') && GoodCall(h, d, log, side, c)
    ensures GoodCall(h, e, log', side, c)
  {
    hide AgreedRecovery;
    if BothOwn(d) {
      assert e == d;
    }
  }

  lemma MsgLasts(h: Hashes, d: Deal, log: seq<LndEvent>, e: Deal, log': seq<LndEvent>, to: Role, msg: Msg)
    requires DealExtends(d, e) && (forall v :: v in log ==> v in log') && OrphanMsgOk(h, d, log, to, msg)
    ensures OrphanMsgOk(h, e, log', to, msg)
  {
    hide AgreedRecovery;
    if BothOwn(d) {
      assert e == d;
    }
  }

  lemma DocsLast(h: Hashes, d: Deal, log: seq<LndEvent>, rate: int, e: Deal, log': seq<LndEvent>, rate': int, n: Node)
    requires DealExtends(d, e) && (forall v :: v in log ==> v in log') && rate in {0, rate'} && DocsSigned(h, d, log, rate, n)
    ensures DocsSigned(h, e, log', rate', n)
  {
    forall r | r in n.hist
      ensures SigsOk(h, e, log', rate', r.meta)
    {
      SigsLast(h, d, log, rate, e, log', rate', r.meta);
    }
    if n.frame.Some? {
      SigsLast(h, d, log, rate, e, log', rate', n.frame.value.meta);
    }
  }

  lemma CallsLast(h: Hashes, d: Deal, log: seq<LndEvent>, e: Deal, log': seq<LndEvent>, side: Role, n: Node)
    requires DealExtends(d, e) && (forall v :: v in log ==> v in log') && CallsGood(h, d, log, side, n)
    ensures CallsGood(h, e, log', side, n)
  {
    forall id | id in n.calls
      ensures GoodCall(h, e, log', side, n.calls[id])
    {
      CallLasts(h, d, log, e, log', side, n.calls[id]);
    }
  }

  // ---- Steps outside recovery calls ---------------------------------------------------------

  // They take their signatures from the node's own documents, and leave its calls alone.
  ghost predicate SameSigners(h: Hashes, d: Deal, log: seq<LndEvent>, rate: int, n: Node, k: Node) {
    k.calls == n.calls && DocsSigned(h, d, log, rate, k)
  }

  predicate PatchSigsOk(h: Hashes, d: Deal, log: seq<LndEvent>, rate: int, p: Patch) {
    SigsOk(h, d, log, rate, EMPTY_META.(initSig := Or(p.initSig, []), accSig := Or(p.accSig, [])))
  }

  lemma PatchingSigs(h: Hashes, d: Deal, log: seq<LndEvent>, rate: int, m: Meta, p: Patch)
    requires SigsOk(h, d, log, rate, m) && PatchSigsOk(h, d, log, rate, p)
    ensures SigsOk(h, d, log, rate, Merge(m, p))
  {
    hide SigOk;
  }

  lemma EncodedSigs(h: Hashes, d: Deal, log: seq<LndEvent>, rate: int, m: Meta)
    requires SigsOk(h, d, log, rate, m)
    ensures PatchSigsOk(h, d, log, rate, Encode(m))
  {
    hide SigOk;
  }

  lemma WritingKeepsDocs(h: Hashes, d: Deal, log: seq<LndEvent>, rate: int, w: World, writer: Role, next: State, p: Patch, now: int, side: Role)
    requires var n := NodeOf(w, side); DocsSigned(h, d, log, rate, n) && (n.row.Some? ==> n.row.value in n.hist)
    requires writer == side ==> PatchSigsOk(h, d, log, rate, p)
    ensures SameSigners(h, d, log, rate, NodeOf(w, side), NodeOf(Written(w, writer, next, p, now), side))
  {
    hide SigsOk, PatchSigsOk, Merge;
    var n := NodeOf(w, side);
    if writer == side && n.row.Some? && Transition(n.row.value, next, p, now).Ok? {
      PatchingSigs(h, d, log, rate, n.row.value.meta, p);
    }
  }

  lemma UpdateKeepsDocs(h: Hashes, d: Deal, log: seq<LndEvent>, rate: int, w: World, u: Update, side: Role)
    requires var n := NodeOf(w, side); DocsSigned(h, d, log, rate, n) && (n.row.Some? ==> n.row.value in n.hist)
    requires MayUpdate(h, w, u)
    ensures SameSigners(h, d, log, rate, NodeOf(w, side), NodeOf(Updated(h, w, u), side))
  {
    assert SideOf(u) == side ==> SigsOk(h, d, log, rate, u.from.meta);
    hide DocsSigned, SameSigners, SigOk, HasPlan, SubmitPatch, SignedPatch, SiteApplies, Encode, BuildDualFundingPlan;
    if u.HeardAccept? {
      if u.side == side {
        EncodedSigs(h, d, log, rate, HearAccept(h, u.from, u.sender, u.msg).value);
      }
    } else {
      PlainPatchesHaveNoSigs(h, w, u);
      hide PatchOf;
    }
    WritingKeepsDocs(h, d, log, rate, w, SideOf(u), NextState(u), PatchOf(h, w, u), u.now, side);
  }

  lemma PlainPatchesHaveNoSigs(h: Hashes, w: World, u: Update)
    requires MayUpdate(h, w, u) && !u.HeardAccept?
    ensures PatchOf(h, w, u).initSig == None && PatchOf(h, w, u).accSig == None
  {
    hide HasPlan, PlanOf, AssembledTx, ExecuteMeta;
  }

  lemma FrameSigs(h: Hashes, w: World, op: OperatorStep, side: Role)
    requires OperatorMay(h, w, op) && !op.Save?
    ensures var n, k := NodeOf(w, side), NodeOf(Operated(h, w, op), side);
            && k.hist == n.hist && k.calls == n.calls
            && (k.frame.Some? ==>
                  var m := k.frame.value.meta;
                  (n.row.Some? && m.initSig == n.row.value.meta.initSig && m.accSig == n.row.value.meta.accSig) ||
                  (n.frame.Some? && m.initSig == n.frame.value.meta.initSig && m.accSig == n.frame.value.meta.accSig))
  {
    hide BuildDualFundingPlan, CountersignEvents, FundedArtifacts, CanSend, CanFund, Saved;
  }

  lemma OperatorKeepsDocs(h: Hashes, d: Deal, log: seq<LndEvent>, rate: int, w: World, op: OperatorStep, side: Role)
    requires var n := NodeOf(w, side); DocsSigned(h, d, log, rate, n) && (n.row.Some? ==> n.row.value in n.hist) && (n.frame.Some? ==> n.row.Some?)
    requires OperatorMay(h, w, op)
    ensures SameSigners(h, d, log, rate, NodeOf(w, side), NodeOf(Operated(h, w, op), side))
  {
    if op.Save? {
      hide DocsSigned, SameSigners, Transition, CanSave, Saved;
      if op.side == side {
        SavingKeepsDocs(h, d, log, rate, w, side, op.next, op.now);
      } else {
        SavingLeavesOther(w, op.side, op.next, op.now);
        SameDocs(h, d, log, rate, NodeOf(w, side));
      }
    } else {
      hide Operated, OperatorMay, SigOk;
      FrameSigs(h, w, op, side);
    }
  }

  lemma SameDocs(h: Hashes, d: Deal, log: seq<LndEvent>, rate: int, n: Node)
    requires DocsSigned(h, d, log, rate, n)
    ensures SameSigners(h, d, log, rate, n, n)
  {
  }

  lemma SavingKeepsDocs(h: Hashes, d: Deal, log: seq<LndEvent>, rate: int, w: World, side: Role, next: State, now: int)
    requires var n := NodeOf(w, side); DocsSigned(h, d, log, rate, n) && n.frame.Some? && n.row.Some? && n.row.value in n.hist
    ensures SameSigners(h, d, log, rate, NodeOf(w, side), NodeOf(Saved(w, side, next, now), side))
  {
    hide SigsOk, Encode, Merge, Transition, Saved;
    var n := NodeOf(w, side);
    SavedCases(w, side, next, now);
    MovedRow(n.row.value, next, Encode(n.frame.value.meta), now);
    MergingSigs(h, d, log, rate, n.row.value.meta, n.frame.value.meta);
  }

  lemma ProposalKeepsDocs(h: Hashes, d: Deal, log: seq<LndEvent>, rate: int, w: World, s: Role, sender: Bytes, msg: Msg, now: int, side: Role)
    requires var n := NodeOf(w, side); DocsSigned(h, d, log, rate, n) && (n.row.Some? ==> n.row.value in n.hist)
    requires msg.Proposal?
    ensures SameSigners(h, d, log, rate, NodeOf(w, side), NodeOf(StoredIfOk(w, s, UpsertFromProposal(NodeOf(w, s).row, sender, msg, now)), side))
  {
    hide SigOk, CheckProposal;
    assert SigsOk(h, d, log, rate, EMPTY_META) && PatchSigsOk(h, d, log, rate, ProposalPatch(msg));
    var row := NodeOf(w, side).row;
    PatchingSigs(h, d, log, rate, if row.Some? then row.value.meta else EMPTY_META, ProposalPatch(msg));
    hide SigsOk, ProposalPatch, Merge;
  }

  lemma CancelKeepsDocs(h: Hashes, d: Deal, log: seq<LndEvent>, rate: int, w: World, s: Role, now: int, side: Role)
    requires var n := NodeOf(w, side); DocsSigned(h, d, log, rate, n) && (n.row.Some? ==> n.row.value in n.hist)
    requires NodeOf(w, s).row.Some?
    ensures SameSigners(h, d, log, rate, NodeOf(w, side), NodeOf(StoredIfOk(w, s, CancelRow(NodeOf(w, s).row.value, now)), side))
  {
    hide SigsOk;
  }

  lemma StepKeepsDocs(h: Hashes, d: Deal, log: seq<LndEvent>, rate: int, w: World, step: Step, side: Role)
    requires Safe(h, w) && DocsSigned(h, d, log, rate, NodeOf(w, side)) && Enabled(h, w, step) && !step.Recover?
    ensures SameSigners(h, d, log, rate, NodeOf(w, side), NodeOf(Apply(h, w, step), side))
  {
    HeldRowsAreStored(h, w, side);
    assert NodeOf(w, side).frame.Some? ==> NodeOf(w, side).row.Some?;
    hide Safe, DocsSigned, SameSigners, OperatorMay, Operated, MayUpdate, Updated, MayCall, EventOf, StoredIfOk, UpsertFromProposal, CancelRow;
    match step
    case Operate(op) => OperatorKeepsDocs(h, d, log, rate, w, op, side);
    case Write(u) => UpdateKeepsDocs(h, d, log, rate, w, u, side);
    case Call(c) => SameDocs(h, d, log, rate, NodeOf(w, side));
    case CancelSession(s, now) => CancelKeepsDocs(h, d, log, rate, w, s, now, side);
    case HearProposal(s, sender, msg, now) => ProposalKeepsDocs(h, d, log, rate, w, s, sender, msg, now, side);
  }

  // ... and send and publish nothing of a recovery.
  lemma StepAddsNoRecovery(h: Hashes, w: World, step: Step)
    requires Enabled(h, w, step) && !step.Recover?
    ensures var x := Apply(h, w, step);
            && (forall p :: p in x.net && p !in w.net ==> !Orphan.IsOrphanMessage(p.msg))
            && (forall e :: e in x.log && e !in w.log ==> !e.PublishedRecovery? && !e.SignedRaw?)
  {
    hide Transition, UpsertFromProposal, CancelRow, PatchOf, NextState, MayUpdate, OperatorMay, Operated, HasPlan, PlanOf, AssembledTx, MayCall;
    if step.Operate? {
      OperatorAddsNoRecovery(h, w, step.op);
    } else if step.Call? {
      CallAddsNoRecovery(h, w, step.call);
    }
  }

  lemma OperatorAddsNoRecovery(h: Hashes, w: World, op: OperatorStep)
    requires OperatorMay(h, w, op)
    ensures var x := Operated(h, w, op);
            && (forall p :: p in x.net && p !in w.net ==> !Orphan.IsOrphanMessage(p.msg))
            && (forall e :: e in x.log && e !in w.log ==> !e.PublishedRecovery? && !e.SignedRaw?)
  {
    hide Transition, BuildDualFundingPlan, CountersignedMeta, FundedArtifacts, CanSend, CanFund, CanCountersign, CanSave;
  }

  lemma CallAddsNoRecovery(h: Hashes, w: World, c: LndCall)
    requires MayCall(h, w, c)
    ensures !EventOf(h, w, c).PublishedRecovery? && !EventOf(h, w, c).SignedRaw?
  {
    hide HasPlan, PlanOf, AssembledTx;
  }

  lemma {:induction false} RunAddsNoRecovery(h: Hashes, w: World, steps: seq<Step>)
    requires CanRun(h, w, steps) && forall i :: 0 <= i < |steps| ==> !steps[i].Recover?
    ensures CalmRun(h, w, steps)
    ensures forall e :: e in Run(h, w, steps).log && e !in w.log ==> !e.PublishedRecovery? && !e.SignedRaw?
    decreases |steps|
  {
    hide Apply, Enabled;
    if steps != [] {
      StepAddsNoRecovery(h, w, steps[0]);
      assert forall i :: 0 <= i < |steps| - 1 ==> steps[1..][i] == steps[i + 1];
      RunAddsNoRecovery(h, Apply(h, w, steps[0]), steps[1..]);
    }
  }

  // ---- Steps of recovery calls --------------------------------------------------------------

  // The calls of a recovering node are in order, and so are the rows they hold.
  lemma CallsAreInOrder(h: Hashes, w: World, side: Role, id: nat)
    requires Honest(h, w) && Steady(NodeOf(w, side)) && NodeSigned(h, w, side) && id in NodeOf(w, side).calls
    ensures CallInOrder(h, DealOf(w), w.log, side, RateOf(NodeOf(w, side)), NodeOf(w, side).calls[id])
  {
    hide Honest, Steady, GoodCall, GoodDoc, SigsOk, Orphan.RowsOf;
    var n := NodeOf(w, side);
    HonestIsSafe(h, w, side);
    forall r | r in Orphan.RowsOf(n.calls[id])
      ensures r.role == side && r.cap == w.cap && GoodDoc(h, DealOf(w), w.log, side, r.meta) && SigsOk(h, DealOf(w), w.log, RateOf(n), r.meta)
    {
      StoredIsGoodDoc(h, w, side, r);
    }
    SteadyCall(n, id);
  }

  // ---- The ways a recovery call changes the world -----------------------------------------

  lemma CallingKeepsSigned(h: Hashes, w: World, side: Role, id: nat, c: Option<Orphan.Call>)
    requires AllSigned(h, w) && (c.Some? ==> GoodCall(h, DealOf(w), w.log, side, c.value))
    ensures AllSigned(h, WithCall(w, side, id, c))
  {
    hide GoodCall, SigsOk, OrphanMsgOk, RecoveryOk;
  }

  lemma StoringKeepsSigned(h: Hashes, w: World, side: Role, r: Row)
    requires AllSigned(h, w) && RateOf(NodeOf(w, side)) in {0, r.meta.orphanRate}
    requires SigsOk(h, DealOf(w), w.log, r.meta.orphanRate, r.meta)
    ensures AllSigned(h, StoredRow(w, side, r))
  {
    hide GoodCall, SigsOk, OrphanMsgOk, RecoveryOk;
    var n := NodeOf(w, side);
    DocsLast(h, DealOf(w), w.log, RateOf(n), DealOf(w), w.log, r.meta.orphanRate, n);
  }

  lemma LoggingKeepsSigned(h: Hashes, w: World, events: seq<LndEvent>)
    requires AllSigned(h, w)
    requires forall e :: e in events && e.PublishedRecovery? ==> RecoveryOk(h, DealOf(w), w.log + events, e.tx)
    ensures AllSigned(h, Log(w, events))
  {
    LaterKeepsSigned(h, w, Log(w, events));
  }

  lemma SendingKeepsSigned(h: Hashes, w: World, side: Role, msgs: set<Msg>)
    requires AllSigned(h, w) && forall msg :: msg in msgs ==> OrphanMsgOk(h, DealOf(w), w.log, Other(side), msg)
    ensures AllSigned(h, Sent(w, side, msgs))
  {
    hide GoodCall, SigsOk, OrphanMsgOk, RecoveryOk;
  }

  // A world that says more, with the documents and calls of its nodes in order and nothing
  // unsigned among its new messages and events.
  lemma LaterKeepsSigned(h: Hashes, w: World, x: World)
    requires AllSigned(h, w) && DealExtends(DealOf(w), DealOf(x)) && forall v :: v in w.log ==> v in x.log
    requires forall side :: NodeLater(h, w, x, side)
    requires forall p :: p in x.net && p !in w.net ==> OrphanMsgOk(h, DealOf(x), x.log, p.to, p.msg)
    requires forall e :: e in x.log && e !in w.log && e.PublishedRecovery? ==> RecoveryOk(h, DealOf(x), x.log, e.tx)
    ensures AllSigned(h, x)
  {
    hide OrphanMsgOk, RecoveryOk, DealExtends, NodeLater, NodeSigned;
    LaterNodeIsSigned(h, w, x, Initiator);
    LaterNodeIsSigned(h, w, x, Accepter);
    forall p | p in x.net
      ensures OrphanMsgOk(h, DealOf(x), x.log, p.to, p.msg)
    {
      if p in w.net {
        MsgLasts(h, DealOf(w), w.log, DealOf(x), x.log, p.to, p.msg);
      }
    }
    forall e | e in x.log && e.PublishedRecovery?
      ensures RecoveryOk(h, DealOf(x), x.log, e.tx)
    {
      if e in w.log {
        RecoveryLasts(h, DealOf(w), w.log, DealOf(x), x.log, e.tx);
      }
    }
  }

  ghost predicate NodeLater(h: Hashes, w: World, x: World, side: Role) {
    var n, k := NodeOf(w, side), NodeOf(x, side);
    SameSigners(h, DealOf(w), w.log, RateOf(n), n, k) && RateOf(n) in {0, RateOf(k)}
  }

  lemma LaterNodeIsSigned(h: Hashes, w: World, x: World, side: Role)
    requires NodeSigned(h, w, side) && DealExtends(DealOf(w), DealOf(x)) && (forall v :: v in w.log ==> v in x.log)
    requires NodeLater(h, w, x, side)
    ensures NodeSigned(h, x, side)
  {
    hide DocsSigned, DealExtends;
    var n, k := NodeOf(w, side), NodeOf(x, side);
    DocsLast(h, DealOf(w), w.log, RateOf(n), DealOf(x), x.log, RateOf(k), k);
    CallsLast(h, DealOf(w), w.log, DealOf(x), x.log, side, n);
    hide GoodCall;
  }

  // ---- The steps of a recovery call ---------------------------------------------------------

  lemma RateOfWrite(h: Hashes, c: Orphan.Call, op: Orphan.Op, r: Row, stored: Meta)
    requires Orphan.May(c, op) && Orphan.IsWrite(op) && c.rate > 0 && r.meta == Merge(stored, Orphan.PatchOf(h, c, op))
    requires Unrecorded(c) || c.rate == stored.orphanRate
    requires op.SaveDone? ==> Fits(c.stage.half.meta, c.rate)
    ensures r.meta.orphanRate == RateWritten(c, op, stored.orphanRate)
  {
    LateWritesFollow(c, op);
    WrittenRate(h, c, op, r, stored);
    hide Orphan.PatchOf, Merge, Orphan.PlanRecovery;
  }

  lemma RecoveryWriteKeepsSigned(h: Hashes, w: World, side: Role, id: nat, op: Orphan.Op)
    requires HashWidths(h) && Honest(h, w) && Steady(NodeOf(w, side)) && AllSigned(h, w)
    requires MayRecover(w, side, id, op) && Orphan.IsWrite(op)
    ensures AllSigned(h, RecoveryStepped(h, w, side, id, op))
  {
    var n := NodeOf(w, side);
    var c := n.calls[id];
    assert NodeSigned(h, w, side);
    assert GoodCall(h, DealOf(w), w.log, side, c);
    hide Honest, Steady, AllSigned, NodeSigned, GoodCall, GoodDoc, SigsOk, CallInOrder, KnowsBothKeys, Transition, Merge, Fits, Unrecorded, RecoveryStepped,
         Orphan.NextState, Orphan.PatchOf, Orphan.Written, Orphan.RowsOf;
    RecoveryWrittenCases(h, w, side, id, op);
    var t := Transition(n.row.value, Orphan.NextState(c, op), Orphan.PatchOf(h, c, op), op.now);
    if t.Ok? {
      StoringRecoveryKeepsSigned(h, w, side, id, op, t.value);
    } else {
      CallingKeepsSigned(h, w, side, id, Orphan.Refused(c, op));
    }
  }

  lemma StoringRecoveryKeepsSigned(h: Hashes, w: World, side: Role, id: nat, op: Orphan.Op, r: Row)
    requires HashWidths(h) && Honest(h, w) && Steady(NodeOf(w, side)) && AllSigned(h, w)
    requires MayRecover(w, side, id, op) && Orphan.IsWrite(op)
    requires var c := NodeOf(w, side).calls[id];
             Transition(NodeOf(w, side).row.value, Orphan.NextState(c, op), Orphan.PatchOf(h, c, op), op.now) == Ok(r)
    ensures AllSigned(h, WithCall(StoredRow(w, side, r), side, id, Orphan.Written(NodeOf(w, side).calls[id], op, r)))
  {
    hide Honest, Steady, GoodCall, GoodDoc, GoodStep, SigsOk, KnowsBothKeys, Transition, Merge, Fits, Unrecorded, WellHeard, RecoveryStepped,
         Orphan.NextState, Orphan.PatchOf, Orphan.Written, Orphan.RowsOf;
    var n := NodeOf(w, side);
    var c, row := n.calls[id], n.row.value;
    HonestIsSafe(h, w, side);
    StoredIsGoodDoc(h, w, side, row);
    RowIsSigned(h, w, side);
    CallsAreInOrder(h, w, side, id);
    SteadyCall(n, id);
    MovedRow(row, Orphan.NextState(c, op), Orphan.PatchOf(h, c, op), op.now);
    RateOfWrite(h, c, op, r, row.meta);
    RecoveryKeepsSigs(h, DealOf(w), w.log, side, RateOf(n), c, op, row.meta);
    StoringKeepsSigned(h, w, side, r);
    RecoveryPatchIsGood(h, w, side, id, op);
    StepIsGoodDoc(h, w, side, row.meta, r.meta);
    if op.SaveSigned? {
      KeysAreKept(h, DealOf(w), w.log, side, c, op, row.meta);
    }
    WrittenCallIsGood(h, DealOf(w), w.log, side, c, op, r);
    CallingKeepsSigned(h, StoredRow(w, side, r), side, id, Orphan.Written(c, op, r));
  }

  lemma StepIsGoodDoc(h: Hashes, w: World, side: Role, m: Meta, r: Meta)
    requires GoodStep(h, w, side, m, r)
    ensures GoodDoc(h, DealOf(w), w.log, side, r)
  {
  }

  lemma RowIsSigned(h: Hashes, w: World, side: Role)
    requires Safe(h, w) && AllSigned(h, w) && NodeOf(w, side).row.Some?
    ensures NodeOf(w, side).row.value in NodeOf(w, side).hist
    ensures SigsOk(h, DealOf(w), w.log, RateOf(NodeOf(w, side)), NodeOf(w, side).row.value.meta)
  {
    hide SigsOk, GoodCall;
    HeldRowsAreStored(h, w, side);
  }

  lemma RecoveryStartKeepsSigned(h: Hashes, w: World, side: Role, id: nat, op: Orphan.Op)
    requires Honest(h, w) && AllSigned(h, w) && MayRecover(w, side, id, op) && (op.Ask? || op.Hear?)
    ensures AllSigned(h, RecoveryStepped(h, w, side, id, op))
  {
    hide Honest, GoodCall, GoodDoc, OrphanMsgOk, SigsOk, Orphan.Asked, Orphan.Listening, Orphan.CheckOrphanMessage, Orphan.PlanRecovery;
    var row := NodeOf(w, side).row.value;
    HonestIsHonest(h, w);
    HonestIsSafe(h, w, side);
    RowIsSigned(h, w, side);
    StoredIsGoodDoc(h, w, side, row);
    StartedCallIsGood(h, DealOf(w), w.log, side, row, op);
    hide AllSigned;
    CallingKeepsSigned(h, w, side, id, Some(if op.Ask? then Orphan.Asked(row, op.asked) else Orphan.Listening(row, op.msg)));
  }

  lemma HonestIsHonest(h: Hashes, w: World)
    requires Honest(h, w)
    ensures w.honest
  {
  }

  lemma RecoveryCallKeepsSigned(h: Hashes, w: World, side: Role, id: nat, op: Orphan.Op)
    requires Honest(h, w) && Steady(NodeOf(w, side)) && AllSigned(h, w)
    requires MayRecover(w, side, id, op) && !Orphan.IsWrite(op) && !op.Ask? && !op.Hear?
    ensures AllSigned(h, RecoveryStepped(h, w, side, id, op))
  {
    assert NodeSigned(h, w, side);
    hide Honest, Steady, AllSigned, NodeSigned, GoodCall, CallInOrder, RecoveryOk, OrphanMsgOk, Orphan.EventsOf, Orphan.SentBy, Orphan.Continued;
    var c := NodeOf(w, side).calls[id];
    var events, msgs := Orphan.EventsOf(c, op), Orphan.SentBy(c, op);
    CallsAreInOrder(h, w, side, id);
    ContinuedCallIsGood(h, DealOf(w), w.log, side, RateOf(NodeOf(w, side)), c, op);
    SentByCallIsGood(h, DealOf(w), w.log, side, RateOf(NodeOf(w, side)), c, op);
    LoggingKeepsSigned(h, w, events);
    var w1 := Log(w, events);
    forall msg | msg in msgs
      ensures OrphanMsgOk(h, DealOf(w1), w1.log, Other(side), msg)
    {
      MsgLasts(h, DealOf(w), w.log, DealOf(w1), w1.log, Other(side), msg);
    }
    SendingKeepsSigned(h, w1, side, msgs);
    CallingKeepsSigned(h, Sent(w1, side, msgs), side, id, Orphan.Continued(c, op));
  }

  // ---- Runs -----------------------------------------------------------------------------------

  lemma StepKeepsSigned(h: Hashes, w: World, step: Step)
    requires HashWidths(h) && Honest(h, w) && AllSigned(h, w) && Enabled(h, w, step) && !Clashes(w, step)
    requires forall side :: Steady(NodeOf(w, side))
    ensures AllSigned(h, Apply(h, w, step))
  {
    hide Honest, AllSigned, Clashes;
    if step.Recover? {
      hide Steady, RecoveryStepped, MayRecover;
      if step.act.Ask? || step.act.Hear? {
        RecoveryStartKeepsSigned(h, w, step.side, step.id, step.act);
      } else if Orphan.IsWrite(step.act) {
        RecoveryWriteKeepsSigned(h, w, step.side, step.id, step.act);
      } else {
        RecoveryCallKeepsSigned(h, w, step.side, step.id, step.act);
      }
    } else {
      hide Enabled, Apply;
      OtherStepKeepsSigned(h, w, step);
    }
  }

  lemma OtherStepKeepsSigned(h: Hashes, w: World, step: Step)
    requires HashWidths(h) && Honest(h, w) && AllSigned(h, w) && Enabled(h, w, step) && !Clashes(w, step) && !step.Recover?
    requires forall side :: Steady(NodeOf(w, side))
    ensures AllSigned(h, Apply(h, w, step))
  {
    hide Honest, Enabled, Apply, Steady, Clashes, NodeSigned, RecoveryOk, SigOk;
    var x := Apply(h, w, step);
    StepKeepsHonest(h, w, step);
    StepAddsNoRecovery(h, w, step);
    HonestIsSafe(h, w, Initiator);
    forall side
      ensures NodeLater(h, w, x, side)
    {
      StepKeepsSteady(h, w, step, side);
      OtherStepIsLater(h, w, step, side);
    }
    hide NodeLater, TrafficSigned;
    LaterKeepsSigned(h, w, x);
  }

  lemma OtherStepIsLater(h: Hashes, w: World, step: Step, side: Role)
    requires Safe(h, w) && NodeSigned(h, w, side) && Enabled(h, w, step) && !step.Recover?
    requires Extends(w, Apply(h, w, step)) && Steady(NodeOf(Apply(h, w, step), side))
    ensures NodeLater(h, w, Apply(h, w, step), side)
  {
    hide Safe, Enabled, Apply, DocsSigned, GoodCall;
    HeldRowsAreStored(h, w, side);
    StepKeepsDocs(h, DealOf(w), w.log, RateOf(NodeOf(w, side)), w, step, side);
  }

  lemma StartIsSigned(h: Hashes, w: World)
    requires Starts(w)
    ensures AllSigned(h, w) && Steady(w.initiator) && Steady(w.accepter)
  {
  }

  lemma {:induction false} RunKeepsSigned(h: Hashes, w: World, steps: seq<Step>)
    requires HashWidths(h) && Honest(h, w) && AllSigned(h, w) && CanRun(h, w, steps) && CalmRun(h, w, steps)
    requires forall side :: Steady(NodeOf(w, side))
    ensures AllSigned(h, Run(h, w, steps))
    decreases |steps|
  {
    hide Honest, AllSigned, Apply, Enabled, Steady, Clashes;
    if steps != [] {
      StepKeepsHonest(h, w, steps[0]);
      StepKeepsSigned(h, w, steps[0]);
      HonestIsSafe(h, w, Initiator);
      forall side
        ensures Steady(NodeOf(Apply(h, w, steps[0]), side))
      {
        StepKeepsSteady(h, w, steps[0], side);
      }
      RunKeepsSigned(h, Apply(h, w, steps[0]), steps[1..]);
    }
  }
}
