// What two honest nodes agree on, over every network that drops, duplicates and
// reorders: the invariant, and what follows from it in one state.
module OpenAgreement {
  import opened Prelude
  import opened Bitcoin
  import opened Session
  import opened FundingPlan
  import opened Lnd
  import opened OpenWorld
  import opened OpenSafety
  import Orphan = OrphanRecovery

  // ---- The plan both sides converge on -------------------------------------------

  // The parameters of a session: its capacity and what each party has put in.
  datatype Deal = Deal(cap: int, initOwn: Option<Artifacts>, accOwn: Option<Artifacts>)

  function DealOf(w: World): Deal {
    Deal(w.cap, w.initiator.own, w.accepter.own)
  }

  predicate ValidArtifacts(a: Artifacts) {
    IsPubkey(a.key.pub) && HasTransit(a.transit, true)
  }

  predicate BothOwn(d: Deal) {
    && d.initOwn.Some? && ValidArtifacts(d.initOwn.value)
    && d.accOwn.Some? && ValidArtifacts(d.accOwn.value)
  }

  function OwnOf(d: Deal, side: Role): Option<Artifacts> {
    if side == Initiator then d.initOwn else d.accOwn
  }

  // A document that knows both sides' artifacts.
  function AgreedMeta(d: Deal): Meta
    requires BothOwn(d)
  {
    EMPTY_META.(mode := DualMode,
      initKey := d.initOwn.value.key, initTransit := d.initOwn.value.transit,
      accKey := d.accOwn.value.key, accTransit := d.accOwn.value.transit)
  }

  function AgreedPlan(h: Hashes, d: Deal): DualPlan
    requires BothOwn(d)
  {
    BuildDualFundingPlan(h, d.cap, AgreedMeta(d)).value
  }

  function AgreedId(h: Hashes, d: Deal): Bytes
    requires BothOwn(d)
  {
    PendingChanId(h, d.initOwn.value.key.pub, d.accOwn.value.key.pub).value
  }

  function AgreedRecovery(h: Hashes, d: Deal, rate: int): Result<OrphanPlan, Error>
    requires BothOwn(d)
  {
    BuildOrphanPlan(d.cap, AgreedMeta(d).(fundingId := AgreedPlan(h, d).txid), rate)
  }

  lemma SameFundingSamePlan(h: Hashes, cap: int, m: Meta, n: Meta)
    requires SameFunding(m, n)
    ensures BuildDualFundingPlan(h, cap, m) == BuildDualFundingPlan(h, cap, n)
  {
  }

  // ---- Signatures on record --------------------------------------------------------

  // The accepter's LND signed the accepter's input of the agreed plan with this witness.
  predicate StackOk(h: Hashes, d: Deal, log: seq<LndEvent>, stack: seq<Bytes>) {
    && BothOwn(d)
    && var p, t := AgreedPlan(h, d), d.accOwn.value.transit;
       Signed(Accepter, p.tx, p.accIndex, t.key.pub, t.script, t.sat, stack) in log
  }

  // The initiator's LND signed the initiator's input of it with this witness.
  predicate OwnStackOk(h: Hashes, d: Deal, log: seq<LndEvent>, stack: seq<Bytes>) {
    && BothOwn(d)
    && var p, t := AgreedPlan(h, d), d.initOwn.value.transit;
       Signed(Initiator, p.tx, p.initIndex, t.key.pub, t.script, t.sat, stack) in log
  }

  // ---- Documents --------------------------------------------------------------------

  // What a document says about a party: nothing, or exactly that party's artifacts,
  // which the other side knows without the private key locators.
  predicate PartyKnown(key: KeyDesc, transit: Transit, own: Option<Artifacts>, mine: bool) {
    || (key == NO_KEY && transit == NO_TRANSIT)
    || (own.Some? && ValidArtifacts(own.value)
        && key == (if mine then own.value.key else RemoteKey(own.value.key.pub))
        && transit == (if mine then own.value.transit else WithoutKey(own.value.transit)))
  }

  predicate GoodParties(d: Deal, side: Role, m: Meta) {
    && m.mode == DualMode
    && PartyKnown(m.initKey, m.initTransit, d.initOwn, side == Initiator)
    && PartyKnown(m.accKey, m.accTransit, d.accOwn, side == Accepter)
  }

  // The agreed transaction, with each party's witness or without.
  predicate GoodTx(h: Hashes, d: Deal, log: seq<LndEvent>, tx: Tx) {
    && BothOwn(d) && WithoutWitness(tx) == AgreedPlan(h, d).tx
    && AgreedPlan(h, d).accIndex < |tx.ins| && AgreedPlan(h, d).initIndex < |tx.ins|
    && var stack, own := tx.ins[AgreedPlan(h, d).accIndex].stack, tx.ins[AgreedPlan(h, d).initIndex].stack;
       (stack == [] || StackOk(h, d, log, stack)) && (own == [] || OwnStackOk(h, d, log, own))
  }

  // The agreed transaction with both witnesses.
  predicate BroadcastOk(h: Hashes, d: Deal, log: seq<LndEvent>, tx: Tx) {
    && GoodTx(h, d, log, tx)
    && StackOk(h, d, log, tx.ins[AgreedPlan(h, d).accIndex].stack)
    && OwnStackOk(h, d, log, tx.ins[AgreedPlan(h, d).initIndex].stack)
  }

  predicate GoodFunding(h: Hashes, d: Deal, log: seq<LndEvent>, m: Meta) {
    && (m.pendingId != [] ==> BothOwn(d) && m.pendingId == AgreedId(h, d))
    && (m.accStack != [] ==> StackOk(h, d, log, m.accStack) && m.pendingId == AgreedId(h, d))
    && (m.fundingId != [] ==> BothOwn(d) && m.fundingId == AgreedPlan(h, d).txid)
    && m.fundingVout == 0
    && (m.fundingId != [] <==> m.fundingTx.Some?)
    && (m.fundingTx.Some? ==> GoodTx(h, d, log, m.fundingTx.value))
  }

  // A document consistent with what the parties have put in and signed.
  predicate GoodDoc(h: Hashes, d: Deal, log: seq<LndEvent>, side: Role, m: Meta) {
    GoodParties(d, side, m) && GoodFunding(h, d, log, m)
  }

  predicate GoodMeta(h: Hashes, w: World, side: Role, m: Meta) {
    GoodDoc(h, DealOf(w), w.log, side, m)
  }

  predicate GoodRow(h: Hashes, w: World, side: Role, r: Row) {
    && r.cap == w.cap && r.fee == w.fee && r.peer == NodeOf(w, Other(side)).pub
    && GoodMeta(h, w, side, r.meta)
  }

  // What is recorded in any row a node ever stored is recorded in its present row.
  ghost predicate Remembers(hist: set<Row>, row: Option<Row>) {
    forall r, f :: r in hist && f != FChannelPoint && Records(r.meta, f) ==> row.Some? && Records(row.value.meta, f)
  }

  ghost predicate GoodNode(h: Hashes, w: World, side: Role) {
    var n := NodeOf(w, side);
    && (forall r :: r in n.hist ==> GoodRow(h, w, side, r))
    && (n.frame.Some? ==> GoodMeta(h, w, side, n.frame.value.meta))
    && Remembers(n.hist, n.row)
  }

  // ---- Messages and recoveries ---------------------------------------------------------

  predicate GoodMsg(h: Hashes, d: Deal, fee: int, log: seq<LndEvent>, to: Role, msg: Msg) {
    match msg
    case Proposal(cap, msgFee, mode, pendingId, pub, txid, vout, sat, script) =>
      && to == Accepter && cap == d.cap && msgFee == fee && mode == DualMode
      && d.initOwn.Some? && ValidArtifacts(d.initOwn.value)
      && pub == d.initOwn.value.key.pub
      && Transit(txid, vout, sat, script, NO_KEY) == WithoutKey(d.initOwn.value.transit)
      && (pendingId != [] ==> BothOwn(d) && pendingId == AgreedId(h, d))
    case Accept(mode, pendingId, pub, txid, vout, sat, script, stack) =>
      && to == Initiator && mode == DualMode
      && stack != [] && StackOk(h, d, log, stack) && pendingId == AgreedId(h, d)
      && pub == d.accOwn.value.key.pub
      && Transit(txid, vout, sat, script, NO_KEY) == WithoutKey(d.accOwn.value.transit)
    case Cancel => false
    case _ => true
  }

  predicate GoodPacket(h: Hashes, w: World, p: Packet) {
    GoodMsg(h, DealOf(w), w.fee, w.log, p.to, p.msg)
  }

  ghost predicate GoodTraffic(h: Hashes, w: World) {
    && (forall p :: p in w.net ==> GoodPacket(h, w, p))
    && (forall e :: e in w.log && e.PublishedFunding? ==> BroadcastOk(h, DealOf(w), w.log, e.tx))
  }

  // ---- Funding -----------------------------------------------------------------------

  predicate FundedBy(e: LndEvent, side: Role) {
    e.SentOutput? && e.side == side
  }

  predicate IsLockOf(e: LndEvent, own: Artifacts)
    requires e.SentOutput?
  {
    e.sat == own.transit.sat && e.script == own.transit.script && e.at == TransitPoint(own.transit)
  }

  // A node's LND locked coins at most once, in the output the node knows as its own.
  ghost predicate LockedOnce(log: seq<LndEvent>, side: Role, own: Option<Artifacts>) {
    && (forall i, j :: 0 <= i < |log| && 0 <= j < |log| && FundedBy(log[i], side) && FundedBy(log[j], side) ==> i == j)
    && (forall e :: e in log && FundedBy(e, side) ==> own.Some? && IsLockOf(e, own.value))
  }

  // What a node locked is in its row, or in an operator call that has yet to write it,
  // or the row is closed.
  predicate Accounted(side: Role, row: Option<Row>, frame: Option<Frame>) {
    && row.Some?
    && (Funded(side, row.value.meta) || IsTerminal(row.value.state) || (frame.Some? && frame.value.unsaved && Funded(side, frame.value.meta)))
    && (frame.Some? ==> Funded(side, frame.value.meta) || IsTerminal(frame.value.row.state))
  }

  predicate OwnOk(h: Hashes, cap: int, fee: int, own: Artifacts) {
    && ValidArtifacts(own) && TransitContribution(cap, EffectiveFeeRate(fee)) == Ok(own.transit.sat)
    && own.transit.script == PubkeyHashScript(h, own.transit.key.pub)
  }

  ghost predicate FundedOnce(h: Hashes, cap: int, fee: int, log: seq<LndEvent>, side: Role, n: Node) {
    && LockedOnce(log, side, n.own)
    && (n.own.Some? ==> OwnOk(h, cap, fee, n.own.value) && Accounted(side, n.row, n.frame))
  }

  ghost predicate Honest(h: Hashes, w: World) {
    && w.honest && Safe(h, w)
    && GoodNode(h, w, Initiator) && GoodNode(h, w, Accepter)
    && GoodTraffic(h, w)
    && FundedOnce(h, w.cap, w.fee, w.log, Initiator, w.initiator)
    && FundedOnce(h, w.cap, w.fee, w.log, Accepter, w.accepter)
  }

  // ---- Facts never retracted -------------------------------------------------------------

  ghost predicate Extends(w: World, x: World) {
    && x.honest == w.honest && x.cap == w.cap && x.fee == w.fee
    && NodeExtends(w.initiator, x.initiator) && NodeExtends(w.accepter, x.accepter)
    && (forall e :: e in w.log ==> e in x.log)
    && w.net <= x.net
  }

  ghost predicate NodeExtends(n: Node, k: Node) {
    && k.pub == n.pub && n.hist <= k.hist
    && (n.own.Some? ==> k.own == n.own)
  }

  ghost predicate DealExtends(d: Deal, e: Deal) {
    && e.cap == d.cap
    && (d.initOwn.Some? ==> e.initOwn == d.initOwn)
    && (d.accOwn.Some? ==> e.accOwn == d.accOwn)
  }

  lemma GoodDocLasts(h: Hashes, d: Deal, log: seq<LndEvent>, side: Role, e: Deal, log': seq<LndEvent>, m: Meta)
    requires DealExtends(d, e) && (forall v :: v in log ==> v in log') && GoodDoc(h, d, log, side, m)
    ensures GoodDoc(h, e, log', side, m)
  {
    if BothOwn(d) {
      assert e == d;
    }
  }

  lemma GoodMetaLasts(h: Hashes, w: World, x: World, side: Role, m: Meta)
    requires Extends(w, x) && GoodMeta(h, w, side, m)
    ensures GoodMeta(h, x, side, m)
  {
    GoodDocLasts(h, DealOf(w), w.log, side, DealOf(x), x.log, m);
  }

  lemma GoodPacketLasts(h: Hashes, w: World, x: World, p: Packet)
    requires Extends(w, x) && GoodPacket(h, w, p)
    ensures GoodPacket(h, x, p)
  {
    if BothOwn(DealOf(w)) {
      assert DealOf(x) == DealOf(w);
    }
  }

  // ---- Merging good documents --------------------------------------------------------------

  // A later document keeps what an earlier one records.
  ghost predicate KeepsRecords(m: Meta, n: Meta) {
    forall f :: f != FChannelPoint && Records(m, f) ==> Records(n, f)
  }

  // Writing a good document back, however old, keeps a good document good and erases nothing.
  lemma GoodMerge(h: Hashes, d: Deal, log: seq<LndEvent>, side: Role, m: Meta, writer: Meta)
    requires HashWidths(h)
    requires GoodDoc(h, d, log, side, m) && GoodDoc(h, d, log, side, writer)
    ensures GoodDoc(h, d, log, side, Merge(m, Encode(writer)))
    ensures KeepsRecords(m, Merge(m, Encode(writer)))
  {
    EncodeNeverErases(m, writer);
    GoodMergeParties(d, side, m, writer);
    GoodMergeFunding(h, d, log, m, writer);
  }

  lemma GoodMergeParties(d: Deal, side: Role, m: Meta, writer: Meta)
    requires GoodParties(d, side, m) && GoodParties(d, side, writer)
    ensures GoodParties(d, side, Merge(m, Encode(writer)))
    ensures KnowsKeysOf(m, writer)
  {
  }

  lemma GoodMergeFunding(h: Hashes, d: Deal, log: seq<LndEvent>, m: Meta, writer: Meta)
    requires HashWidths(h)
    requires GoodFunding(h, d, log, m) && GoodFunding(h, d, log, writer)
    ensures GoodFunding(h, d, log, Merge(m, Encode(writer)))
  {
  }

  // ---- What the invariant means ---------------------------------------------------------------

  // A good document that knows both parties yields the agreed plan.
  lemma GoodMetaPlans(h: Hashes, d: Deal, side: Role, m: Meta)
    requires GoodParties(d, side, m)
    requires IsPubkey(m.initKey.pub) && IsPubkey(m.accKey.pub)
    ensures BothOwn(d)
    ensures BuildDualFundingPlan(h, d.cap, m) == Ok(AgreedPlan(h, d))
    ensures PendingChanId(h, m.initKey.pub, m.accKey.pub) == Ok(AgreedId(h, d))
  {
    SameFundingSamePlan(h, d.cap, m, AgreedMeta(d));
  }

  // A good document from which a recovery can be planned yields the agreed recovery.
  lemma GoodMetaRecovers(h: Hashes, d: Deal, log: seq<LndEvent>, side: Role, m: Meta, rate: int)
    requires GoodParties(d, side, m) && GoodFunding(h, d, log, m)
    requires BuildOrphanPlan(d.cap, m, rate).Ok?
    ensures BothOwn(d) && AgreedRecovery(h, d, rate) == BuildOrphanPlan(d.cap, m, rate)
  {
    hide LocksToBoth, InInputOrder, MultisigScript, StackOk;
    GoodMetaPlans(h, d, side, m);
    DualPlanSpendsBothTransits(h, d.cap, AgreedMeta(d));
    hide BuildDualFundingPlan, AppearsSigned;
    assert OrphanFundingSat(d.cap, m) == d.cap;
  }

  // Whenever the initiator can execute, its plan is the one the accepter signed, and
  // the accepter's witness it holds was made for that transaction, at that index, with
  // the key of the output that index spends.
  lemma ExecutableMeansAgreed(h: Hashes, w: World, r: Row)
    requires Honest(h, w) && r in w.initiator.hist && HasPlan(h, r)
    ensures var d := DealOf(w);
            && BothOwn(d) && PlanOf(h, r) == AgreedPlan(h, d)
            && ExecuteMeta(h, r.meta).pendingId == AgreedId(h, d)
            && StackOk(h, d, w.log, r.meta.accStack)
            && TransitPoint(r.meta.initTransit) == TransitPoint(d.initOwn.value.transit)
            && TransitPoint(r.meta.accTransit) == TransitPoint(d.accOwn.value.transit)
  {
    assert GoodRow(h, w, Initiator, r);
    GoodMetaPlans(h, DealOf(w), Initiator, ExecuteMeta(h, r.meta));
  }
}
