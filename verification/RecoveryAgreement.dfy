// The recovery sub-protocol between two honest nodes: what each step of a recovery call
// writes, sends and publishes is agreed, whatever other steps came since the one before,
// as long as the call works at the rate the node has recorded.
module RecoveryAgreement {
  import opened Prelude
  import opened Bitcoin
  import opened Session
  import opened FundingPlan
  import opened Lnd
  import opened OpenWorld
  import opened OpenRates
  import opened OpenAgreement
  import Orphan = OrphanRecovery

  // ---- Signatures on record --------------------------------------------------------------

  // A node's LND signed the agreed recovery at this rate with that node's channel key.
  predicate SigOk(h: Hashes, d: Deal, log: seq<LndEvent>, signer: Role, rate: int, sig: Bytes) {
    && rate > 0 && BothOwn(d) && AgreedRecovery(h, d, rate).Ok?
    && var p := AgreedRecovery(h, d, rate).value;
       SignedRaw(signer, p.tx, OwnOf(d, signer).value.key.pub, p.script, p.fundingSat, sig) in log
  }

  // Every signature a document records was made at this rate.
  predicate SigsOk(h: Hashes, d: Deal, log: seq<LndEvent>, rate: int, m: Meta) {
    && (m.initSig != [] ==> SigOk(h, d, log, Initiator, rate, m.initSig))
    && (m.accSig != [] ==> SigOk(h, d, log, Accepter, rate, m.accSig))
  }

  // What an honest node says of a recovery: its own signature, and the rate it is for.
  predicate OrphanMsgOk(h: Hashes, d: Deal, log: seq<LndEvent>, to: Role, msg: Msg) {
    Orphan.IsOrphanMessage(msg) ==> SigOk(h, d, log, Other(to), msg.rate, msg.sig)
  }

  // A recovery accepted as a spend of this funding transaction: it spends output 0, that
  // output pays to the hash of the script in its witness, and CHECKMULTISIG accepts the
  // witness. It checks two signatures, one by each party's LND, each against the key that
  // made it, and both over this very transaction, this script and the value of the output.
  ghost predicate RecoveryAccepted(h: Hashes, log: seq<LndEvent>, funding: Tx, tx: Tx) {
    && |tx.ins| == 1 && tx.ins[0].prev == OutPoint(TxId(h, funding), 0)
    && |tx.ins[0].stack| == 4 && |funding.outs| == 1
    && funding.outs[0].script == [0x00, 0x20] + h.sha256(tx.ins[0].stack[3])
    && BothSignaturesFit(log, tx, tx.ins[0].stack[3], funding.outs[0].value)
  }

  ghost predicate BothSignaturesFit(log: seq<LndEvent>, tx: Tx, script: Bytes, sat: int)
    requires |tx.ins| == 1
  {
    var checks := MultisigChecks(tx.ins[0].stack);
    && checks.Some? && |checks.value| == 2
    && exists first: Role ::
         && SignedRaw(first, WithoutWitness(tx), checks.value[0].0, script, sat, checks.value[0].1) in log
         && SignedRaw(Other(first), WithoutWitness(tx), checks.value[1].0, script, sat, checks.value[1].1) in log
  }

  // Both parties have put in their artifacts, and this recovery is accepted as a spend of
  // the transaction they agree on. It pays each party's own script.
  ghost predicate RecoveryOk(h: Hashes, d: Deal, log: seq<LndEvent>, tx: Tx) {
    && BothOwn(d) && RecoveryAccepted(h, log, AgreedPlan(h, d).tx, tx)
    && |tx.outs| == 2
    && tx.outs[0].script == d.initOwn.value.transit.script && tx.outs[1].script == d.accOwn.value.transit.script
    && 0 <= tx.outs[0].value - tx.outs[1].value <= 1
    && 330 <= tx.outs[1].value && tx.outs[0].value + tx.outs[1].value < d.cap
  }

  predicate KnowsBothKeys(m: Meta) {
    IsPubkey(m.initKey.pub) && IsPubkey(m.accKey.pub)
  }

  predicate GoodPlan(h: Hashes, d: Deal, rate: int, plan: OrphanPlan, row: Row) {
    BothOwn(d) && AgreedRecovery(h, d, rate) == Ok(plan) && KnowsBothKeys(row.meta)
  }

  // What a recovery call carries is agreed at its rate: the signature it heard, the plan
  // it made, its own signature.
  predicate GoodCall(h: Hashes, d: Deal, log: seq<LndEvent>, side: Role, c: Orphan.Call) {
    match c.stage
    case Heard => c.msg.Some? && Orphan.IsOrphanMessage(c.msg.value) && SigOk(h, d, log, Other(side), c.rate, c.msg.value.sig)
    case Planned(plan) => GoodPlan(h, d, c.rate, plan, c.row)
    case Ready(plan, sig) => GoodPlan(h, d, c.rate, plan, c.row) && SigOk(h, d, log, side, c.rate, sig)
    case Saved(plan, half, sig) => GoodPlan(h, d, c.rate, plan, half) && SigOk(h, d, log, side, c.rate, sig)
    case Told(plan, half) => GoodPlan(h, d, c.rate, plan, half)
    case Published(plan, half) => true
    case Done(row) => true
  }

  // ---- What follows from a good document -----------------------------------------------------

  // A plan made from a good document is the agreed recovery at the call's rate.
  lemma PlanIsAgreed(h: Hashes, d: Deal, log: seq<LndEvent>, side: Role, row: Row, asked: int)
    requires GoodDoc(h, d, log, side, row.meta) && row.cap == d.cap && Orphan.PlanRecovery(row, asked).Ok?
    ensures BothOwn(d) && AgreedRecovery(h, d, Orphan.ChosenRate(asked, row.meta.orphanRate)) == Orphan.PlanRecovery(row, asked)
    ensures KnowsBothKeys(row.meta)
  {
    Orphan.PlanNeedsKeys(row, asked);
    hide BuildOrphanPlan, AgreedRecovery, StackOk, GoodTx;
    GoodMetaRecovers(h, d, log, side, row.meta, Orphan.ChosenRate(asked, row.meta.orphanRate));
  }

  lemma RecordedSigIsOk(h: Hashes, d: Deal, log: seq<LndEvent>, rate: int, m: Meta, signer: Role)
    requires SigsOk(h, d, log, rate, m) && Orphan.SigOf(m, signer) != []
    ensures rate > 0 && SigOk(h, d, log, signer, rate, Orphan.SigOf(m, signer))
  {
  }

  // The signature a call uses was made over the agreed recovery at the call's rate.
  lemma LocalSigIsOk(h: Hashes, d: Deal, log: seq<LndEvent>, side: Role, rate: int, c: Orphan.Call, raw: Bytes)
    requires GoodDoc(h, d, log, side, c.row.meta) && SigsOk(h, d, log, rate, c.row.meta) && c.row.role == side && c.rate > 0 && rate in {0, c.rate}
    requires c.stage.Planned? && GoodCall(h, d, log, side, c) && Orphan.May(c, Orphan.Sign(raw))
    ensures var all := log + Orphan.EventsOf(c, Orphan.Sign(raw));
            SigOk(h, d, all, side, c.rate, Orphan.LocalSig(c, raw))
  {
    var m := c.row.meta;
    var all := log + Orphan.EventsOf(c, Orphan.Sign(raw));
    assert LocalKey(side, m).pub == OwnOf(d, side).value.key.pub;
    hide AgreedRecovery, GoodDoc, Orphan.IsSig;
    if !Orphan.IsSig(Orphan.SigOf(m, side)) {
      assert Orphan.EventsOf(c, Orphan.Sign(raw))[0] in all;
    } else {
      IsSigIsThere(Orphan.SigOf(m, side));
      RecordedSigIsOk(h, d, log, rate, m, side);
    }
  }

  lemma IsSigIsThere(sig: Bytes)
    requires Orphan.IsSig(sig)
    ensures sig != []
  {
  }

  // A document written over another: its signatures replace those there.
  lemma MergingSigs(h: Hashes, d: Deal, log: seq<LndEvent>, rate: int, m: Meta, writer: Meta)
    requires SigsOk(h, d, log, rate, m) && SigsOk(h, d, log, rate, writer)
    ensures SigsOk(h, d, log, rate, Merge(m, Encode(writer)))
  {
    hide SigOk, EncodeKey, EncodeTransit;
  }

  // Signatures are only on record once a rate is, so they fit every rate that may follow.
  lemma SigsFit(h: Hashes, d: Deal, log: seq<LndEvent>, rate: int, m: Meta, later: int)
    requires SigsOk(h, d, log, rate, m) && rate in {0, later}
    ensures SigsOk(h, d, log, later, m)
  {
  }

  // The agreed recovery spends the agreed funding transaction.
  lemma AgreedRecoverySpendsFunding(h: Hashes, d: Deal, rate: int)
    requires BothOwn(d) && AgreedRecovery(h, d, rate).Ok? && rate > 0
    ensures var p, f := AgreedRecovery(h, d, rate).value, AgreedPlan(h, d).tx;
            && p.tx.ins == [TxIn(OutPoint(TxId(h, f), 0), [], [])]
            && f.outs == [TxOut(p.fundingSat, [0x00, 0x20] + h.sha256(p.script))]
            && |p.tx.outs| == 2
            && p.tx.outs[0].script == d.initOwn.value.transit.script && p.tx.outs[1].script == d.accOwn.value.transit.script
            && 0 <= p.tx.outs[0].value - p.tx.outs[1].value <= 1
            && 330 <= p.tx.outs[1].value && p.tx.outs[0].value + p.tx.outs[1].value < d.cap
  {
    var m := AgreedMeta(d).(fundingId := AgreedPlan(h, d).txid);
    DualPlanSpendsBothTransits(h, d.cap, AgreedMeta(d));
    OrphanPlanConservesMoney(d.cap, m, rate);
    hide MultisigScript;
  }

  // A good document with both signatures assembles a recovery that CHECKMULTISIG accepts.
  lemma AssembledRecoveryIsAccepted(h: Hashes, d: Deal, log: seq<LndEvent>, side: Role, m: Meta, rate: int, p: OrphanPlan)
    requires GoodDoc(h, d, log, side, m) && SigsOk(h, d, log, rate, m) && KnowsBothKeys(m) && Orphan.BothSigned(m)
    requires BothOwn(d) && AgreedRecovery(h, d, rate) == Ok(p)
    ensures |p.tx.ins| == 1 && RecoveryOk(h, d, log, Orphan.RecoveryTx(m, p))
  {
    hide GoodDoc, SigsOk, AgreedPlan, AgreedRecovery, BuildOrphanPlan, BuildDualFundingPlan, MultisigScript, MultisigChecks, OrphanWitness, WithoutWitness,
         TxId, Orphan.RecoveryTx, Orphan.IsSig, KnowsBothKeys;
    BothSignedHasRate(h, d, log, rate, m);
    AgreedRecoverySpendsFunding(h, d, rate);
    GoodDocHasOwnKeys(h, d, log, side, m, rate);
    SignaturesAreLogged(h, d, log, rate, m, p);
    AssembledWitness(m, p);
    var tx := Orphan.RecoveryTx(m, p);
    var checks := MultisigChecks(tx.ins[0].stack).value;
    var first := if checks[0] == (m.initKey.pub, m.initSig) then Initiator else Accepter;
    assert SignedRaw(first, WithoutWitness(tx), checks[0].0, p.script, p.fundingSat, checks[0].1) in log;
    assert SignedRaw(Other(first), WithoutWitness(tx), checks[1].0, p.script, p.fundingSat, checks[1].1) in log;
    assert BothSignaturesFit(log, tx, p.script, p.fundingSat);
  }

  lemma BothSignedHasRate(h: Hashes, d: Deal, log: seq<LndEvent>, rate: int, m: Meta)
    requires SigsOk(h, d, log, rate, m) && Orphan.BothSigned(m)
    ensures rate > 0
  {
    RecordedSigIsOk(h, d, log, rate, m, Initiator);
  }

  // The agreed recovery is made with the keys that a document on both parties has.
  lemma GoodDocHasOwnKeys(h: Hashes, d: Deal, log: seq<LndEvent>, side: Role, m: Meta, rate: int)
    requires GoodDoc(h, d, log, side, m) && KnowsBothKeys(m) && BothOwn(d) && AgreedRecovery(h, d, rate).Ok?
    ensures m.initKey.pub == d.initOwn.value.key.pub && m.accKey.pub == d.accOwn.value.key.pub
    ensures AgreedRecovery(h, d, rate).value.script == MultisigScript(m.initKey.pub, m.accKey.pub)
  {
    hide GoodFunding, AgreedPlan, MultisigScript;
  }

  lemma SignaturesAreLogged(h: Hashes, d: Deal, log: seq<LndEvent>, rate: int, m: Meta, p: OrphanPlan)
    requires SigsOk(h, d, log, rate, m) && Orphan.BothSigned(m) && BothOwn(d) && AgreedRecovery(h, d, rate) == Ok(p)
    requires m.initKey.pub == d.initOwn.value.key.pub && m.accKey.pub == d.accOwn.value.key.pub
    ensures SignedRaw(Initiator, p.tx, m.initKey.pub, p.script, p.fundingSat, m.initSig) in log
    ensures SignedRaw(Accepter, p.tx, m.accKey.pub, p.script, p.fundingSat, m.accSig) in log
  {
    hide AgreedRecovery;
    assert SigOk(h, d, log, Initiator, rate, m.initSig) && SigOk(h, d, log, Accepter, rate, m.accSig);
  }

  // The assembled recovery is the planned one, and its witness checks each signature
  // against its own key.
  lemma AssembledWitness(m: Meta, p: OrphanPlan)
    requires KnowsBothKeys(m) && p.script == MultisigScript(m.initKey.pub, m.accKey.pub)
    requires |p.tx.ins| == 1 && p.tx.ins[0] == TxIn(p.tx.ins[0].prev, [], [])
    ensures var tx := Orphan.RecoveryTx(m, p);
            var checks := MultisigChecks(tx.ins[0].stack);
            && |tx.ins| == 1 && tx.ins[0].prev == p.tx.ins[0].prev && tx.outs == p.tx.outs && WithoutWitness(tx) == p.tx
            && |tx.ins[0].stack| == 4 && tx.ins[0].stack[3] == p.script
            && checks.Some?
            && (checks.value == [(m.initKey.pub, m.initSig), (m.accKey.pub, m.accSig)] ||
                checks.value == [(m.accKey.pub, m.accSig), (m.initKey.pub, m.initSig)])
  {
    hide MultisigScript;
    var tx := Orphan.RecoveryTx(m, p);
    assert WithoutWitness(tx).ins == p.tx.ins;
    hide WithoutWitness, MultisigChecks;
    WitnessPairsSignaturesWithKeys(m.initKey.pub, m.accKey.pub, m.initSig, m.accSig);
  }

  // ---- The steps of a call ---------------------------------------------------------------

  // What is known of a call of an honest, steady node and of the rows it holds.
  ghost predicate CallInOrder(h: Hashes, d: Deal, log: seq<LndEvent>, side: Role, rate: int, c: Orphan.Call) {
    && GoodCall(h, d, log, side, c)
    && c.rate > 0 && rate in {0, c.rate} && (Unrecorded(c) || c.rate == rate)
    && forall r :: r in Orphan.RowsOf(c) ==> r.role == side && r.cap == d.cap && GoodDoc(h, d, log, side, r.meta) && SigsOk(h, d, log, rate, r.meta)
  }

  // The rate the node has recorded once a write of the call has gone through.
  function RateWritten(c: Orphan.Call, op: Orphan.Op, rate: int): int {
    if op.SaveHeard? || op.SaveSigned? then c.rate else rate
  }

  // What a call writes keeps every signature on record one for the recorded rate.
  lemma RecoveryKeepsSigs(h: Hashes, d: Deal, log: seq<LndEvent>, side: Role, rate: int, c: Orphan.Call, op: Orphan.Op, m: Meta)
    requires CallInOrder(h, d, log, side, rate, c) && Orphan.May(c, op) && Orphan.IsWrite(op) && SigsOk(h, d, log, rate, m)
    ensures SigsOk(h, d, log, RateWritten(c, op, rate), Merge(m, Orphan.PatchOf(h, c, op)))
  {
    var later := RateWritten(c, op, rate);
    assert c.row in Orphan.RowsOf(c) && (op.SaveDone? ==> c.stage.half in Orphan.RowsOf(c));
    SigsFit(h, d, log, rate, m, later);
    hide GoodDoc, SigOk, Encode, Merge, GoodPlan, Orphan.RecoveryTx;
    if op.SaveSwept? {
      assert Merge(m, NO_PATCH) == m by { MergingNothing(m); }
    } else {
      SigsFit(h, d, log, rate, if op.SaveDone? then c.stage.half.meta else c.row.meta, later);
      MergingSigs(h, d, log, later, m, Orphan.DocumentOf(h, c, op));
    }
  }

  lemma MergingNothing(m: Meta)
    ensures Merge(m, NO_PATCH) == m
  {
  }

  // A call that has its signature recorded knows both keys from the row that leaves.
  lemma KeysAreKept(h: Hashes, d: Deal, log: seq<LndEvent>, side: Role, c: Orphan.Call, op: Orphan.Op, m: Meta)
    requires GoodCall(h, d, log, side, c) && Orphan.May(c, op) && op.SaveSigned?
    ensures KnowsBothKeys(Merge(m, Orphan.PatchOf(h, c, op)))
  {
    hide SigOk, AgreedRecovery;
  }

  // ... and the call goes on with what is agreed.
  lemma WrittenCallIsGood(h: Hashes, d: Deal, log: seq<LndEvent>, side: Role, c: Orphan.Call, op: Orphan.Op, r: Row)
    requires Orphan.May(c, op) && Orphan.IsWrite(op) && GoodCall(h, d, log, side, c)
    requires GoodDoc(h, d, log, side, r.meta) && r.cap == d.cap && c.rate > 0
    requires op.SaveSigned? ==> KnowsBothKeys(r.meta)
    ensures Orphan.Written(c, op, r).Some? ==> GoodCall(h, d, log, side, Orphan.Written(c, op, r).value)
  {
    hide GoodDoc, SigOk, AgreedRecovery, KnowsBothKeys;
    if op.SaveHeard? && Orphan.PlanRecovery(r, c.rate).Ok? {
      PlanIsAgreed(h, d, log, side, r, c.rate);
    }
  }

  lemma StartedCallIsGood(h: Hashes, d: Deal, log: seq<LndEvent>, side: Role, row: Row, op: Orphan.Op)
    requires GoodDoc(h, d, log, side, row.meta) && row.cap == d.cap
    requires op.Ask? || (op.Hear? && Orphan.IsOrphanMessage(op.msg) && OrphanMsgOk(h, d, log, side, op.msg))
    requires op.Ask? ==> Orphan.PlanRecovery(row, op.asked).Ok?
    ensures GoodCall(h, d, log, side, if op.Ask? then Orphan.Asked(row, op.asked) else Orphan.Listening(row, op.msg))
  {
    if op.Ask? {
      PlanIsAgreed(h, d, log, side, row, op.asked);
    }
    hide AgreedRecovery, GoodDoc, Orphan.PlanRecovery;
  }

  lemma SigningIsGood(h: Hashes, d: Deal, log: seq<LndEvent>, side: Role, rate: int, c: Orphan.Call, raw: Bytes)
    requires CallInOrder(h, d, log, side, rate, c) && Orphan.May(c, Orphan.Sign(raw))
    ensures var op := Orphan.Sign(raw);
            && (forall e :: e in Orphan.EventsOf(c, op) ==> e.SignedRaw?)
            && GoodCall(h, d, log + Orphan.EventsOf(c, op), side, Orphan.Continued(c, op).value)
  {
    hide GoodDoc, AgreedRecovery, RecoveryOk, Orphan.IsSig;
    assert c.row in Orphan.RowsOf(c);
    LocalSigIsOk(h, d, log, side, rate, c, raw);
    hide SigOk;
  }

  // The recovery a call publishes is accepted.
  lemma PublishingIsGood(h: Hashes, d: Deal, log: seq<LndEvent>, side: Role, rate: int, c: Orphan.Call)
    requires CallInOrder(h, d, log, side, rate, c) && Orphan.May(c, Orphan.Publish)
    ensures RecoveryOk(h, d, log, Orphan.RecoveryTx(c.stage.half.meta, c.stage.plan))
  {
    hide GoodDoc, AgreedRecovery, RecoveryOk, SigOk, Orphan.IsSig, Orphan.RecoveryTx;
    assert c.stage.half in Orphan.RowsOf(c);
    AssembledRecoveryIsAccepted(h, d, log, side, c.stage.half.meta, rate, c.stage.plan);
  }

  lemma RecoveryLasts(h: Hashes, d: Deal, log: seq<LndEvent>, e: Deal, log': seq<LndEvent>, tx: Tx)
    requires DealExtends(d, e) && (forall v :: v in log ==> v in log') && RecoveryOk(h, d, log, tx)
    ensures RecoveryOk(h, e, log', tx)
  {
    hide MultisigChecks, WithoutWitness, AgreedPlan;
    assert e == d;
  }

  // What a call does to LND's history, and how it goes on, is agreed.
  lemma ContinuedCallIsGood(h: Hashes, d: Deal, log: seq<LndEvent>, side: Role, rate: int, c: Orphan.Call, op: Orphan.Op)
    requires CallInOrder(h, d, log, side, rate, c) && Orphan.May(c, op) && !Orphan.IsWrite(op)
    ensures var all := log + Orphan.EventsOf(c, op);
            && (forall e :: e in Orphan.EventsOf(c, op) ==> e.SignedRaw? || (e.PublishedRecovery? && RecoveryOk(h, d, all, e.tx)))
            && (Orphan.Continued(c, op).Some? ==> GoodCall(h, d, all, side, Orphan.Continued(c, op).value))
  {
    hide GoodDoc, AgreedRecovery, RecoveryOk, SigOk, GoodPlan, Orphan.IsSig, Orphan.RecoveryTx, Orphan.RowsOf;
    if op.Sign? {
      SigningIsGood(h, d, log, side, rate, c, op.raw);
      hide GoodCall;
    } else if op.Publish? {
      PublishingIsGood(h, d, log, side, rate, c);
      RecoveryLasts(h, d, log, d, log + Orphan.EventsOf(c, op), Orphan.RecoveryTx(c.stage.half.meta, c.stage.plan));
    } else {
      assert log + Orphan.EventsOf(c, op) == log;
    }
  }

  // A request carries the call's own signature and rate; an answer the recorded signature,
  // at the recorded rate.
  lemma SentByCallIsGood(h: Hashes, d: Deal, log: seq<LndEvent>, side: Role, rate: int, c: Orphan.Call, op: Orphan.Op)
    requires CallInOrder(h, d, log, side, rate, c) && Orphan.May(c, op) && !Orphan.IsWrite(op)
    ensures forall msg :: msg in Orphan.SentBy(c, op) ==> OrphanMsgOk(h, d, log, Other(side), msg)
  {
    hide GoodDoc, SigOk, SigsOk, GoodPlan, Orphan.IsSig;
    if op.Answer? {
      var m := Orphan.LastRow(c).meta;
      assert c.row in Orphan.RowsOf(c) && Orphan.LastRow(c) in Orphan.RowsOf(c);
      IsSigIsThere(Orphan.SigOf(m, side));
      RecordedSigIsOk(h, d, log, rate, m, side);
    }
  }
}
