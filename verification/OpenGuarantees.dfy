// What the protocol guarantees over every run of two honest nodes, whatever the
// network drops, duplicates or reorders and however the calls of a node interleave.
module OpenGuarantees {
  import opened Prelude
  import opened Bitcoin
  import opened Session
  import opened FundingPlan
  import opened Lnd
  import opened OpenWorld
  import opened OpenSafety
  import opened OpenRates
  import opened OpenAgreement
  import opened OpenRuns
  import opened RecoveryAgreement
  import RecoveryRuns

  ghost predicate HonestRun(h: Hashes, w: World, steps: seq<Step>) {
    HashWidths(h) && Starts(w) && w.honest && CanRun(h, w, steps)
  }

  lemma RunsAreHonest(h: Hashes, w: World, steps: seq<Step>)
    requires HonestRun(h, w, steps)
    ensures Honest(h, Run(h, w, steps)) && Extends(w, Run(h, w, steps))
  {
    hide Honest, Extends;
    StartIsHonest(h, w);
    RunKeepsHonest(h, w, steps);
  }

  // ---- Agreement --------------------------------------------------------------------

  // The accepter's LND signed this input of this transaction with the key whose hash
  // the spent output pays to.
  ghost predicate AccepterSigned(h: Hashes, log: seq<LndEvent>, tx: Tx, index: nat, sat: int, stack: seq<Bytes>) {
    exists key: Bytes :: Signed(Accepter, tx, index, key, [0x00, 0x14] + h.hash160(key), sat, stack) in log
  }

  // The same of the initiator's LND.
  ghost predicate InitiatorSigned(h: Hashes, log: seq<LndEvent>, tx: Tx, index: nat, sat: int, stack: seq<Bytes>) {
    exists key: Bytes :: Signed(Initiator, tx, index, key, [0x00, 0x14] + h.hash160(key), sat, stack) in log
  }

  // Whenever the initiator can execute: the accepter's witness it holds was made for
  // exactly its transaction, at the index where it will be placed; placing both
  // witnesses changes neither the transaction nor its id.
  lemma InitiatorPlansWhatAccepterSigned(h: Hashes, w: World, steps: seq<Step>, r: Row, stack: seq<Bytes>)
    requires HonestRun(h, w, steps)
    requires r in Run(h, w, steps).initiator.hist && HasPlan(h, r)
    ensures var p, tx := PlanOf(h, r), AssembledTx(h, r, stack);
            && AccepterSigned(h, Run(h, w, steps).log, p.tx, p.accIndex, r.meta.accTransit.sat, r.meta.accStack)
            && WithoutWitness(tx) == p.tx && TxId(h, tx) == p.txid
            && |tx.ins| == 2 && p.initIndex + p.accIndex == 1
            && tx.ins[p.accIndex] == TxIn(TransitPoint(r.meta.accTransit), [], r.meta.accStack)
            && tx.ins[p.initIndex] == TxIn(TransitPoint(r.meta.initTransit), [], stack)
  {
    hide Honest, Run, Starts, CanRun, StackOk;
    RunsAreHonest(h, w, steps);
    var x := Run(h, w, steps);
    ExecutableMeansAgreed(h, x, r);
    PartiesOf(h, x, r);
    StackIsAccepters(h, x, r.meta.accStack);
    hide AgreedPlan, AccepterSigned, BothOwn;
    WitnessesKeepTheTxid(h, r.cap, ExecuteMeta(h, r.meta), InputScript([], stack), r.meta.accStack);
  }

  // What an executable row says of the accepter's output is what the accepter locked.
  lemma PartiesOf(h: Hashes, x: World, r: Row)
    requires Honest(h, x) && r in x.initiator.hist && HasPlan(h, r)
    ensures x.accepter.own.Some? && r.meta.accTransit.sat == x.accepter.own.value.transit.sat
  {
    assert GoodRow(h, x, Initiator, r);
  }

  lemma StackIsAccepters(h: Hashes, x: World, stack: seq<Bytes>)
    requires Honest(h, x) && StackOk(h, DealOf(x), x.log, stack)
    ensures var p, t := AgreedPlan(h, DealOf(x)), x.accepter.own.value.transit;
            AccepterSigned(h, x.log, p.tx, p.accIndex, t.sat, stack)
  {
    assert FundedOnce(h, x.cap, x.fee, x.log, Accepter, x.accepter);
    hide Safe, GoodNode, GoodTraffic, LockedOnce, AgreedPlan;
  }

  lemma StackIsInitiators(h: Hashes, x: World, stack: seq<Bytes>)
    requires Honest(h, x) && OwnStackOk(h, DealOf(x), x.log, stack)
    ensures var p, t := AgreedPlan(h, DealOf(x)), x.initiator.own.value.transit;
            InitiatorSigned(h, x.log, p.tx, p.initIndex, t.sat, stack)
  {
    assert FundedOnce(h, x.cap, x.fee, x.log, Initiator, x.initiator);
    hide Safe, GoodNode, GoodTraffic, LockedOnce, AgreedPlan;
  }

  // ... and whatever the accepter has derived for itself, at any time, agrees with it.
  lemma BothDeriveOneTransaction(h: Hashes, w: World, steps: seq<Step>, r: Row, s: Row)
    requires HonestRun(h, w, steps)
    requires r in Run(h, w, steps).initiator.hist && HasPlan(h, r)
    requires s in Run(h, w, steps).accepter.hist
    ensures var p, m := PlanOf(h, r), s.meta;
            && (IsPubkey(m.initKey.pub) && IsPubkey(m.accKey.pub) ==> BuildDualFundingPlan(h, s.cap, m) == Ok(p))
            && (m.pendingId != [] ==> m.pendingId == ExecuteMeta(h, r.meta).pendingId)
            && (m.fundingId != [] ==> m.fundingId == p.txid && m.fundingVout == p.vout)
            && (m.fundingTx.Some? ==> WithoutWitness(m.fundingTx.value) == p.tx)
  {
    hide Run, Starts, CanRun;
    RunsAreHonest(h, w, steps);
    var x := Run(h, w, steps);
    ExecutableMeansAgreed(h, x, r);
    assert GoodRow(h, x, Accepter, s);
    AgreedPlanIsUnsigned(h, DealOf(x));
    hide Honest, HonestRun, StackOk, HasPlan;
    if IsPubkey(s.meta.initKey.pub) && IsPubkey(s.meta.accKey.pub) {
      GoodMetaPlans(h, DealOf(x), Accepter, s.meta);
    }
  }

  // ---- Money ------------------------------------------------------------------------

  // Each node locks coins at most once.
  lemma EachSideLocksOnce(h: Hashes, w: World, steps: seq<Step>, i: nat, j: nat)
    requires HonestRun(h, w, steps)
    requires var log := Run(h, w, steps).log;
             i < |log| && j < |log| && log[i].SentOutput? && log[j].SentOutput? && log[i].side == log[j].side
    ensures i == j
  {
    RunsAreHonest(h, w, steps);
    var x := Run(h, w, steps);
    assert LockedOnce(x.log, Initiator, x.initiator.own) && LockedOnce(x.log, Accepter, x.accepter.own);
    hide Honest, HonestRun;
    assert FundedBy(x.log[i], x.log[i].side) && FundedBy(x.log[j], x.log[i].side);
  }

  // What a node locks is its share of the funding, half the capacity and half the fee, in an
  // output to a key of its own.
  lemma EachSideLocksItsShare(h: Hashes, w: World, steps: seq<Step>, e: LndEvent)
    requires HonestRun(h, w, steps) && e in Run(h, w, steps).log && e.SentOutput?
    ensures var rate := if w.fee <= 0 then 1 else w.fee;
            e.sat == w.cap / 2 + 95 * rate <==> IsInt64(w.cap + 190 * rate)
    ensures var own := NodeOf(Run(h, w, steps), e.side).own;
            own.Some? && e.script == [0x00, 0x14] + h.hash160(own.value.transit.key.pub) && |own.value.transit.key.pub| == 33
  {
    hide Honest, Run, CanRun, HashWidths;
    RunsAreHonest(h, w, steps);
    var x := Run(h, w, steps);
    ContributionsOf(h, w, x);
    hide Starts, Extends;
    LocksAreOwn(h, x, e);
    OwnOutput(h, x, e.side);
    TransitContributionsCoverCapacityAndFee(w.cap, EffectiveFeeRate(w.fee));
  }

  lemma OwnOutput(h: Hashes, x: World, side: Role)
    requires Honest(h, x) && NodeOf(x, side).own.Some?
    ensures OwnOk(h, x.cap, x.fee, NodeOf(x, side).own.value)
  {
    hide Safe, GoodNode, GoodTraffic, LockedOnce, Accounted, OwnOk;
  }

  // Coins are never lost track of: once no operator call is running, what a node locked
  // is in its row with the keys to spend it, unless the session was closed meanwhile.
  lemma LockedCoinsAreOnRecord(h: Hashes, w: World, steps: seq<Step>, side: Role, e: LndEvent)
    requires HonestRun(h, w, steps) && e in Run(h, w, steps).log && e.SentOutput? && e.side == side
    requires NodeOf(Run(h, w, steps), side).frame.None?
    ensures var row := NodeOf(Run(h, w, steps), side).row;
            row.Some? && (IsTerminal(row.value.state) || Holds(side, row.value.meta, e))
  {
    hide Honest, Run, Starts, CanRun;
    RunsAreHonest(h, w, steps);
    LocksAreHeld(h, Run(h, w, steps), side, e);
  }

  // A document records the output a node locked, and the key that spends it.
  predicate Holds(side: Role, m: Meta, e: LndEvent)
    requires e.SentOutput?
  {
    var t := LocalTransit(side, m);
    IsPubkey(t.key.pub) && TransitPoint(t) == e.at && t.sat == e.sat && t.script == e.script
  }

  lemma LocksAreHeld(h: Hashes, x: World, side: Role, e: LndEvent)
    requires Honest(h, x) && e in x.log && e.SentOutput? && e.side == side && NodeOf(x, side).frame.None?
    ensures var row := NodeOf(x, side).row;
            row.Some? && (IsTerminal(row.value.state) || Holds(side, row.value.meta, e))
  {
    LocksAreOwn(h, x, e);
    var n := NodeOf(x, side);
    assert Accounted(side, n.row, n.frame);
    assert GoodRow(h, x, side, n.row.value);
    hide Honest, GoodFunding;
  }

  // A funding transaction of this deal: it spends both transit outputs and pays the
  // capacity to a 2-of-2 over one key of each party.
  ghost predicate FundsDeal(h: Hashes, d: Deal, tx: Tx)
    requires BothOwn(d)
  {
    var i, a := d.initOwn.value, d.accOwn.value;
    && |tx.ins| == 2 && {tx.ins[0].prev, tx.ins[1].prev} == {TransitPoint(i.transit), TransitPoint(a.transit)}
    && |tx.outs| == 1 && tx.outs[0].value == d.cap
    && LocksToBoth(h, tx.outs[0].script, i.key.pub, a.key.pub)
  }

  lemma AgreedPlanFundsDeal(h: Hashes, d: Deal)
    requires BothOwn(d)
    ensures FundsDeal(h, d, AgreedPlan(h, d).tx)
  {
    DualPlanSpendsBothTransits(h, d.cap, AgreedMeta(d));
    hide LocksToBoth, BuildDualFundingPlan, InInputOrder;
  }

  // Whatever the nodes lock, and whatever funding transaction is ever broadcast: it
  // spends the two locked outputs, each at its own side's index; it pays the capacity
  // to a 2-of-2 over one key of each party, in ascending order; its fee is 190 sat per unit of fee rate exactly when capacity and fee together fit
  // an int64, and then each side has paid half the capacity and half the fee; and it
  // carries, on each input, a signature by the party that locked the output it spends.
  lemma BroadcastsSpendWhatWasLocked(h: Hashes, w: World, steps: seq<Step>, i: LndEvent, a: LndEvent, e: LndEvent)
    requires HonestRun(h, w, steps)
    requires var log := Run(h, w, steps).log; i in log && a in log && e in log
    requires i.SentOutput? && i.side == Initiator && a.SentOutput? && a.side == Accepter && e.PublishedFunding?
    ensures var rate := if w.fee <= 0 then 1 else w.fee;
            var fee, d := 190 * rate, DealOf(Run(h, w, steps));
            && BothOwn(d) && FundsDeal(h, d, e.tx)
            && |e.tx.ins| == 2 && {e.tx.ins[0].prev, e.tx.ins[1].prev} == {i.at, a.at}
            && |e.tx.outs| == 1 && e.tx.outs[0].value == w.cap
            && i.sat == a.sat
            && (i.sat + a.sat - e.tx.outs[0].value == fee <==> IsInt64(w.cap + fee))
            && (i.sat == w.cap / 2 + 95 * rate <==> IsInt64(w.cap + fee))
            && exists k :: 0 <= k < 2 && e.tx.ins[k].prev == a.at && e.tx.ins[1 - k].prev == i.at
                           && AccepterSigned(h, Run(h, w, steps).log, WithoutWitness(e.tx), k, a.sat, e.tx.ins[k].stack)
                           && InitiatorSigned(h, Run(h, w, steps).log, WithoutWitness(e.tx), 1 - k, i.sat, e.tx.ins[1 - k].stack)
  {
    hide Honest, Run, CanRun, AccepterSigned, InitiatorSigned, HashWidths, FundsDeal;
    RunsAreHonest(h, w, steps);
    var x := Run(h, w, steps);
    ContributionsOf(h, w, x);
    hide Starts, Extends;
    LocksAreOwn(h, x, i);
    LocksAreOwn(h, x, a);
    BroadcastSpendsLocks(h, x, i, a, e);
    TransitContributionsCoverCapacityAndFee(w.cap, EffectiveFeeRate(w.fee));
  }

  lemma BroadcastSpendsLocks(h: Hashes, x: World, i: LndEvent, a: LndEvent, e: LndEvent)
    requires Honest(h, x) && i in x.log && a in x.log && e in x.log
    requires i.SentOutput? && i.side == Initiator && a.SentOutput? && a.side == Accepter && e.PublishedFunding?
    ensures BothOwn(DealOf(x)) && FundsDeal(h, DealOf(x), e.tx)
    ensures |e.tx.ins| == 2 && {e.tx.ins[0].prev, e.tx.ins[1].prev} == {i.at, a.at}
    ensures |e.tx.outs| == 1 && e.tx.outs[0].value == x.cap
    ensures exists k :: 0 <= k < 2 && e.tx.ins[k].prev == a.at && e.tx.ins[1 - k].prev == i.at
                        && AccepterSigned(h, x.log, WithoutWitness(e.tx), k, a.sat, e.tx.ins[k].stack)
                        && InitiatorSigned(h, x.log, WithoutWitness(e.tx), 1 - k, i.sat, e.tx.ins[1 - k].stack)
  {
    LocksAreOwn(h, x, i);
    LocksAreOwn(h, x, a);
    assert BroadcastOk(h, DealOf(x), x.log, e.tx);
    hide Honest, StackOk, OwnStackOk, AccepterSigned, InitiatorSigned, LocksToBoth, InInputOrder, BuildDualFundingPlan;
    var d := DealOf(x);
    var p := AgreedPlan(h, d);
    DualPlanSpendsBothTransits(h, d.cap, AgreedMeta(d));
    AgreedPlanFundsDeal(h, d);
    StackIsAccepters(h, x, e.tx.ins[p.accIndex].stack);
    StackIsInitiators(h, x, e.tx.ins[p.initIndex].stack);
    assert e.tx.ins[0].prev == p.tx.ins[0].prev && e.tx.ins[1].prev == p.tx.ins[1].prev;
  }

  lemma LocksAreOwn(h: Hashes, x: World, e: LndEvent)
    requires Honest(h, x) && e in x.log && e.SentOutput?
    ensures var own := OwnOf(DealOf(x), e.side);
            own.Some? && IsLockOf(e, own.value) && TransitContribution(x.cap, EffectiveFeeRate(x.fee)) == Ok(e.sat)
  {
    assert FundedOnce(h, x.cap, x.fee, x.log, e.side, NodeOf(x, e.side));
    hide Safe, GoodNode, GoodTraffic;
    assert FundedBy(e, e.side);
  }

  // The terms of the session are those it started with, and can be met.
  lemma ContributionsOf(h: Hashes, w: World, x: World)
    requires Starts(w) && Extends(w, x)
    ensures x.cap == w.cap && x.fee == w.fee && IsValidCapacity(w.cap) && IsInt64(w.cap)
    ensures EffectiveFeeRate(w.fee) > 0 && IsInt64(EffectiveFeeRate(w.fee))
  {
  }

  // ---- Metadata ---------------------------------------------------------------------

  // What any row of a node ever recorded, its present row records. The one field a
  // node may blank is the channel point LND reported.
  lemma NothingRecordedIsErased(h: Hashes, w: World, steps: seq<Step>, side: Role, r: Row, f: Field)
    requires HonestRun(h, w, steps) && f != FChannelPoint
    requires r in NodeOf(Run(h, w, steps), side).hist && Records(r.meta, f)
    ensures var row := NodeOf(Run(h, w, steps), side).row; row.Some? && Records(row.value.meta, f)
  {
    hide Honest, Run, Starts, CanRun, NodeOf;
    RunsAreHonest(h, w, steps);
    RecordsAreRemembered(h, Run(h, w, steps), side, r, f);
  }

  // A stored funding transaction and the stored funding id always belong together.
  lemma FundingIdMatchesTransaction(h: Hashes, w: World, steps: seq<Step>, side: Role, r: Row)
    requires HonestRun(h, w, steps) && r in NodeOf(Run(h, w, steps), side).hist
    ensures r.meta.fundingTx.Some? <==> r.meta.fundingId != []
    ensures r.meta.fundingTx.Some? ==> TxId(h, r.meta.fundingTx.value) == r.meta.fundingId
  {
    hide Honest, Run, Starts, CanRun, NodeOf;
    RunsAreHonest(h, w, steps);
    FundingIdMatches(h, Run(h, w, steps), side, r);
  }

  lemma FundingIdMatches(h: Hashes, x: World, side: Role, r: Row)
    requires Honest(h, x) && r in NodeOf(x, side).hist
    ensures r.meta.fundingTx.Some? <==> r.meta.fundingId != []
    ensures r.meta.fundingTx.Some? ==> TxId(h, r.meta.fundingTx.value) == r.meta.fundingId
  {
    assert GoodRow(h, x, side, r);
    hide Honest, StackOk, OwnStackOk, AgreedPlan, WithoutWitness;
    if r.meta.fundingTx.Some? {
      AgreedTxid(h, DealOf(x));
    }
  }

  lemma AgreedTxid(h: Hashes, d: Deal)
    requires BothOwn(d)
    ensures AgreedPlan(h, d).txid == h.txHash(AgreedPlan(h, d).tx)
  {
    DualPlanSpendsBothTransits(h, d.cap, AgreedMeta(d));
  }

  // ---- Recovery ---------------------------------------------------------------------

  // Every recovery published in a run in which no recovery call starts at another rate than
  // an unfinished one of its node is accepted: it spends output 0 of the one transaction that
  // funds the deal, under the script that output pays to the hash of, and its two signatures,
  // one by each party, are over exactly this transaction and the output's value and stand in
  // the order of the keys they match. If a funding transaction was broadcast, it is the one.
  lemma PublishedRecoveriesAreAccepted(h: Hashes, w: World, steps: seq<Step>, e: LndEvent)
    requires HonestRun(h, w, steps) && CalmRun(h, w, steps) && e in Run(h, w, steps).log && e.PublishedRecovery?
    ensures var x := Run(h, w, steps);
            && RecoveryOk(h, DealOf(x), x.log, e.tx) && FundsDeal(h, DealOf(x), AgreedPlan(h, DealOf(x)).tx)
            && forall b :: b in x.log && b.PublishedFunding? ==> RecoveryAccepted(h, x.log, b.tx, e.tx)
  {
    hide Honest, Starts, CanRun, Run, CalmRun, RecoveryAccepted, FundsDeal, AgreedPlan, RecoveryRuns.NodeSigned;
    StartIsHonest(h, w);
    RecoveryRuns.StartIsSigned(h, w);
    RecoveryRuns.RunKeepsSigned(h, w, steps);
    RunKeepsHonest(h, w, steps);
    var x := Run(h, w, steps);
    AgreedPlanFundsDeal(h, DealOf(x));
    forall b | b in x.log && b.PublishedFunding?
      ensures RecoveryAccepted(h, x.log, b.tx, e.tx)
    {
      BroadcastIsAgreed(h, x, b);
      SameTransactionAccepts(h, x.log, AgreedPlan(h, DealOf(x)).tx, b.tx, e.tx);
    }
  }

  lemma BroadcastIsAgreed(h: Hashes, x: World, b: LndEvent)
    requires Honest(h, x) && b in x.log && b.PublishedFunding?
    ensures BothOwn(DealOf(x)) && WithoutWitness(b.tx) == AgreedPlan(h, DealOf(x)).tx
  {
    assert BroadcastOk(h, DealOf(x), x.log, b.tx);
    hide Honest, StackOk, OwnStackOk, AgreedPlan;
  }

  // Witnesses do not matter to who spends a transaction.
  lemma SameTransactionAccepts(h: Hashes, log: seq<LndEvent>, f: Tx, b: Tx, tx: Tx)
    requires WithoutWitness(b) == f && RecoveryAccepted(h, log, f, tx)
    ensures RecoveryAccepted(h, log, b, tx)
  {
    hide BothSignaturesFit;
    assert WithoutWitness(f).ins == f.ins;
  }
}
