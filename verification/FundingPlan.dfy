// The transactions both parties derive on their own: the transit contribution,
// the dual-funded channel transaction, its pending channel id, and the recovery
// of an orphaned funding output.
module FundingPlan {
  import opened Prelude
  import opened Bitcoin
  import opened Session

  const FUNDING_VBYTES := 190
  const ORPHAN_RECOVERY_VBYTES := 180
  const RECOVERY_MIN_OUTPUT := 330

  // ---- Money ----------------------------------------------------------------

  function EffectiveFeeRate(fee: int): int {
    if fee <= 0 then 1 else fee
  }

  // balancedTransitContribution, in int64
  function TransitContribution(cap: int, fee: int): Result<int, Error> {
    if !IsValidCapacity(cap) then Err(InvalidCapacity)
    else if fee <= 0 then Err(InvalidFeeRate)
    else Ok(HalfTruncated(Wrap64(cap + Wrap64(FUNDING_VBYTES * fee))))
  }

  // Both sides contribute the same amount, so together they bring the channel
  // capacity plus 190 sat per unit of fee rate, exactly when that sum fits an
  // int64; the funding transaction then pays exactly 190 * fee and each side pays
  // its half of the capacity plus 95 * fee.
  lemma TransitContributionsCoverCapacityAndFee(cap: int, fee: int)
    requires IsValidCapacity(cap) && IsInt64(cap) && fee > 0 && IsInt64(fee)
    ensures TransitContribution(cap, fee).Ok?
    ensures var t := TransitContribution(cap, fee).value;
            (t + t == cap + 190 * fee <==> IsInt64(cap + 190 * fee)) &&
            (t == cap / 2 + 95 * fee <==> IsInt64(cap + 190 * fee))
  {
    hide Wrap64, HalfTruncated;
    var sum := cap + FUNDING_VBYTES * fee;
    WrapsCompose(cap, FUNDING_VBYTES * fee);
    WrapKeepsParity(sum);
    assert sum % 2 == 0 by {
      assert sum == 2 * (cap / 2 + 95 * fee);
    }
    HalvesAddUp(Wrap64(sum));
  }

  lemma HalvesAddUp(x: int)
    requires x % 2 == 0
    ensures HalfTruncated(x) + HalfTruncated(x) == x
  {
  }

  lemma WrapsCompose(x: int, y: int)
    ensures Wrap64(x + Wrap64(y)) == Wrap64(x + y)
  {
    var q := (y + TWO_63) / TWO_64;
    assert Wrap64(y) == y - q * TWO_64;
    WrapIgnoresMultiples(x + y, -q);
  }

  lemma WrapIgnoresMultiples(x: int, q: int)
    ensures Wrap64(x + q * TWO_64) == Wrap64(x)
  {
    var d := (x + TWO_63) / TWO_64;
    var m := (x + TWO_63) % TWO_64;
    assert x + q * TWO_64 + TWO_63 == (d + q) * TWO_64 + m;
    RemainderIsUnique(x + q * TWO_64 + TWO_63, d + q, m);
  }

  lemma RemainderIsUnique(x: int, q: int, m: int)
    requires x == q * TWO_64 + m && 0 <= m < TWO_64
    ensures x % TWO_64 == m
  {
  }

  lemma WrapKeepsParity(x: int)
    ensures Wrap64(x) % 2 == x % 2
  {
    var q := (x + TWO_63) / TWO_64;
    assert Wrap64(x) == x - q * TWO_64;
    assert Wrap64(x) == x - 2 * (q * TWO_63);
  }

  // ---- The dual-funded transaction ------------------------------------------

  // balancedTxidSortKey: the byte order txids have inside a transaction.
  function SortKey(txid: Bytes): Bytes {
    Reversed(txid)
  }

  // The order the inputs are sorted by.
  predicate Before(a: OutPoint, b: OutPoint) {
    Less(SortKey(a.txid), SortKey(b.txid)) || (SortKey(a.txid) == SortKey(b.txid) && a.vout < b.vout)
  }

  lemma BeforeIsAStrictTotalOrder(a: OutPoint, b: OutPoint)
    ensures a == b || Before(a, b) || Before(b, a)
    ensures Before(a, b) ==> !Before(b, a) && a != b
  {
    LessIsTotal(SortKey(a.txid), SortKey(b.txid));
    LessIsAsymmetric(SortKey(a.txid), SortKey(b.txid));
    LessIsAsymmetric(SortKey(b.txid), SortKey(a.txid));
    if SortKey(a.txid) == SortKey(b.txid) {
      ReversedIsInjective(a.txid, b.txid);
    }
  }

  // The order in terms of txids as they are displayed: the last byte in which they
  // differ decides, and after it the output index.
  ghost predicate InInputOrder(a: OutPoint, b: OutPoint) {
    || (a.txid == b.txid && a.vout <= b.vout)
    || (|a.txid| == |b.txid| && exists k :: 0 <= k < |a.txid| && a.txid[k] < b.txid[k] && a.txid[k + 1..] == b.txid[k + 1..])
  }

  lemma BeforeIsInputOrder(a: OutPoint, b: OutPoint)
    requires IsTxid(a.txid) && IsTxid(b.txid) && Before(a, b)
    ensures InInputOrder(a, b)
  {
    var x, y := SortKey(a.txid), SortKey(b.txid);
    LessIsLexicographic(x, y);
    if Less(x, y) {
      var k :| 0 <= k <= |x| && k < |y| && x[..k] == y[..k] && (k == |x| || x[k] < y[k]);
      var i := 31 - k;
      assert a.txid[i] == x[k] && b.txid[i] == y[k];
      forall j | i + 1 <= j < 32
        ensures a.txid[j] == b.txid[j]
      {
        assert x[..k][31 - j] == y[..k][31 - j];
      }
    } else {
      ReversedIsInjective(a.txid, b.txid);
    }
  }

  datatype FundingInput = FundingInput(side: Role, prev: OutPoint)

  // sort.SliceStable on two inputs
  function SortInputs(x: FundingInput, y: FundingInput): seq<FundingInput> {
    if Before(y.prev, x.prev) then [y, x] else [x, y]
  }

  function UnsignedInput(prev: OutPoint): TxIn {
    TxIn(prev, [], [])
  }

  datatype DualPlan = DualPlan(tx: Tx, txid: Bytes, vout: nat, initIndex: nat, accIndex: nat)

  // buildBalancedDualFundingPlan
  function BuildDualFundingPlan(h: Hashes, cap: int, m: Meta): Result<DualPlan, Error> {
    if !IsPubkey(m.initKey.pub) || !IsPubkey(m.accKey.pub) then Err(MissingArtifacts)
    else if !IsTxid(m.initTransit.txid) || !IsTxid(m.accTransit.txid) then Err(MissingArtifacts)
    else
      var inputs := SortInputs(
        FundingInput(Initiator, TransitPoint(m.initTransit)),
        FundingInput(Accepter, TransitPoint(m.accTransit)));
      var script := WitnessScriptHash(h, MultisigScript(m.initKey.pub, m.accKey.pub));
      var tx := Tx([UnsignedInput(inputs[0].prev), UnsignedInput(inputs[1].prev)], [TxOut(cap, script)]);
      var initIndex := if inputs[0].side == Initiator then 0 else 1;
      var accIndex := if inputs[0].side == Accepter then 0 else 1;
      Ok(DualPlan(tx, TxId(h, tx), 0, initIndex, accIndex))
  }

  // balancedPendingChanIDHexFromMultisig
  function PendingChanId(h: Hashes, a: Bytes, b: Bytes): Result<Bytes, Error> {
    if !IsPubkey(a) || !IsPubkey(b) then Err(MissingArtifacts)
    else Ok(h.sha256(MultisigScript(a, b)))
  }

  // The pending channel id is the hash of a 2-of-2 script over both keys.
  lemma PendingIdNamesBothKeys(h: Hashes, a: Bytes, b: Bytes)
    ensures PendingChanId(h, a, b).Ok? <==> |a| == 33 && |b| == 33
    ensures PendingChanId(h, a, b).Ok? ==> exists s: Bytes :: PendingChanId(h, a, b).value == h.sha256(s) && IsMultisigOver(s, a, b)
  {
    if PendingChanId(h, a, b).Ok? {
      MultisigScriptNamesBothKeys(a, b);
    }
  }

  // The plan spends each side's transit output at that side's index, in sorted
  // order, pays the capacity to a 2-of-2 over the two recorded keys, and carries no
  // signatures.
  lemma DualPlanSpendsBothTransits(h: Hashes, cap: int, m: Meta)
    requires BuildDualFundingPlan(h, cap, m).Ok?
    ensures var p := BuildDualFundingPlan(h, cap, m).value;
            && p.initIndex + p.accIndex == 1
            && |p.tx.ins| == 2
            && p.tx.ins[p.initIndex] == UnsignedInput(TransitPoint(m.initTransit))
            && p.tx.ins[p.accIndex] == UnsignedInput(TransitPoint(m.accTransit))
            && InInputOrder(p.tx.ins[0].prev, p.tx.ins[1].prev)
            && |p.tx.outs| == 1 && p.vout == 0 && p.tx.outs[0].value == cap
            && LocksToBoth(h, p.tx.outs[0].script, m.initKey.pub, m.accKey.pub)
            && WithoutWitness(p.tx) == p.tx && p.txid == TxId(h, p.tx)
            && !AppearsSigned(p.tx)
  {
    var i, a := TransitPoint(m.initTransit), TransitPoint(m.accTransit);
    BeforeIsAStrictTotalOrder(i, a);
    if Before(a, i) {
      BeforeIsInputOrder(a, i);
    } else if Before(i, a) {
      BeforeIsInputOrder(i, a);
    }
    MultisigScriptNamesBothKeys(m.initKey.pub, m.accKey.pub);
    hide Before, InInputOrder, IsMultisigOver, MultisigScript;
    var p := BuildDualFundingPlan(h, cap, m).value;
    assert WithoutWitness(p.tx).ins == p.tx.ins;
    assert p.tx.ins[0].stack == [] && p.tx.ins[0].sigScript == [];
  }

  // Only the keys, the outpoints and the capacity matter, so two parties that
  // agree on those build the same plan.
  predicate SameFunding(m: Meta, n: Meta) {
    && m.initKey.pub == n.initKey.pub
    && m.accKey.pub == n.accKey.pub
    && TransitPoint(m.initTransit) == TransitPoint(n.initTransit)
    && TransitPoint(m.accTransit) == TransitPoint(n.accTransit)
  }

  function Swapped(m: Meta): Meta {
    m.(initKey := m.accKey, accKey := m.initKey, initTransit := m.accTransit, accTransit := m.initTransit)
  }

  // Which side calls itself initiator does not matter: the transaction, its id
  // and the pending channel id are the same, with the two indexes exchanged.
  lemma RolesAreSymmetric(h: Hashes, cap: int, m: Meta)
    requires TransitPoint(m.initTransit) != TransitPoint(m.accTransit)
    ensures PendingChanId(h, m.initKey.pub, m.accKey.pub) == PendingChanId(h, m.accKey.pub, m.initKey.pub)
    ensures BuildDualFundingPlan(h, cap, m).Ok? <==> BuildDualFundingPlan(h, cap, Swapped(m)).Ok?
    ensures BuildDualFundingPlan(h, cap, m).Ok? ==>
              var p, q := BuildDualFundingPlan(h, cap, m).value, BuildDualFundingPlan(h, cap, Swapped(m)).value;
              q == p.(initIndex := p.accIndex, accIndex := p.initIndex)
  {
    MultisigScriptIgnoresKeyOrder(m.initKey.pub, m.accKey.pub);
    BeforeIsAStrictTotalOrder(TransitPoint(m.initTransit), TransitPoint(m.accTransit));
    BeforeIsAStrictTotalOrder(TransitPoint(m.accTransit), TransitPoint(m.initTransit));
  }

  // With one and the same outpoint on both sides the sort is stable and keeps the
  // initiator first, so the indexes do not move.
  lemma EqualOutpointsKeepTheirIndexes(h: Hashes, cap: int, m: Meta)
    requires TransitPoint(m.initTransit) == TransitPoint(m.accTransit)
    requires BuildDualFundingPlan(h, cap, m).Ok?
    ensures var p, q := BuildDualFundingPlan(h, cap, m).value, BuildDualFundingPlan(h, cap, Swapped(m)).value;
            q.initIndex == p.initIndex && q.accIndex == p.accIndex
  {
    BeforeIsAStrictTotalOrder(TransitPoint(m.initTransit), TransitPoint(m.accTransit));
  }

  datatype InputScript = InputScript(sigScript: Bytes, stack: seq<Bytes>)

  // The transaction executeSessionDual publishes: the plan with the local input
  // script and the accepter's witness filled in.
  function FinalTx(p: DualPlan, local: InputScript, remote: seq<Bytes>): Tx
    requires |p.tx.ins| == 2 && p.initIndex + p.accIndex == 1
  {
    var signed := p.tx.ins[p.initIndex].(stack := local.stack, sigScript := local.sigScript);
    var ins := p.tx.ins[p.initIndex := signed];
    p.tx.(ins := ins[p.accIndex := ins[p.accIndex].(stack := remote)])
  }

  // Adding both witnesses leaves the txid alone (a P2WPKH input has an empty
  // sigScript), each witness sits on its own side's input, and the result appears
  // signed exactly when both witnesses are there.
  lemma WitnessesKeepTheTxid(h: Hashes, cap: int, m: Meta, local: InputScript, remote: seq<Bytes>)
    requires BuildDualFundingPlan(h, cap, m).Ok? && local.sigScript == []
    ensures var p := BuildDualFundingPlan(h, cap, m).value;
            && |p.tx.ins| == 2 && p.initIndex + p.accIndex == 1
            && var t := FinalTx(p, local, remote);
               && WithoutWitness(t) == p.tx
               && TxId(h, t) == p.txid
               && t.ins[p.initIndex] == TxIn(TransitPoint(m.initTransit), [], local.stack)
               && t.ins[p.accIndex] == TxIn(TransitPoint(m.accTransit), [], remote)
               && (AppearsSigned(t) <==> local.stack != [] && remote != [])
  {
    DualPlanSpendsBothTransits(h, cap, m);
    var p := BuildDualFundingPlan(h, cap, m).value;
    var t := FinalTx(p, local, remote);
    assert WithoutWitness(t).ins == p.tx.ins;
    assert AppearsSigned(t) ==> (t.ins[p.initIndex].stack != [] && t.ins[p.accIndex].stack != []);
  }

  // ---- Recovery of an orphaned funding output --------------------------------

  datatype OrphanPlan = OrphanPlan(tx: Tx, script: Bytes, fundingSat: int, initSat: int, accSat: int)

  // The value of the funding output: read from the stored transaction when it has
  // that output, otherwise the session capacity.
  function OrphanFundingSat(cap: int, m: Meta): int {
    if m.fundingTx.Some? && m.fundingVout < |m.fundingTx.value.outs|
    then m.fundingTx.value.outs[m.fundingVout].value
    else cap
  }

  function OrphanFee(rate: int): int {
    var fee := Wrap64((if rate <= 0 then 1 else rate) * ORPHAN_RECOVERY_VBYTES);
    if fee <= 0 then 1 else fee
  }

  function OrphanTx(fundingPoint: OutPoint, initSat: int, initScript: Bytes, accSat: int, accScript: Bytes): Tx {
    Tx([UnsignedInput(fundingPoint)], [TxOut(initSat, initScript), TxOut(accSat, accScript)])
  }

  // buildBalancedOrphanRecoveryPlan
  function BuildOrphanPlan(cap: int, m: Meta, rate: int): Result<OrphanPlan, Error> {
    if !IsTxid(m.fundingId) then Err(MissingArtifacts)
    else if !IsPubkey(m.initKey.pub) || !IsPubkey(m.accKey.pub) then Err(MissingArtifacts)
    else
      var fundingSat := OrphanFundingSat(cap, m);
      var remaining := fundingSat - OrphanFee(rate);
      if fundingSat <= 0 || remaining <= 0 then Err(OutputTooSmall)
      else if m.initTransit.script == [] || m.accTransit.script == [] then Err(MissingArtifacts)
      else
        var initSat := remaining / 2 + remaining % 2;
        var accSat := remaining / 2;
        if initSat < RECOVERY_MIN_OUTPUT || accSat < RECOVERY_MIN_OUTPUT then Err(OutputTooSmall)
        else
          Ok(OrphanPlan(
               OrphanTx(OutPoint(m.fundingId, m.fundingVout), initSat, m.initTransit.script, accSat, m.accTransit.script),
               MultisigScript(m.initKey.pub, m.accKey.pub), fundingSat, initSat, accSat))
  }

  // A recovery spends the recorded funding output and pays out everything but its
  // fee, in halves that differ by at most one sat and are above dust. The fee is 180
  // sat per unit of rate exactly when that product fits an int64. What it says of the
  // output to the signer is the 2-of-2 script over the two recorded keys and the value
  // that output has in the stored transaction, or the capacity when it is not there.
  lemma OrphanPlanConservesMoney(cap: int, m: Meta, rate: int)
    requires rate > 0 && BuildOrphanPlan(cap, m, rate).Ok?
    ensures var p := BuildOrphanPlan(cap, m, rate).value;
            && p.initSat + p.accSat + (if Wrap64(180 * rate) <= 0 then 1 else Wrap64(180 * rate)) == p.fundingSat
            && (p.initSat + p.accSat + 180 * rate == p.fundingSat <==> IsInt64(180 * rate))
            && 0 <= p.initSat - p.accSat <= 1
            && p.initSat >= 330 && p.accSat >= 330
            && p.tx.ins == [TxIn(OutPoint(m.fundingId, m.fundingVout), [], [])]
            && (if m.fundingTx.Some? && m.fundingVout < |m.fundingTx.value.outs|
                then p.fundingSat == m.fundingTx.value.outs[m.fundingVout].value
                else p.fundingSat == cap)
            && IsMultisigOver(p.script, m.initKey.pub, m.accKey.pub)
            && p.tx.outs == [TxOut(p.initSat, m.initTransit.script), TxOut(p.accSat, m.accTransit.script)]
  {
    assert rate * ORPHAN_RECOVERY_VBYTES == ORPHAN_RECOVERY_VBYTES * rate > 1;
    MultisigScriptNamesBothKeys(m.initKey.pub, m.accKey.pub);
    hide IsMultisigOver, MultisigScript;
  }

  // There is a recovery exactly when the keys, the funding id and both scripts are on
  // record and half of what the fee leaves is above dust.
  lemma RecoverableIff(cap: int, m: Meta, rate: int)
    ensures BuildOrphanPlan(cap, m, rate).Ok? <==>
              && |m.fundingId| == 32 && |m.initKey.pub| == 33 && |m.accKey.pub| == 33
              && m.initTransit.script != [] && m.accTransit.script != []
              && OrphanFundingSat(cap, m) - OrphanFee(rate) >= 660
  {
    hide OrphanFundingSat, MultisigScript;
    assert OrphanFee(rate) >= 1;
  }

  // balancedBuildOrphanRecoveryWitness: the signatures in the order of the keys.
  function OrphanWitness(initKey: Bytes, accKey: Bytes, script: Bytes, initSig: Bytes, accSig: Bytes): seq<Bytes> {
    if Less(accKey, initKey) then [[], accSig, initSig, script] else [[], initSig, accSig, script]
  }

  // The two signatures a 2-of-2 CHECKMULTISIG would check, each with the key it is
  // checked against.
  function MultisigChecks(stack: seq<Bytes>): Option<seq<(Bytes, Bytes)>> {
    if |stack| != 4 || stack[0] != [] then None
    else
      match ScriptKeys(stack[3])
      case None => None
      case Some(keys) => Some([(keys.0, stack[1]), (keys.1, stack[2])])
  }

  // Whatever the order of the two keys, each signature is checked against the key
  // of the party that made it.
  lemma WitnessPairsSignaturesWithKeys(initKey: Bytes, accKey: Bytes, initSig: Bytes, accSig: Bytes)
    requires IsPubkey(initKey) && IsPubkey(accKey)
    ensures var checks := MultisigChecks(OrphanWitness(initKey, accKey, MultisigScript(initKey, accKey), initSig, accSig));
            && checks.Some?
            && (checks.value == [(initKey, initSig), (accKey, accSig)] || checks.value == [(accKey, accSig), (initKey, initSig)])
  {
    MultisigScriptNamesBothKeys(initKey, accKey);
    LessIsLexicographic(accKey, initKey);
  }
}
