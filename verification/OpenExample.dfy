// A run of two honest nodes that gets through: the guarantees are about something.
module OpenExample {
  import opened Prelude
  import opened Bitcoin
  import opened Session
  import opened FundingPlan
  import opened Lnd
  import opened OpenWorld
  import opened OpenGuarantees
  import OpenService
  import Orphan = OrphanRecovery

  const CAP := 20_000
  const FEE := 1

  function Pub(n: Byte): Bytes {
    seq(33, _ => n)
  }

  function Id(n: Byte): Bytes {
    seq(32, _ => n)
  }

  const INITIATOR_PUB := Pub(1)
  const ACCEPTER_PUB := Pub(2)
  const INITIATOR_WITNESS: seq<Bytes> := [[1]]
  const ACCEPTER_WITNESS: seq<Bytes> := [[2]]

  function Created(): Row {
    Row(Initiator, ACCEPTER_PUB, CAP, FEE, SessionCreated, 0, EMPTY_META.(mode := DualMode))
  }

  // The start of a run, with an honest peer or with any.
  function Start(honest: bool): World {
    World(honest, CAP, FEE,
          Node(INITIATOR_PUB, Some(Created()), {Created()}, None, None, map[]),
          Node(ACCEPTER_PUB, None, {}, None, None, map[]), {}, [])
  }

  // What each side puts in: 10095 sat, half the capacity and half the fee.
  function OwnOf(h: Hashes, n: Byte): Artifacts
    requires n < 255
  {
    Artifacts(KeyDesc(Pub(n), 0, 0), Transit(Id(n), 0, 10_095, PubkeyHashScript(h, Pub(n + 1)), KeyDesc(Pub(n + 1), 0, 0)))
  }

  // ---- The initiator proposes ---------------------------------------------------------------

  function ProposedMeta(h: Hashes): Meta {
    WithArtifacts(Initiator, EMPTY_META.(mode := DualMode), OwnOf(h, 10))
  }

  function Prepared(h: Hashes): Row {
    Created().(meta := ProposedMeta(h), updatedAt := 1)
  }

  function ProposedRow(h: Hashes): Row {
    Prepared(h).(state := ProposalSent, updatedAt := 2)
  }

  predicate InitiatorWaits(h: Hashes, n: Node) {
    n.pub == INITIATOR_PUB && n.row == Some(ProposedRow(h)) && ProposedRow(h) in n.hist && n.calls == map[]
  }

  // Coins locked, and no operator call with something to write.
  ghost predicate HasLocked(w: World, side: Role) {
    && (exists e :: e in w.log && e.SentOutput? && e.side == side)
    && NodeOf(w, side).frame.Some? && !NodeOf(w, side).frame.value.unsaved
  }

  // Where the initiator has proposed, and the accepter has done nothing yet.
  ghost predicate ProposalOut(h: Hashes, w: World) {
    && InitiatorWaits(h, w.initiator)
    && w.accepter == Node(ACCEPTER_PUB, None, {}, None, None, map[])
    && Packet(Accepter, ProposalOf(Prepared(h), ProposedMeta(h))) in w.net
    && HasLocked(w, Initiator)
  }

  // A run that has come this far, without recovery calls.
  ghost predicate At(h: Hashes, honest: bool, steps: seq<Step>, w: World) {
    && CanRun(h, Start(honest), steps) && Run(h, Start(honest), steps) == w
    && forall i :: 0 <= i < |steps| ==> !steps[i].Recover?
  }

  lemma Go(h: Hashes, honest: bool, steps: seq<Step>, w: World, step: Step) returns (longer: seq<Step>)
    requires At(h, honest, steps, w) && Enabled(h, w, step) && !step.Recover?
    ensures At(h, honest, longer, Apply(h, w, step))
  {
    hide Enabled, Apply;
    OpenService.RunThenStep(h, Start(honest), steps, step);
    longer := steps + [step];
  }

  lemma EncodeKeeps(h: Hashes)
    ensures Transition(Created(), SessionCreated, Encode(ProposedMeta(h)), 1) == Ok(Prepared(h))
    ensures Transition(Prepared(h), ProposalSent, Encode(ProposedMeta(h)), 2) == Ok(ProposedRow(h))
  {
  }

  lemma InitiatorProposes(h: Hashes, honest: bool) returns (steps: seq<Step>, w: World)
    ensures At(h, honest, steps, w) && ProposalOut(h, w)
  {
    var own := OwnOf(h, 10);
    var w0 := Start(honest);
    assert At(h, honest, [], w0);
    hide At;
    steps := Go(h, honest, [], w0, Operate(Begin(Initiator)));
    var w1 := Framed(w0, Initiator, Some(Frame(Created(), Created().meta, false)));
    assert TransitContribution(CAP, EffectiveFeeRate(FEE)) == Ok(10_095);
    assert FundedArtifacts(h, Created(), own.key, own.transit.key, OutPoint(Id(10), 0)) == own;
    hide TransitContribution;
    steps := Go(h, honest, steps, w1, Operate(Fund(Initiator, own.key, own.transit.key, OutPoint(Id(10), 0))));
    var w2 := Locked(w1, Initiator, own);
    assert w2.log[0].SentOutput?;
    steps, w := InitiatorSends(h, honest, steps, w2);
  }

  lemma InitiatorSends(h: Hashes, honest: bool, before: seq<Step>, w2: World) returns (steps: seq<Step>, w: World)
    requires At(h, honest, before, w2)
    requires w2.accepter == Node(ACCEPTER_PUB, None, {}, None, None, map[])
    requires w2.initiator.pub == INITIATOR_PUB && w2.initiator.row == Some(Created()) && w2.initiator.calls == map[]
    requires w2.initiator.frame == Some(Frame(Created(), ProposedMeta(h), true))
    requires exists e :: e in w2.log && e.SentOutput? && e.side == Initiator
    ensures At(h, honest, steps, w) && ProposalOut(h, w)
  {
    hide At, Transition, Encode, ProposalOf, InitiatorReady, ProposedMeta;
    EncodeKeeps(h);
    ProposedIsReady(h);
    var w3 := Saved(w2, Initiator, SessionCreated, 1);
    steps := Go(h, honest, before, w2, Operate(Save(Initiator, SessionCreated, 1)));
    var w4 := w3.(net := w3.net + {SentPacket(Initiator, w3.initiator.frame.value)});
    steps := Go(h, honest, steps, w3, Operate(Send(Initiator)));
    w := Saved(w4, Initiator, ProposalSent, 2);
    steps := Go(h, honest, steps, w4, Operate(Save(Initiator, ProposalSent, 2)));
    assert w.log == w2.log;
  }

  lemma ProposedIsReady(h: Hashes)
    ensures InitiatorReady(ProposedMeta(h)) && ProposedMeta(h).mode == DualMode
  {
  }

  // ---- The accepter accepts -------------------------------------------------------------------

  function HeardMeta(h: Hashes): Meta {
    var own := OwnOf(h, 10);
    EMPTY_META.(mode := DualMode, initKey := RemoteKey(own.key.pub), initTransit := WithoutKey(own.transit))
  }

  function HeardRow(h: Hashes): Row {
    Row(Accepter, INITIATOR_PUB, CAP, FEE, ProposalReceived, 3, HeardMeta(h))
  }

  function FundedFrame(h: Hashes): Frame {
    Frame(HeardRow(h), WithArtifacts(Accepter, HeardMeta(h), OwnOf(h, 20)), true)
  }

  function SignedMeta(h: Hashes): Meta {
    var m := FundedFrame(h).meta;
    var id := h.sha256(MultisigScript(m.initKey.pub, m.accKey.pub));
    var p := BuildDualFundingPlan(h, CAP, m).value;
    m.(pendingId := id, fundingId := p.txid, fundingVout := 0, fundingTx := Some(p.tx), accStack := ACCEPTER_WITNESS)
  }

  function SignedRow(h: Hashes, state: State, now: int): Row {
    HeardRow(h).(meta := SignedMeta(h), state := state, updatedAt := now)
  }

  lemma SigningYields(h: Hashes)
    ensures CanCountersign(h, FundedFrame(h))
    ensures CountersignedMeta(h, FundedFrame(h), Some(ACCEPTER_WITNESS)) == SignedMeta(h)
  {
  }

  lemma SavingAccepts(h: Hashes)
    requires HashWidths(h)
    ensures Transition(HeardRow(h), ProposalReceived, Encode(SignedMeta(h)), 4) == Ok(SignedRow(h, ProposalReceived, 4))
    ensures Transition(SignedRow(h, ProposalReceived, 4), HalfSigned, Encode(SignedMeta(h)), 5) == Ok(SignedRow(h, HalfSigned, 5))
  {
    assert |BuildDualFundingPlan(h, CAP, FundedFrame(h).meta).value.txid| == 32;
  }

  // Where the accepter has sent its accept, and the initiator waits.
  ghost predicate AcceptSent(h: Hashes, w: World) {
    && InitiatorWaits(h, w.initiator) && w.accepter.pub == ACCEPTER_PUB
    && Packet(Initiator, AcceptOf(SignedMeta(h))) in w.net
    && w.accepter.row == Some(SignedRow(h, HalfSigned, 5)) && w.accepter.row.value in w.accepter.hist && w.accepter.calls == map[]
    && HasLocked(w, Accepter)
  }

  lemma AccepterAccepts(h: Hashes, honest: bool) returns (steps: seq<Step>, w: World)
    requires HashWidths(h)
    ensures At(h, honest, steps, w) && AcceptSent(h, w)
  {
    hide At;
    var own := OwnOf(h, 20);
    var w0;
    steps, w0 := InitiatorProposes(h, honest);
    var msg := ProposalOf(Prepared(h), ProposedMeta(h));
    assert UpsertFromProposal(None, INITIATOR_PUB, msg, 3) == Ok(HeardRow(h));
    var w1 := StoredRow(w0, Accepter, HeardRow(h));
    steps := Go(h, honest, steps, w0, HearProposal(Accepter, INITIATOR_PUB, msg, 3));
    hide UpsertFromProposal, ProposalOf;
    var w2 := Framed(w1, Accepter, Some(Frame(HeardRow(h), HeardMeta(h), false)));
    steps := Go(h, honest, steps, w1, Operate(Begin(Accepter)));
    assert TransitContribution(CAP, EffectiveFeeRate(FEE)) == Ok(10_095);
    assert FundedArtifacts(h, HeardRow(h), own.key, own.transit.key, OutPoint(Id(20), 0)) == own;
    var w3 := Locked(w2, Accepter, own);
    steps := Go(h, honest, steps, w2, Operate(Fund(Accepter, own.key, own.transit.key, OutPoint(Id(20), 0))));
    assert w3.log[|w2.log|].SentOutput?;
    steps, w := AccepterSigns(h, honest, steps, w3);
  }

  lemma AccepterSigns(h: Hashes, honest: bool, before: seq<Step>, w3: World) returns (steps: seq<Step>, w: World)
    requires HashWidths(h) && At(h, honest, before, w3)
    requires InitiatorWaits(h, w3.initiator) && w3.accepter.pub == ACCEPTER_PUB && w3.accepter.calls == map[]
    requires w3.accepter.row == Some(HeardRow(h)) && w3.accepter.frame == Some(FundedFrame(h))
    requires exists e :: e in w3.log && e.SentOutput? && e.side == Accepter
    ensures At(h, honest, steps, w) && AcceptSent(h, w)
  {
    hide At, CanCountersign, CountersignedMeta, CountersignEvents, Transition, Encode, BuildDualFundingPlan, AcceptOf, InitiatorWaits, SignedMeta;
    SigningYields(h);
    SavingAccepts(h);
    var w4 := Framed(Log(w3, CountersignEvents(h, FundedFrame(h), Some(ACCEPTER_WITNESS))), Accepter, Some(FundedFrame(h).(meta := SignedMeta(h))));
    steps := Go(h, honest, before, w3, Operate(Countersign(Some(ACCEPTER_WITNESS))));
    var w5 := Saved(w4, Accepter, ProposalReceived, 4);
    steps := Go(h, honest, steps, w4, Operate(Save(Accepter, ProposalReceived, 4)));
    steps, w := AccepterSends(h, honest, steps, w5);
  }

  lemma AccepterSends(h: Hashes, honest: bool, before: seq<Step>, w5: World) returns (steps: seq<Step>, w: World)
    requires HashWidths(h) && At(h, honest, before, w5)
    requires InitiatorWaits(h, w5.initiator) && w5.accepter.pub == ACCEPTER_PUB && w5.accepter.calls == map[]
    requires w5.accepter.row == Some(SignedRow(h, ProposalReceived, 4))
    requires exists e :: e in w5.log && e.SentOutput? && e.side == Accepter
    requires w5.accepter.frame == Some(Frame(SignedRow(h, ProposalReceived, 4), SignedMeta(h), false))
    ensures At(h, honest, steps, w) && AcceptSent(h, w)
  {
    hide At, Transition, Encode, BuildDualFundingPlan, AcceptOf, InitiatorWaits, SignedMeta, AccepterReady;
    SavingAccepts(h);
    SignedIsReady(h);
    var w6 := Saved(w5, Accepter, HalfSigned, 5);
    steps := Go(h, honest, before, w5, Operate(Save(Accepter, HalfSigned, 5)));
    w := w6.(net := w6.net + {SentPacket(Accepter, w6.accepter.frame.value)});
    steps := Go(h, honest, steps, w6, Operate(Send(Accepter)));
  }

  lemma SignedIsReady(h: Hashes)
    ensures AccepterReady(SignedMeta(h)) && SignedMeta(h).mode == DualMode
  {
  }

  // ---- The initiator executes -------------------------------------------------------------------

  function ReadyRow(h: Hashes): Row {
    var m := SignedMeta(h);
    ProposedRow(h).(state := Accepted, updatedAt := 7,
                    meta := ProposedMeta(h).(pendingId := m.pendingId, accKey := RemoteKey(m.accKey.pub), accTransit := WithoutKey(m.accTransit),
                                             accStack := m.accStack))
  }

  lemma HearingMakesReady(h: Hashes)
    requires HashWidths(h)
    ensures var r := HearAccept(h, ProposedRow(h), ACCEPTER_PUB, AcceptOf(SignedMeta(h)));
            r.Ok? && Transition(ProposedRow(h), Accepted, Encode(r.value), 7) == Ok(ReadyRow(h))
  {
  }

  lemma ReadyHasAPlan(h: Hashes)
    requires HashWidths(h)
    ensures HasPlan(h, ReadyRow(h)) && |PlanOf(h, ReadyRow(h)).txid| == 32
  {
  }

  lemma SubmittingReady(h: Hashes, now: int)
    requires HashWidths(h) && HasPlan(h, ReadyRow(h))
    ensures var t := Transition(ReadyRow(h), ChannelProposed, SubmitPatch(h, ReadyRow(h)), now);
            t.Ok? && t.value.state == ChannelProposed && t.value.meta.fundingId == PlanOf(h, ReadyRow(h)).txid
  {
    hide BuildDualFundingPlan, ExecuteMeta;
  }

  // Where the initiator has heard the accept.
  ghost predicate BothReady(h: Hashes, w: World) {
    && w.initiator.row == Some(ReadyRow(h)) && ReadyRow(h) in w.initiator.hist && w.initiator.pub == INITIATOR_PUB
    && w.accepter.row == Some(SignedRow(h, HalfSigned, 5)) && w.accepter.pub == ACCEPTER_PUB
    && w.initiator.calls == map[] && w.accepter.calls == map[]
  }

  lemma InitiatorHears(h: Hashes, honest: bool) returns (steps: seq<Step>, w: World)
    requires HashWidths(h)
    ensures At(h, honest, steps, w) && BothReady(h, w)
  {
    hide At, HearAccept, Transition, Encode, BuildDualFundingPlan, SignedMeta;
    var w0;
    steps, w0 := AccepterAccepts(h, honest);
    HearingMakesReady(h);
    var msg := AcceptOf(SignedMeta(h));
    assert msg.Accept?;
    hide AcceptOf;
    var heard := HeardAccept(Initiator, ProposedRow(h), ACCEPTER_PUB, msg, 7);
    steps := Go(h, honest, steps, w0, Write(heard));
    w := StoredRow(w0, Initiator, ReadyRow(h));
  }

  lemma InitiatorBroadcasts(h: Hashes, honest: bool) returns (steps: seq<Step>, w: World)
    requires HashWidths(h)
    ensures At(h, honest, steps, w) && ReadyRow(h) in w.initiator.hist && HasPlan(h, ReadyRow(h))
    ensures PublishedFunding(Initiator, AssembledTx(h, ReadyRow(h), INITIATOR_WITNESS)) in w.log
  {
    hide At, AssembledTx, HasPlan, ReadyRow;
    var w1;
    steps, w1 := InitiatorHears(h, honest);
    steps, w := InitiatorExecutes(h, honest, steps, w1);
  }

  lemma InitiatorExecutes(h: Hashes, honest: bool, before: seq<Step>, w1: World) returns (steps: seq<Step>, w: World)
    requires HashWidths(h) && At(h, honest, before, w1)
    requires w1.initiator.row == Some(ReadyRow(h)) && ReadyRow(h) in w1.initiator.hist
    ensures At(h, honest, steps, w) && ReadyRow(h) in w.initiator.hist && HasPlan(h, ReadyRow(h))
    ensures PublishedFunding(Initiator, AssembledTx(h, ReadyRow(h), INITIATOR_WITNESS)) in w.log
  {
    hide At;
    var r := ReadyRow(h);
    ReadyHasAPlan(h);
    SubmittingReady(h, 8);
    hide HasPlan, PlanOf, SubmitPatch, Transition, AssembledTx, ReadyRow;
    var submitted := Transition(r, ChannelProposed, SubmitPatch(h, r), 8).value;
    steps := Go(h, honest, before, w1, Write(Submit(r, 8)));
    var w2 := StoredRow(w1, Initiator, submitted);
    steps := Go(h, honest, steps, w2, Call(SignOwn(r, INITIATOR_WITNESS)));
    var w3 := Log(w2, [SignEvent(h, r, INITIATOR_WITNESS)]);
    steps := Go(h, honest, steps, w3, Call(LndCall.Open(r, Blank)));
    var w4 := Log(w3, [OpenEvent(h, r, Blank)]);
    assert w4.log[|w4.log| - 2] == SignEvent(h, r, INITIATOR_WITNESS) && w4.log[|w4.log| - 1] == OpenEvent(h, r, Blank);
    steps, w := InitiatorPublishes(h, honest, steps, w4, submitted);
  }

  lemma InitiatorPublishes(h: Hashes, honest: bool, before: seq<Step>, w4: World, submitted: Row) returns (steps: seq<Step>, w: World)
    requires At(h, honest, before, w4) && HasPlan(h, ReadyRow(h)) && ReadyRow(h) in w4.initiator.hist
    requires w4.initiator.row == Some(submitted) && submitted in w4.initiator.hist
    requires submitted.state == ChannelProposed && submitted.meta.fundingId == PlanOf(h, ReadyRow(h)).txid
    requires SignEvent(h, ReadyRow(h), INITIATOR_WITNESS) in w4.log && OpenEvent(h, ReadyRow(h), Blank) in w4.log
    ensures At(h, honest, steps, w) && ReadyRow(h) in w.initiator.hist
    ensures PublishedFunding(Initiator, AssembledTx(h, ReadyRow(h), INITIATOR_WITNESS)) in w.log
  {
    hide At;
    var r := ReadyRow(h);
    OpenService.SignedRowHasTx(h, submitted, r, INITIATOR_WITNESS, Blank, SignedWrite.Acknowledged, 9);
    OpenService.NotTerminalMoves(submitted, ChannelProposed, SignedPatch(h, r, INITIATOR_WITNESS, Blank, SignedWrite.Acknowledged), 9);
    hide HasPlan, PlanOf, SignedPatch, Transition, AssembledTx, ReadyRow, SignEvent, OpenEvent;
    steps := Go(h, honest, before, w4, Write(SaveSigned(r, submitted, INITIATOR_WITNESS, Blank, SignedWrite.Acknowledged, 9)));
    var acked := Transition(submitted, ChannelProposed, SignedPatch(h, r, INITIATOR_WITNESS, Blank, SignedWrite.Acknowledged), 9).value;
    var w5 := StoredRow(w4, Initiator, acked);
    steps := Go(h, honest, steps, w5, Call(PublishOwn(r, INITIATOR_WITNESS, Blank, acked)));
    w := Log(w5, [PublishedFunding(Initiator, AssembledTx(h, r, INITIATOR_WITNESS))]);
    assert w.log[|w.log| - 1] == PublishedFunding(Initiator, AssembledTx(h, r, INITIATOR_WITNESS));
  }

  // A run of honest nodes in which a funding transaction is broadcast.
  ghost predicate GetsThrough(h: Hashes, w: World, steps: seq<Step>) {
    HonestRun(h, w, steps) && exists e :: e in Run(h, w, steps).log && e.PublishedFunding?
  }

  // There are such runs, whatever the hash functions.
  lemma HonestRunsGetThrough(h: Hashes)
    requires HashWidths(h)
    ensures exists steps: seq<Step> :: GetsThrough(h, Start(true), steps)
  {
    var steps, w := InitiatorBroadcasts(h, true);
    hide AssembledTx, CanRun, Run, HasPlan;
    assert Starts(Start(true));
    assert PublishedFunding(Initiator, AssembledTx(h, ReadyRow(h), INITIATOR_WITNESS)) in Run(h, Start(true), steps).log;
    assert GetsThrough(h, Start(true), steps);
  }

  // ---- Stuck before the broadcast ---------------------------------------------------------------

  // The row after the initiator has submitted the open.
  function SubmittedRow(h: Hashes): Row {
    var m := SignedMeta(h);
    ReadyRow(h).(state := ChannelProposed, updatedAt := 8,
                 meta := ReadyRow(h).meta.(fundingId := m.fundingId, fundingTx := m.fundingTx))
  }

  lemma SubmittingYields(h: Hashes)
    requires HashWidths(h)
    ensures HasPlan(h, ReadyRow(h))
    ensures Transition(ReadyRow(h), ChannelProposed, SubmitPatch(h, ReadyRow(h)), 8) == Ok(SubmittedRow(h))
  {
    ReadyHasAPlan(h);
    var m, f := ExecuteMeta(h, ReadyRow(h).meta), FundedFrame(h).meta;
    assert BuildDualFundingPlan(h, CAP, m) == BuildDualFundingPlan(h, CAP, f);
    assert m.pendingId == SignedMeta(h).pendingId;
    hide BuildDualFundingPlan;
  }

  // ... and after LND has refused it.
  function StuckRow(h: Hashes): Row {
    SubmittedRow(h).(state := RecoveryRequired, updatedAt := 9)
  }

  // Where the initiator has to recover and the accepter waits, with no recovery begun.
  ghost predicate Stuck(h: Hashes, w: World) {
    && w.initiator.pub == INITIATOR_PUB && w.initiator.row == Some(StuckRow(h)) && StuckRow(h) in w.initiator.hist
    && w.accepter.pub == ACCEPTER_PUB && w.accepter.row == Some(SignedRow(h, HalfSigned, 5))
    && w.initiator.calls == map[] && w.accepter.calls == map[]
  }

  lemma InitiatorGetsStuck(h: Hashes, honest: bool) returns (steps: seq<Step>, w: World)
    requires HashWidths(h)
    ensures At(h, honest, steps, w) && Stuck(h, w)
  {
    hide At, Transition, SubmitPatch, HasPlan, SignedRow, ReadyRow;
    var w0;
    steps, w0 := InitiatorHears(h, honest);
    SubmittingYields(h);
    steps := Go(h, honest, steps, w0, Write(Submit(ReadyRow(h), 8)));
    var w1 := StoredRow(w0, Initiator, SubmittedRow(h));
    NotingStuck(h);
    hide SubmittedRow, StuckRow;
    steps := Go(h, honest, steps, w1, Write(Note(Initiator, SubmittedRow(h), ExecuteFailed, 9)));
    w := StoredRow(w1, Initiator, StuckRow(h));
  }

  lemma NotingStuck(h: Hashes)
    ensures SiteApplies(ExecuteFailed, SubmittedRow(h))
    ensures Transition(SubmittedRow(h), RecoveryRequired, NO_PATCH, 9) == Ok(StuckRow(h))
  {
    hide SignedMeta;
    assert Merge(SubmittedRow(h).meta, NO_PATCH) == SubmittedRow(h).meta;
  }
}
