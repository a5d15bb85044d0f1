// Runs in which a guarantee fails because its condition does: coins locked twice, by either
// side, and a funding transaction stored under another id, each with a dishonest peer.
module OpenLimits {
  import opened Prelude
  import opened Bitcoin
  import opened Session
  import opened FundingPlan
  import opened Lnd
  import opened OpenWorld
  import opened OpenFunding
  import opened OpenCoherence
  import opened OpenExample
  import OpenHistory

  // ---- Coins locked twice -----------------------------------------------------------------

  // A run, with any peer, after which a side has locked coins twice.
  ghost predicate RunLocksTwice(h: Hashes, side: Role, steps: seq<Step>) {
    Starts(Start(false)) && CanRun(h, Start(false), steps) && LockedTwice(Run(h, Start(false), steps).log, side)
  }

  // The operator's call returns.
  lemma Returns(h: Hashes, before: seq<Step>, w: World, side: Role) returns (steps: seq<Step>, x: World)
    requires At(h, false, before, w) && HasLocked(w, side)
    requires NodeOf(w, side).row.Some? && NodeOf(w, side).row.value in NodeOf(w, side).hist
    requires NodeOf(w, side).row.value.role == side && !IsTerminal(NodeOf(w, side).row.value.state)
    ensures At(h, false, steps, x) && !x.honest && LockedAndOpen(x, side) && NodeOf(x, side).row == NodeOf(w, side).row
  {
    OpenHistory.RunIsLater(h, Start(false), before);
    hide At;
    steps := Go(h, false, before, w, Operate(End(side)));
    x := Framed(w, side, None);
    var e :| e in w.log && e.SentOutput? && e.side == side;
    assert e in x.log;
  }

  lemma Continues(h: Hashes, side: Role, before: seq<Step>, w: World, rest: seq<Step>) returns (steps: seq<Step>)
    requires At(h, false, before, w) && CanRun(h, w, rest) && LockedTwice(Run(h, w, rest).log, side)
    ensures RunLocksTwice(h, side, steps)
  {
    hide CanRun, Run, LockedTwice;
    RunsCompose(h, Start(false), before, rest);
    steps := before + rest;
    assert Starts(Start(false));
  }

  // A proposal with a key and an output the node has never seen.
  function ForeignProposal(): Msg {
    Proposal(CAP, FEE, DualMode, [], Pub(50), Id(50), 0, 1, [0])
  }

  lemma ForeignProposalIsFundable(sender: Bytes)
    requires IsPubkey(sender)
    ensures Fundable(sender, ForeignProposal())
  {
    assert TransitContribution(CAP, EffectiveFeeRate(FEE)) == Ok(10_095);
  }

  lemma InitiatorLocksTwice(h: Hashes)
    ensures exists steps: seq<Step> :: RunLocksTwice(h, Initiator, steps)
  {
    var steps, w, x;
    steps, w := InitiatorProposes(h, false);
    hide At, RunLocksTwice, CanRun, Run, LockedTwice, Fundable, ProposedMeta;
    steps, x := Returns(h, steps, w, Initiator);
    ForeignProposalIsFundable(ACCEPTER_PUB);
    var hear := [HearProposal(Initiator, ACCEPTER_PUB, ForeignProposal(), 3)];
    InitiatorLocksAgain(h, x, ACCEPTER_PUB, ForeignProposal(), 3, KeyDesc(Pub(51), 0, 0), KeyDesc(Pub(52), 0, 0), OutPoint(Id(53), 0));
    var rest :| CanRun(h, x, hear + rest) && LockedTwice(Run(h, x, hear + rest).log, Initiator);
    steps := Continues(h, Initiator, steps, x, hear + rest);
  }

  // An accept with a key, an output and a witness the node has never seen.
  function ForeignAccept(): Msg {
    Accept(DualMode, [], Pub(50), Id(50), 0, 1, [0], [[1]])
  }

  lemma ForeignAcceptIsHeard(h: Hashes)
    requires HashWidths(h)
    ensures var r := SignedRow(h, HalfSigned, 5);
            HearAccept(h, r, INITIATOR_PUB, ForeignAccept()).Ok? && r.role == Accepter && r.state == HalfSigned
  {
  }

  lemma AccepterLocksTwice(h: Hashes)
    requires HashWidths(h)
    ensures exists steps: seq<Step> :: RunLocksTwice(h, Accepter, steps)
  {
    var steps, w, x;
    steps, w := AccepterAccepts(h, false);
    ForeignAcceptIsHeard(h);
    ForeignProposalIsFundable(INITIATOR_PUB);
    hide At, RunLocksTwice, CanRun, Run, LockedTwice, Fundable, SignedRow, SignedMeta, HearAccept;
    steps, x := Returns(h, steps, w, Accepter);
    var msg, row := ForeignAccept(), SignedRow(h, HalfSigned, 5);
    AccepterLocksAgain(h, x, INITIATOR_PUB, msg, ForeignProposal(), 6, KeyDesc(Pub(51), 0, 0), KeyDesc(Pub(52), 0, 0), OutPoint(Id(53), 0));
    var heard := [Write(HeardAccept(Accepter, row, INITIATOR_PUB, msg, 6))];
    var rest :| CanRun(h, x, heard + rest) && LockedTwice(Run(h, x, heard + rest).log, Accepter);
    steps := Continues(h, Accepter, steps, x, heard + rest);
  }

  // ---- A transaction stored under another id ------------------------------------------------

  // What the initiator executes first, and what it executes after a second accept.
  function FirstPlan(h: Hashes): DualPlan {
    BuildDualFundingPlan(h, CAP, ReadyRow(h).meta).value
  }

  function SecondMeta(h: Hashes): Meta {
    ReadyRow(h).meta.(accKey := RemoteKey(Pub(50)), accTransit := Transit(Id(50), 0, 1, [0], NO_KEY), accStack := [[1]])
  }

  function SecondPlan(h: Hashes): DualPlan {
    BuildDualFundingPlan(h, CAP, SecondMeta(h)).value
  }

  predicate SpendsForeignOutput(t: Tx) {
    |t.ins| == 2 && OutPoint(Id(50), 0) in {t.ins[0].prev, t.ins[1].prev}
  }

  function Constant32(b: Bytes): (r: Bytes)
    ensures |r| == 32
  {
    Id(0)
  }

  function Constant20(b: Bytes): (r: Bytes)
    ensures |r| == 20
  {
    seq(20, _ => 0)
  }

  function TellsApart(t: Tx): (r: Bytes)
    ensures |r| == 32
  {
    if SpendsForeignOutput(t) then Id(1) else Id(2)
  }

  // The two are different transactions, so a hash function may tell them apart; some does.
  lemma SomeHashTellsThemApart()
    ensures exists h: Hashes :: HashWidths(h) && FirstPlan(h).txid != SecondPlan(h).txid
  {
    var h := Hashes(Constant32, Constant20, TellsApart);
    assert HashWidths(h);
    SecondSpendsForeignOutput(h);
    FirstAndSecondAreBare(h);
    assert Id(1)[0] == 1 && Id(2)[0] == 2;
    hide FirstPlan, SecondPlan, HashWidths;
  }

  lemma FirstAndSecondAreBare(h: Hashes)
    ensures FirstPlan(h).txid == h.txHash(FirstPlan(h).tx) && SecondPlan(h).txid == h.txHash(SecondPlan(h).tx)
  {
    DualPlanSpendsBothTransits(h, CAP, ReadyRow(h).meta);
    DualPlanSpendsBothTransits(h, CAP, SecondMeta(h));
  }

  lemma SecondSpendsForeignOutput(h: Hashes)
    ensures var a, b := FirstPlan(h).tx, SecondPlan(h).tx;
            !SpendsForeignOutput(a) && SpendsForeignOutput(b)
  {
    assert Id(10)[0] == 10 && Id(20)[0] == 20 && Id(50)[0] == 50;
    var m := ReadyRow(h).meta;
    assert m.initTransit.txid == Id(10) && m.accTransit.txid == Id(20);
    DualPlanSpendsBothTransits(h, CAP, m);
    DualPlanSpendsBothTransits(h, CAP, SecondMeta(h));
    hide BuildDualFundingPlan, ReadyRow;
  }

  // The first execution up to the acknowledged and recorded open.
  function AckedRow(h: Hashes): Row
    requires HasPlan(h, ReadyRow(h))
  {
    SubmittedRow(h).(updatedAt := 9, meta := SubmittedRow(h).meta.(fundingTx := Some(AssembledTx(h, ReadyRow(h), INITIATOR_WITNESS))))
  }

  lemma AckingYields(h: Hashes)
    requires HashWidths(h)
    ensures HasPlan(h, ReadyRow(h)) && PlanOf(h, ReadyRow(h)).txid == FirstPlan(h).txid && PlanOf(h, ReadyRow(h)).vout == 0
    ensures SubmittedRow(h).meta.fundingId == FirstPlan(h).txid && SubmittedRow(h).state == ChannelProposed
    ensures Transition(SubmittedRow(h), ChannelProposed, SignedPatch(h, ReadyRow(h), INITIATOR_WITNESS, Blank, SignedWrite.Acknowledged), 9) == Ok(AckedRow(h))
  {
    ReadyHasAPlan(h);
    SubmittingYields(h);
    var m := ExecuteMeta(h, ReadyRow(h).meta);
    assert BuildDualFundingPlan(h, CAP, m) == BuildDualFundingPlan(h, CAP, ReadyRow(h).meta);
    hide AssembledTx, SignedMeta, BuildDualFundingPlan;
  }

  lemma FirstExecutes(h: Hashes) returns (steps: seq<Step>, w: World)
    requires HashWidths(h)
    ensures At(h, false, steps, w) && HasPlan(h, ReadyRow(h)) && ReadyRow(h) in w.initiator.hist && SubmittedRow(h) in w.initiator.hist
    ensures w.initiator.row == Some(AckedRow(h)) && AckedRow(h) in w.initiator.hist
    ensures SignEvent(h, ReadyRow(h), INITIATOR_WITNESS) in w.log && OpenEvent(h, ReadyRow(h), Blank) in w.log
  {
    hide At, HasPlan, PlanOf, SubmitPatch, SignedPatch, Transition, AssembledTx, ReadyRow, SubmittedRow, AckedRow, FirstPlan, SignedMeta;
    var w1;
    var r := ReadyRow(h);
    steps, w1 := InitiatorHears(h, false);
    SubmittingYields(h);
    AckingYields(h);
    steps := Go(h, false, steps, w1, Write(Submit(r, 8)));
    var w2 := StoredRow(w1, Initiator, SubmittedRow(h));
    steps := Go(h, false, steps, w2, Call(SignOwn(r, INITIATOR_WITNESS)));
    var w3 := Log(w2, [SignEvent(h, r, INITIATOR_WITNESS)]);
    steps := Go(h, false, steps, w3, Call(LndCall.Open(r, Blank)));
    var w4 := Log(w3, [OpenEvent(h, r, Blank)]);
    assert w4.log[|w4.log| - 2] == SignEvent(h, r, INITIATOR_WITNESS) && w4.log[|w4.log| - 1] == OpenEvent(h, r, Blank);
    hide SignEvent, OpenEvent;
    steps := Go(h, false, steps, w4, Write(SaveSigned(r, SubmittedRow(h), INITIATOR_WITNESS, Blank, SignedWrite.Acknowledged, 9)));
    w := StoredRow(w4, Initiator, AckedRow(h));
  }

  // The second accept, and the submitted second execution.
  function AcceptedAgain(h: Hashes): Row
    requires HasPlan(h, ReadyRow(h))
  {
    var m := AckedRow(h).meta;
    AckedRow(h).(state := Accepted, updatedAt := 10,
                 meta := m.(pendingId := h.sha256(MultisigScript(m.initKey.pub, Pub(50))), accKey := RemoteKey(Pub(50)),
                            accTransit := Transit(Id(50), 0, 1, [0], NO_KEY), accStack := [[1]]))
  }

  lemma AcceptingAgainYields(h: Hashes)
    requires HashWidths(h) && HasPlan(h, ReadyRow(h))
    ensures var t := HearAccept(h, AckedRow(h), ACCEPTER_PUB, ForeignAccept());
            t.Ok? && Transition(AckedRow(h), Accepted, Encode(t.value), 10) == Ok(AcceptedAgain(h))
  {
    AckedFacts(h);
    hide AckedRow, AssembledTx, BuildDualFundingPlan, ReadyRow;
  }

  lemma AckedFacts(h: Hashes)
    requires HashWidths(h) && HasPlan(h, ReadyRow(h))
    ensures var r, m := AckedRow(h), AckedRow(h).meta;
            && r.peer == ACCEPTER_PUB && r.state == ChannelProposed && r.role == Initiator && r.cap == CAP && StoredForm(m) && m.mode == DualMode
            && m.initKey == ReadyRow(h).meta.initKey && m.initTransit == ReadyRow(h).meta.initTransit
            && IsPubkey(m.initKey.pub) && HasTransit(m.initTransit, true) && m.fundingId != [] && m.channelPoint == Blank
  {
    assert |SignedMeta(h).fundingId| == 32;
    hide AssembledTx, BuildDualFundingPlan;
  }

  lemma AgainHasAPlan(h: Hashes)
    requires HashWidths(h) && HasPlan(h, ReadyRow(h))
    ensures HasPlan(h, AcceptedAgain(h)) && PlanOf(h, AcceptedAgain(h)).txid == SecondPlan(h).txid
    ensures var t := Transition(AcceptedAgain(h), ChannelProposed, SubmitPatch(h, AcceptedAgain(h)), 11);
            t.Ok? && t.value.state == ChannelProposed && t.value.meta.fundingId == SecondPlan(h).txid
  {
    AckedFacts(h);
    hide AckedRow, AssembledTx, ReadyRow;
    var m := ExecuteMeta(h, AcceptedAgain(h).meta);
    assert |h.sha256(MultisigScript(m.initKey.pub, m.accKey.pub))| == 32;
    assert BuildDualFundingPlan(h, CAP, m) == BuildDualFundingPlan(h, CAP, SecondMeta(h));
  }

  // A run with any peer, some row of which holds a transaction under another id.
  ghost predicate RunsIncoherent(h: Hashes, steps: seq<Step>) {
    && Starts(Start(false)) && CanRun(h, Start(false), steps)
    && exists side, r :: r in NodeOf(Run(h, Start(false), steps), side).hist && !Coherent(h, r.meta)
  }

  // The first execution's signature and open are in LND's history, and its rows stored.
  ghost predicate FirstUnderWay(h: Hashes, w: World) {
    && HasPlan(h, ReadyRow(h)) && ReadyRow(h) in w.initiator.hist && SubmittedRow(h) in w.initiator.hist
    && SignEvent(h, ReadyRow(h), INITIATOR_WITNESS) in w.log && OpenEvent(h, ReadyRow(h), Blank) in w.log
  }

  lemma AnyPeer(h: Hashes, steps: seq<Step>, w: World)
    requires At(h, false, steps, w)
    ensures !w.honest
  {
    OpenHistory.RunIsLater(h, Start(false), steps);
  }

  lemma InitiatorAcceptsAgain(h: Hashes) returns (steps: seq<Step>, w: World)
    requires HashWidths(h)
    ensures At(h, false, steps, w) && FirstUnderWay(h, w)
    ensures w.initiator.row == Some(AcceptedAgain(h)) && AcceptedAgain(h) in w.initiator.hist
  {
    hide At, HasPlan, Transition, Encode, HearAccept, AckedRow, AcceptedAgain, SignEvent, OpenEvent, ReadyRow, SubmittedRow;
    var w1;
    steps, w1 := FirstExecutes(h);
    AnyPeer(h, steps, w1);
    AckedFacts(h);
    AcceptingAgainYields(h);
    steps := Go(h, false, steps, w1, Write(HeardAccept(Initiator, AckedRow(h), ACCEPTER_PUB, ForeignAccept(), 10)));
    w := StoredRow(w1, Initiator, AcceptedAgain(h));
  }

  // Where the second execution is submitted while the first waits for its broadcast.
  lemma SecondSubmits(h: Hashes) returns (steps: seq<Step>, w: World)
    requires HashWidths(h)
    ensures At(h, false, steps, w) && FirstUnderWay(h, w)
    ensures w.initiator.row.Some? && w.initiator.row.value.state == ChannelProposed && w.initiator.row.value.meta.fundingId == SecondPlan(h).txid
  {
    hide At, AcceptedAgain;
    var w1;
    steps, w1 := InitiatorAcceptsAgain(h);
    AgainHasAPlan(h);
    hide HasPlan, SubmitPatch, Transition, SecondPlan, SignEvent, OpenEvent, ReadyRow, SubmittedRow;
    var again := AcceptedAgain(h);
    steps := Go(h, false, steps, w1, Write(Submit(again, 11)));
    w := StoredRow(w1, Initiator, Transition(again, ChannelProposed, SubmitPatch(h, again), 11).value);
  }

  // Whenever the hash tells the two transactions apart, there is a run with an incoherent row.
  lemma BroadcastFailureCanStray(h: Hashes)
    requires HashWidths(h) && FirstPlan(h).txid != SecondPlan(h).txid
    ensures exists steps: seq<Step> :: RunsIncoherent(h, steps)
  {
    hide At, HasPlan, PlanOf, AssembledTx, SignEvent, OpenEvent, ReadyRow, SubmittedRow, FirstPlan, SecondPlan, CanRun, Run, BuildDualFundingPlan;
    var before, w := SecondSubmits(h);
    AckingYields(h);
    var failed := Write(SaveSigned(ReadyRow(h), SubmittedRow(h), INITIATOR_WITNESS, Blank, BroadcastFailed, 12));
    assert MayUpdate(h, w, failed.update);
    assert Strays(h, w, failed);
    EndsAstray(h, before, w, failed);
  }

  lemma EndsAstray(h: Hashes, before: seq<Step>, w: World, step: Step)
    requires HashWidths(h) && At(h, false, before, w) && Enabled(h, w, step) && Strays(h, w, step)
    ensures RunsIncoherent(h, before + [step])
  {
    hide Enabled, Apply, Strays, Coherent;
    OneStep(h, w, step);
    RunsCompose(h, Start(false), before, [step]);
    assert Starts(Start(false));
    LastStepCounts(h, Start(false), before, step);
    CoherentIffNeverStrays(h, Start(false), before + [step]);
  }

  lemma {:induction false} LastStepCounts(h: Hashes, w: World, before: seq<Step>, step: Step)
    requires CanRun(h, w, before) && CanRun(h, w, before + [step]) && Strays(h, Run(h, w, before), step)
    ensures !NeverStrays(h, w, before + [step])
    decreases |before|
  {
    hide Enabled, Apply, Strays;
    var all := before + [step];
    if before != [] {
      assert all[0] == before[0] && all[1..] == before[1..] + [step];
      LastStepCounts(h, Apply(h, w, before[0]), before[1..], step);
    }
  }
}
