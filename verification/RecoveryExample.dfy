// Recoveries from a stuck open between honest nodes: one that goes well, and one in which
// two calls of a node overlap at different rates.
module RecoveryExample {
  import opened Prelude
  import opened Bitcoin
  import opened Session
  import opened FundingPlan
  import opened Lnd
  import opened OpenWorld
  import opened OpenRates
  import opened RecoveryAgreement
  import opened OpenGuarantees
  import opened OpenExample
  import RecoveryRuns
  import Orphan = OrphanRecovery

  const RAW_SIG: Bytes := [0x30, 0, 0, 0, 0, 0, 0, 0, 0]
  const NO_EVENTS: seq<LndEvent> := []
  const SIG: Bytes := RAW_SIG + [Orphan.SIGHASH_ALL]

  // ---- Going on from a world --------------------------------------------------------------

  // A run from w that has come to x; a calm one, if asked for.
  ghost predicate Goes(h: Hashes, w: World, calm: bool, steps: seq<Step>, x: World) {
    CanRun(h, w, steps) && Run(h, w, steps) == x && (calm ==> CalmRun(h, w, steps))
  }

  lemma {:induction false} CalmRunsCompose(h: Hashes, w: World, first: seq<Step>, rest: seq<Step>)
    requires CanRun(h, w, first) && CanRun(h, Run(h, w, first), rest) && CanRun(h, w, first + rest)
    requires CalmRun(h, w, first) && CalmRun(h, Run(h, w, first), rest)
    ensures CalmRun(h, w, first + rest)
    decreases |first|
  {
    hide Apply, Enabled, Clashes;
    var all := first + rest;
    if first == [] {
      assert all == rest;
    } else {
      assert all[0] == first[0] && all[1..] == first[1..] + rest;
      CalmRunsCompose(h, Apply(h, w, first[0]), first[1..], rest);
    }
  }

  lemma Then(h: Hashes, w: World, calm: bool, steps: seq<Step>, x: World, side: Role, id: nat, op: Orphan.Op) returns (longer: seq<Step>)
    requires Goes(h, w, calm, steps, x) && MayRecover(x, side, id, op)
    requires calm ==> !Clashes(x, Step.Recover(side, id, op))
    ensures Goes(h, w, calm, longer, RecoveryStepped(h, x, side, id, op))
  {
    hide MayRecover, RecoveryStepped, Clashes;
    var step := Step.Recover(side, id, op);
    assert Enabled(h, x, step) && Apply(h, x, step) == RecoveryStepped(h, x, side, id, op);
    longer := steps + [step];
    ThenStep(h, w, calm, steps, x, step);
  }

  lemma ThenStep(h: Hashes, w: World, calm: bool, steps: seq<Step>, x: World, step: Step)
    requires Goes(h, w, calm, steps, x) && Enabled(h, x, step) && (calm ==> !Clashes(x, step))
    ensures Goes(h, w, calm, steps + [step], Apply(h, x, step))
  {
    hide Enabled, Apply, Clashes;
    OneStep(h, x, step);
    RunsCompose(h, w, steps, [step]);
    if calm {
      assert [step][1..] == [];
      assert CalmRun(h, Apply(h, x, step), []);
      assert CalmRun(h, x, [step]);
      CalmRunsCompose(h, w, steps, [step]);
    }
  }

  // ---- What the calls do, step by step -----------------------------------------------------

  // A document that says all a recovery needs.
  predicate Recoverable(m: Meta) {
    && Orphan.CanProcessOrphan(m) && m.orphanTxid == []
    && m.fundingTx.Some? && m.fundingVout < |m.fundingTx.value.outs| && m.fundingTx.value.outs[m.fundingVout].value == CAP
  }

  lemma StuckDocsAreRecoverable(h: Hashes)
    requires HashWidths(h)
    ensures Recoverable(StuckRow(h).meta) && HasTransit(StuckRow(h).meta.initTransit, true)
    ensures Recoverable(SignedMeta(h)) && HasTransit(SignedMeta(h).accTransit, true)
    ensures StuckRow(h).meta.fundingId == SignedMeta(h).fundingId && StuckRow(h).meta.fundingVout == SignedMeta(h).fundingVout == 0
  {
    assert |BuildDualFundingPlan(h, CAP, FundedFrame(h).meta).value.txid| == 32;
  }

  // What a recovery pays the initiator at this rate.
  function Share(rate: int): int {
    (CAP - ORPHAN_RECOVERY_VBYTES * rate) / 2
  }

  lemma RecoverableDocPlans(row: Row, asked: int)
    requires row.cap == CAP && Recoverable(row.meta) && asked in {1, 2, 3} && row.meta.orphanRate in {0, asked}
    ensures Orphan.PlanRecovery(row, asked).Ok?
    ensures var p := Orphan.PlanRecovery(row, asked).value;
            |p.tx.ins| == 1 && p.tx.ins[0].stack == [] && |p.tx.outs| == 2 && p.tx.outs[0].value == Share(asked)
  {
    assert OrphanFee(asked) == 180 * asked;
  }

  // A call of the operator that has read the row and planned.
  function AskedCall(row: Row, asked: int): Orphan.Call
    requires Orphan.PlanRecovery(row, asked).Ok?
  {
    Orphan.Call(row, asked, None, Orphan.Planned(Orphan.PlanRecovery(row, asked).value))
  }

  // What changes when a side steps in a recovery call: its row, its calls, the log, the net.
  ghost predicate Becomes(w: World, x: World, side: Role, row: Row, id: nat, c: Orphan.Call, events: seq<LndEvent>) {
    var n, k := NodeOf(w, side), NodeOf(x, side);
    && NodeOf(x, Other(side)) == NodeOf(w, Other(side))
    && k.pub == n.pub && k.row == Some(row) && row in k.hist && n.hist <= k.hist && k.calls == n.calls[id := c]
    && x.honest == w.honest && x.log == w.log + events && w.net <= x.net
  }

  lemma Asks(h: Hashes, w: World, side: Role, id: nat, asked: int)
    requires NodeOf(w, side).row.Some? && NodeOf(w, side).row.value in NodeOf(w, side).hist && id !in NodeOf(w, side).calls && asked > 0
    requires Orphan.MayAsk(NodeOf(w, side).row.value, asked) && Orphan.PlanRecovery(NodeOf(w, side).row.value, asked).Ok?
    ensures MayRecover(w, side, id, Orphan.Ask(asked))
    ensures Becomes(w, RecoveryStepped(h, w, side, id, Orphan.Ask(asked)), side, NodeOf(w, side).row.value, id,
                    AskedCall(NodeOf(w, side).row.value, asked), [])
  {
    hide Orphan.PlanRecovery, Orphan.MayAsk;
    assert w.log + [] == w.log;
  }

  function SignatureOver(side: Role, p: OrphanPlan, key: Bytes): LndEvent {
    SignedRaw(side, p.tx, key, p.script, p.fundingSat, SIG)
  }

  lemma Signs(h: Hashes, w: World, side: Role, id: nat, c: Orphan.Call)
    requires id in NodeOf(w, side).calls && NodeOf(w, side).calls[id] == c && c.stage.Planned? && c.row.role == side
    requires NodeOf(w, side).row.Some? && NodeOf(w, side).row.value in NodeOf(w, side).hist && Orphan.SigOf(c.row.meta, side) == []
    ensures MayRecover(w, side, id, Orphan.Sign(RAW_SIG))
    ensures Becomes(w, RecoveryStepped(h, w, side, id, Orphan.Sign(RAW_SIG)), side, NodeOf(w, side).row.value, id,
                    c.(stage := Orphan.Ready(c.stage.plan, SIG)), [SignatureOver(side, c.stage.plan, LocalKey(side, c.row.meta).pub)])
  {
  }

  // The write of a call's own signature, over a row that may have changed since the read.
  lemma Saves(h: Hashes, w: World, side: Role, id: nat, c: Orphan.Call, now: int, half: Row)
    requires id in NodeOf(w, side).calls && NodeOf(w, side).calls[id] == c && c.stage.Ready? && c.row.role == side
    requires NodeOf(w, side).row.Some?
    requires Transition(NodeOf(w, side).row.value, Orphan.ProgressState(c.row.state),
                        Encode(Orphan.WithSig(c.row.meta.(orphanRate := c.rate), side, c.stage.sig)), now) == Ok(half)
    ensures MayRecover(w, side, id, Orphan.SaveSigned(now))
    ensures Becomes(w, RecoveryStepped(h, w, side, id, Orphan.SaveSigned(now)), side, half, id,
                    c.(stage := if c.msg.None? then Orphan.Saved(c.stage.plan, half, c.stage.sig) else Orphan.Told(c.stage.plan, half)), [])
  {
    hide Transition, Encode;
    assert w.log + [] == w.log;
  }

  lemma Tells(h: Hashes, w: World, side: Role, id: nat, c: Orphan.Call)
    requires id in NodeOf(w, side).calls && NodeOf(w, side).calls[id] == c && c.stage.Saved? && c.stage.sig == SIG
    requires NodeOf(w, side).row.Some? && NodeOf(w, side).row.value in NodeOf(w, side).hist
    ensures MayRecover(w, side, id, Orphan.Tell)
    ensures var x := RecoveryStepped(h, w, side, id, Orphan.Tell);
            && Becomes(w, x, side, NodeOf(w, side).row.value, id, c.(stage := Orphan.Told(c.stage.plan, c.stage.half)), [])
            && Packet(Other(side), OrphanRequest(c.row.meta.fundingId, c.row.meta.fundingVout, SIG, c.rate)) in x.net
  {
    assert w.log + [] == w.log;
  }

  lemma Publishes(h: Hashes, w: World, side: Role, id: nat, c: Orphan.Call)
    requires id in NodeOf(w, side).calls && NodeOf(w, side).calls[id] == c && c.stage.Told? && c.row.role == side
    requires Orphan.BothSigned(c.stage.half.meta) && |c.stage.plan.tx.ins| == 1
    requires NodeOf(w, side).row.Some? && NodeOf(w, side).row.value in NodeOf(w, side).hist
    ensures MayRecover(w, side, id, Orphan.Publish)
    ensures Becomes(w, RecoveryStepped(h, w, side, id, Orphan.Publish), side, NodeOf(w, side).row.value, id,
                    c.(stage := Orphan.Published(c.stage.plan, c.stage.half)), [PublishedRecovery(side, Orphan.RecoveryTx(c.stage.half.meta, c.stage.plan))])
  {
    hide Orphan.RecoveryTx;
  }

  function HeardCall(row: Row, msg: Msg): Orphan.Call
    requires Orphan.IsOrphanMessage(msg)
  {
    Orphan.Call(row, msg.rate, Some(msg), Orphan.Heard)
  }

  lemma Hears(h: Hashes, w: World, side: Role, id: nat, msg: Msg)
    requires NodeOf(w, side).row.Some? && NodeOf(w, side).row.value in NodeOf(w, side).hist && id !in NodeOf(w, side).calls
    requires Orphan.IsOrphanMessage(msg) && msg.rate > 0 && Packet(side, msg) in w.net
    requires Orphan.CheckOrphanMessage(NodeOf(w, side).row.value, NodeOf(w, Other(side)).pub, msg).None?
    ensures var op := Orphan.Hear(NodeOf(w, Other(side)).pub, msg);
            && MayRecover(w, side, id, op)
            && Becomes(w, RecoveryStepped(h, w, side, id, op), side, NodeOf(w, side).row.value, id, HeardCall(NodeOf(w, side).row.value, msg), [])
  {
    hide Orphan.CheckOrphanMessage;
    assert w.log + [] == w.log;
  }

  lemma SavesHeard(h: Hashes, w: World, side: Role, id: nat, c: Orphan.Call, now: int, r: Row)
    requires id in NodeOf(w, side).calls && NodeOf(w, side).calls[id] == c && c.stage.Heard? && c.row.role == side
    requires c.msg.Some? && Orphan.IsOrphanMessage(c.msg.value) && NodeOf(w, side).row.Some?
    requires Transition(NodeOf(w, side).row.value, Orphan.ProgressState(c.row.state),
                        Encode(Orphan.WithSig(c.row.meta, Other(side), c.msg.value.sig).(orphanRate := c.rate)), now) == Ok(r)
    requires Orphan.PlanRecovery(r, c.rate).Ok?
    ensures MayRecover(w, side, id, Orphan.SaveHeard(now))
    ensures Becomes(w, RecoveryStepped(h, w, side, id, Orphan.SaveHeard(now)), side, r, id,
                    c.(row := r, stage := Orphan.Planned(Orphan.PlanRecovery(r, c.rate).value)), [])
  {
    hide Transition, Encode, Orphan.PlanRecovery;
    assert w.log + [] == w.log;
  }

  // ---- Pieces of a run ------------------------------------------------------------------------

  lemma BecomesTwice(w: World, x: World, y: World, side: Role, row: Row, id: nat, c: Orphan.Call, events: seq<LndEvent>,
                     row': Row, c': Orphan.Call, events': seq<LndEvent>)
    requires Becomes(w, x, side, row, id, c, events) && Becomes(x, y, side, row', id, c', events')
    ensures Becomes(w, y, side, row', id, c', events + events')
  {
    assert w.log + events + events' == w.log + (events + events');
  }

  // The call that has signed, and the event of its signature.
  function SignedCall(row: Row, asked: int): Orphan.Call
    requires Orphan.PlanRecovery(row, asked).Ok?
  {
    AskedCall(row, asked).(stage := Orphan.Ready(Orphan.PlanRecovery(row, asked).value, SIG))
  }

  function Signature(row: Row, asked: int): LndEvent
    requires Orphan.PlanRecovery(row, asked).Ok?
  {
    SignatureOver(row.role, Orphan.PlanRecovery(row, asked).value, LocalKey(row.role, row.meta).pub)
  }

  // The operator of a side asks for a recovery, and its LND signs.
  lemma AskAndSign(h: Hashes, w: World, calm: bool, before: seq<Step>, x: World, side: Role, row: Row, asked: int)
    returns (steps: seq<Step>, y: World)
    requires Goes(h, w, calm, before, x)
    requires NodeOf(x, side).row == Some(row) && row in NodeOf(x, side).hist && NodeOf(x, side).calls == map[] && row.role == side
    requires asked > 0 && Orphan.MayAsk(row, asked) && Orphan.PlanRecovery(row, asked).Ok? && Orphan.SigOf(row.meta, side) == []
    ensures Goes(h, w, calm, steps, y)
    ensures Becomes(x, y, side, row, 0, SignedCall(row, asked), [Signature(row, asked)])
  {
    hide Goes, MayRecover, RecoveryStepped, Orphan.MayAsk, Orphan.PlanRecovery, Becomes;
    Asks(h, x, side, 0, asked);
    var y1 := RecoveryStepped(h, x, side, 0, Orphan.Ask(asked));
    steps := Then(h, w, calm, before, x, side, 0, Orphan.Ask(asked));
    var c := AskedCall(row, asked);
    NowCalls(x, y1, side, row, 0, c, []);
    Signs(h, y1, side, 0, c);
    y := RecoveryStepped(h, y1, side, 0, Orphan.Sign(RAW_SIG));
    steps := Then(h, w, calm, steps, y1, side, 0, Orphan.Sign(RAW_SIG));
    BecomesTwice(x, y1, y, side, row, 0, c, [], row, SignedCall(row, asked), [Signature(row, asked)]);
    assert [] + [Signature(row, asked)] == [Signature(row, asked)];
  }

  lemma NowCalls(w: World, x: World, side: Role, row: Row, id: nat, c: Orphan.Call, events: seq<LndEvent>)
    requires Becomes(w, x, side, row, id, c, events)
    ensures var k := NodeOf(x, side); k.row == Some(row) && row in k.hist && id in k.calls && k.calls[id] == c
  {
  }

  // The call records its signature and tells the peer.
  lemma SaveAndTell(h: Hashes, w: World, calm: bool, before: seq<Step>, x: World, side: Role, c: Orphan.Call, now: int, half: Row)
    returns (steps: seq<Step>, y: World)
    requires Goes(h, w, calm, before, x) && NodeOf(x, side).row.Some?
    requires 0 in NodeOf(x, side).calls && NodeOf(x, side).calls[0] == c && c.stage.Ready? && c.stage.sig == SIG && c.msg.None? && c.row.role == side
    requires Transition(NodeOf(x, side).row.value, Orphan.ProgressState(c.row.state),
                        Encode(Orphan.WithSig(c.row.meta.(orphanRate := c.rate), side, SIG)), now) == Ok(half)
    ensures Goes(h, w, calm, steps, y)
    ensures Becomes(x, y, side, half, 0, c.(stage := Orphan.Told(c.stage.plan, half)), [])
    ensures Packet(Other(side), OrphanRequest(c.row.meta.fundingId, c.row.meta.fundingVout, SIG, c.rate)) in y.net
  {
    hide Goes, MayRecover, RecoveryStepped, Transition, Encode, Becomes;
    Saves(h, x, side, 0, c, now, half);
    var y1 := RecoveryStepped(h, x, side, 0, Orphan.SaveSigned(now));
    steps := Then(h, w, calm, before, x, side, 0, Orphan.SaveSigned(now));
    var c1 := c.(stage := Orphan.Saved(c.stage.plan, half, SIG));
    NowCalls(x, y1, side, half, 0, c1, []);
    Tells(h, y1, side, 0, c1);
    y := RecoveryStepped(h, y1, side, 0, Orphan.Tell);
    steps := Then(h, w, calm, steps, y1, side, 0, Orphan.Tell);
    BecomesTwice(x, y1, y, side, half, 0, c1, [], half, c.(stage := Orphan.Told(c.stage.plan, half)), []);
    assert NO_EVENTS + NO_EVENTS == NO_EVENTS;
  }

  // A node hears the peer's signature and records it.
  lemma HearAndSave(h: Hashes, w: World, calm: bool, before: seq<Step>, x: World, side: Role, id: nat, row: Row, msg: Msg, now: int, r: Row)
    returns (steps: seq<Step>, y: World)
    requires Goes(h, w, calm, before, x) && NodeOf(x, side).row == Some(row) && row in NodeOf(x, side).hist && row.role == side
    requires id !in NodeOf(x, side).calls && (calm ==> NodeOf(x, side).calls == map[])
    requires Orphan.IsOrphanMessage(msg) && msg.rate > 0 && Packet(side, msg) in x.net
    requires Orphan.CheckOrphanMessage(row, NodeOf(x, Other(side)).pub, msg).None?
    requires Transition(row, Orphan.ProgressState(row.state), Encode(Orphan.WithSig(row.meta, Other(side), msg.sig).(orphanRate := msg.rate)), now) == Ok(r)
    requires Orphan.PlanRecovery(r, msg.rate).Ok?
    ensures Goes(h, w, calm, steps, y)
    ensures Becomes(x, y, side, r, id, Orphan.Call(r, msg.rate, Some(msg), Orphan.Planned(Orphan.PlanRecovery(r, msg.rate).value)), [])
  {
    hide Goes, MayRecover, RecoveryStepped, Transition, Encode, Becomes, Orphan.PlanRecovery, Orphan.CheckOrphanMessage;
    var hear := Orphan.Hear(NodeOf(x, Other(side)).pub, msg);
    Hears(h, x, side, id, msg);
    var y1 := RecoveryStepped(h, x, side, id, hear);
    steps := Then(h, w, calm, before, x, side, id, hear);
    var c := HeardCall(row, msg);
    NowCalls(x, y1, side, row, id, c, []);
    SavesHeard(h, y1, side, id, c, now, r);
    y := RecoveryStepped(h, y1, side, id, Orphan.SaveHeard(now));
    steps := Then(h, w, calm, steps, y1, side, id, Orphan.SaveHeard(now));
    BecomesTwice(x, y1, y, side, row, id, c, [], r, c.(row := r, stage := Orphan.Planned(Orphan.PlanRecovery(r, msg.rate).value)), []);
    assert NO_EVENTS + NO_EVENTS == NO_EVENTS;
  }

  // The stuck open, reached without recovery calls.
  lemma GetsStuck(h: Hashes, calm: bool) returns (steps: seq<Step>, w: World)
    requires HashWidths(h)
    ensures Goes(h, Start(true), calm, steps, w) && Stuck(h, w)
    ensures forall e :: e in w.log ==> !e.SignedRaw?
  {
    hide CanRun, Run, Stuck;
    steps, w := InitiatorGetsStuck(h, true);
    RecoveryRuns.RunAddsNoRecovery(h, Start(true), steps);
  }

  lemma StartsHonest(h: Hashes, steps: seq<Step>, x: World, calm: bool)
    requires HashWidths(h) && Goes(h, Start(true), calm, steps, x)
    ensures HonestRun(h, Start(true), steps) && (calm ==> CalmRun(h, Start(true), steps)) && Run(h, Start(true), steps) == x
  {
    hide CanRun, Run, CalmRun;
    assert Starts(Start(true));
  }

  // ---- A recovery that goes well ----------------------------------------------------------------

  // The initiator's row once its signature at this rate is recorded, alone or over another.
  function InitiatorHalf(h: Hashes, rate: int, accSig: Bytes, now: int): Row {
    StuckRow(h).(updatedAt := now, meta := StuckRow(h).meta.(orphanRate := rate, initSig := SIG, accSig := accSig))
  }

  // The accepter's row once signatures at this rate are recorded.
  function AccepterHalf(h: Hashes, state: State, rate: int, initSig: Bytes, accSig: Bytes, now: int): Row {
    SignedRow(h, state, now).(meta := SignedMeta(h).(orphanRate := rate, initSig := initSig, accSig := accSig))
  }

  lemma InitiatorRecords(h: Hashes, rate: int, now: int)
    requires HashWidths(h) && rate > 0
    ensures Transition(StuckRow(h), RecoveryRequired, Encode(Orphan.WithSig(StuckRow(h).meta.(orphanRate := rate), Initiator, SIG)), now)
            == Ok(InitiatorHalf(h, rate, [], now))
  {
    StuckDocsAreRecoverable(h);
    hide SignedMeta, BuildDualFundingPlan;
  }

  lemma AccepterHears(h: Hashes, rate: int, now: int)
    requires HashWidths(h) && rate > 0
    ensures var r := SignedRow(h, HalfSigned, 5);
            Transition(r, HalfSigned, Encode(Orphan.WithSig(r.meta, Initiator, SIG).(orphanRate := rate)), now)
            == Ok(AccepterHalf(h, HalfSigned, rate, SIG, [], now))
  {
    StuckDocsAreRecoverable(h);
    hide SignedMeta, BuildDualFundingPlan;
  }

  lemma AccepterRecords(h: Hashes, rate: int, now: int)
    requires HashWidths(h) && rate > 0
    ensures var r := AccepterHalf(h, HalfSigned, rate, SIG, [], 11);
            Transition(r, HalfSigned, Encode(Orphan.WithSig(r.meta.(orphanRate := rate), Accepter, SIG)), now)
            == Ok(AccepterHalf(h, HalfSigned, rate, SIG, SIG, now))
  {
    StuckDocsAreRecoverable(h);
    hide SignedMeta, BuildDualFundingPlan;
  }

  function Request(h: Hashes, rate: int): Msg {
    OrphanRequest(SignedMeta(h).fundingId, 0, SIG, rate)
  }

  // The initiator asks and tells; nothing else has happened.
  lemma InitiatorRequests(h: Hashes) returns (steps: seq<Step>, w: World)
    requires HashWidths(h)
    ensures Goes(h, Start(true), true, steps, w)
    ensures w.initiator.pub == INITIATOR_PUB && Packet(Accepter, Request(h, 1)) in w.net
    ensures var n := w.accepter; n.row == Some(SignedRow(h, HalfSigned, 5)) && n.row.value in n.hist && n.calls == map[]
  {
    hide Goes, Transition, Encode;
    var w0, w1;
    var row := StuckRow(h);
    steps, w0 := GetsStuck(h, true);
    StartsHonest(h, steps, w0, true);
    StuckRowsAreStored(h, steps, w0);
    StuckDocsAreRecoverable(h);
    RecoverableDocPlans(row, 1);
    InitiatorRecords(h, 1, 10);
    hide StuckRow, SignedMeta, SignedRow, Recoverable, Orphan.PlanRecovery, HonestRun;
    InitiatorMayAsk(h, 1);
    steps, w1 := AskAndSign(h, Start(true), true, steps, w0, Initiator, row, 1);
    steps, w := SaveAndTell(h, Start(true), true, steps, w1, Initiator, SignedCall(row, 1), 10, InitiatorHalf(h, 1, [], 10));
  }

  lemma InitiatorMayAsk(h: Hashes, asked: int)
    requires HashWidths(h) && asked > 0
    ensures Orphan.MayAsk(StuckRow(h), asked) && StuckRow(h).role == Initiator && StuckRow(h).cap == CAP && StuckRow(h).state == RecoveryRequired
    ensures StuckRow(h).meta.initSig == [] && StuckRow(h).meta.accSig == [] && StuckRow(h).meta.orphanRate == 0
  {
    StuckDocsAreRecoverable(h);
    hide SignedMeta;
  }

  // The rows of the stuck open are in the histories of their nodes.
  lemma StuckRowsAreStored(h: Hashes, steps: seq<Step>, w: World)
    requires HonestRun(h, Start(true), steps) && Run(h, Start(true), steps) == w && Stuck(h, w)
    ensures StuckRow(h) in w.initiator.hist && SignedRow(h, HalfSigned, 5) in w.accepter.hist
  {
    hide CanRun, Run, Starts;
    RunsAreHonest(h, Start(true), steps);
  }

  lemma AccepterMayHear(h: Hashes, rate: int)
    requires HashWidths(h) && rate in {1, 2, 3}
    ensures var r := SignedRow(h, HalfSigned, 5);
            && r.role == Accepter && r.cap == CAP && r.state == HalfSigned && r.meta == SignedMeta(h)
            && Orphan.CheckOrphanMessage(r, INITIATOR_PUB, Request(h, rate)).None?
  {
    StuckDocsAreRecoverable(h);
    hide SignedMeta;
  }

  lemma AccepterPlans(h: Hashes, state: State, rate: int, initSig: Bytes, accSig: Bytes, now: int)
    requires HashWidths(h) && rate in {1, 2, 3}
    ensures var r := AccepterHalf(h, state, rate, initSig, accSig, now);
            && r.role == Accepter && r.cap == CAP && r.state == state
            && r.meta.initSig == initSig && r.meta.accSig == accSig && r.meta.orphanRate == rate
            && Orphan.PlanRecovery(r, rate).Ok? && |Orphan.PlanRecovery(r, rate).value.tx.ins| == 1
  {
    StuckDocsAreRecoverable(h);
    hide SignedMeta;
    RecoverableDocPlans(AccepterHalf(h, state, rate, initSig, accSig, now), rate);
  }

  // The accepter hears the request, signs, and has both signatures.
  lemma AccepterAnswers(h: Hashes) returns (steps: seq<Step>, w: World, plan: OrphanPlan)
    requires HashWidths(h)
    ensures Goes(h, Start(true), true, steps, w)
    ensures var n := w.accepter;
            && 0 in n.calls && n.row == Some(AccepterHalf(h, HalfSigned, 1, SIG, SIG, 12)) && n.row.value in n.hist
            && n.calls[0].stage == Orphan.Told(plan, AccepterHalf(h, HalfSigned, 1, SIG, SIG, 12)) && n.calls[0].row.role == Accepter
            && |plan.tx.ins| == 1
  {
    hide Goes, MayRecover, RecoveryStepped, Transition, Encode, Orphan.PlanRecovery, Orphan.CheckOrphanMessage, Becomes;
    var w0;
    steps, w0 := InitiatorRequests(h);
    AccepterMayHear(h, 1);
    AccepterHears(h, 1, 11);
    AccepterPlans(h, HalfSigned, 1, SIG, [], 11);
    AccepterRecords(h, 1, 12);
    AccepterPlans(h, HalfSigned, 1, SIG, SIG, 12);
    hide StuckRow, SignedMeta, SignedRow, AccepterHalf;
    var row, r, half := SignedRow(h, HalfSigned, 5), AccepterHalf(h, HalfSigned, 1, SIG, [], 11), AccepterHalf(h, HalfSigned, 1, SIG, SIG, 12);
    var w1;
    steps, w1 := HearAndSave(h, Start(true), true, steps, w0, Accepter, 0, row, Request(h, 1), 11, r);
    plan := Orphan.PlanRecovery(r, 1).value;
    var c := Orphan.Call(r, 1, Some(Request(h, 1)), Orphan.Planned(plan));
    NowCalls(w0, w1, Accepter, r, 0, c, []);
    Signs(h, w1, Accepter, 0, c);
    var w2 := RecoveryStepped(h, w1, Accepter, 0, Orphan.Sign(RAW_SIG));
    steps := Then(h, Start(true), true, steps, w1, Accepter, 0, Orphan.Sign(RAW_SIG));
    var c2 := c.(stage := Orphan.Ready(plan, SIG));
    NowCalls(w1, w2, Accepter, r, 0, c2, [SignatureOver(Accepter, plan, LocalKey(Accepter, r.meta).pub)]);
    Saves(h, w2, Accepter, 0, c2, 12, half);
    w := RecoveryStepped(h, w2, Accepter, 0, Orphan.SaveSigned(12));
    steps := Then(h, Start(true), true, steps, w2, Accepter, 0, Orphan.SaveSigned(12));
    NowCalls(w2, w, Accepter, half, 0, c2.(stage := Orphan.Told(plan, half)), []);
  }

  // A calm run of honest nodes in which a recovery is published.
  ghost predicate Recovers(h: Hashes, w: World, steps: seq<Step>) {
    HonestRun(h, w, steps) && CalmRun(h, w, steps) && exists e :: e in Run(h, w, steps).log && e.PublishedRecovery?
  }

  // There are such runs, whatever the hash functions.
  lemma HonestRunsRecover(h: Hashes)
    requires HashWidths(h)
    ensures exists steps: seq<Step> :: Recovers(h, Start(true), steps)
  {
    var steps, w, plan := AccepterAnswers(h);
    BothAreSigned(h);
    hide Goes, MayRecover, RecoveryStepped, AccepterHalf, HonestRun, CalmRun, CanRun, Run;
    var c := w.accepter.calls[0];
    Publishes(h, w, Accepter, 0, c);
    var x := RecoveryStepped(h, w, Accepter, 0, Orphan.Publish);
    steps := Then(h, Start(true), true, steps, w, Accepter, 0, Orphan.Publish);
    PublishedAtLast(w, x, PublishedRecovery(Accepter, Orphan.RecoveryTx(c.stage.half.meta, plan)));
    StartsHonest(h, steps, x, true);
    assert Recovers(h, Start(true), steps);
  }

  lemma PublishedAtLast(w: World, x: World, e: LndEvent)
    requires x.log == w.log + [e]
    ensures e in x.log
  {
    assert x.log[|w.log|] == e;
  }

  lemma BothAreSigned(h: Hashes)
    ensures Orphan.BothSigned(AccepterHalf(h, HalfSigned, 1, SIG, SIG, 12).meta)
    ensures forall rate, now :: Orphan.BothSigned(InitiatorHalf(h, rate, SIG, now).meta)
  {
    hide SignedMeta, StuckRow;
  }

  // ---- Two calls that overlap -----------------------------------------------------------------

  // The accepter's session once its operator has given it up.
  function CanceledRow(h: Hashes): Row {
    SignedRow(h, Canceled, 10)
  }

  lemma AccepterMayAsk(h: Hashes, asked: int)
    requires HashWidths(h) && asked in {1, 2, 3}
    ensures CancelRow(SignedRow(h, HalfSigned, 5), 10) == Ok(CanceledRow(h))
    ensures Orphan.MayAsk(CanceledRow(h), asked) && CanceledRow(h).role == Accepter && CanceledRow(h).state == Canceled
    ensures CanceledRow(h).meta == SignedMeta(h) && SignedMeta(h).accSig == [] && Orphan.PlanRecovery(CanceledRow(h), asked).Ok?
    ensures var p := Orphan.PlanRecovery(CanceledRow(h), asked).value; |p.tx.outs| == 2 && p.tx.outs[0].value == Share(asked)
  {
    StuckDocsAreRecoverable(h);
    assert SignedMeta(h).orphanRate == 0;
    hide SignedMeta;
    RecoverableDocPlans(CanceledRow(h), asked);
  }

  lemma CanceledRecords(h: Hashes, rate: int, now: int)
    requires HashWidths(h) && rate > 0
    ensures var r := CanceledRow(h);
            Transition(r, Recovered, Encode(Orphan.WithSig(r.meta.(orphanRate := rate), Accepter, SIG)), now)
            == Ok(AccepterHalf(h, Recovered, rate, [], SIG, now))
  {
    StuckDocsAreRecoverable(h);
    assert SignedMeta(h).initSig == [];
    hide SignedMeta, BuildDualFundingPlan;
  }

  // The initiator's row once it has heard the accepter's signature.
  function HeardRow3(h: Hashes): Row {
    StuckRow(h).(updatedAt := 12, meta := StuckRow(h).meta.(orphanRate := 3, accSig := SIG))
  }

  lemma InitiatorHearsThree(h: Hashes)
    requires HashWidths(h)
    ensures var r, msg := StuckRow(h), Request(h, 3);
            && Orphan.CheckOrphanMessage(r, ACCEPTER_PUB, msg).None?
            && Transition(r, RecoveryRequired, Encode(Orphan.WithSig(r.meta, Accepter, SIG).(orphanRate := 3)), 12) == Ok(HeardRow3(h))
            && Orphan.PlanRecovery(HeardRow3(h), 3).Ok?
  {
    StuckDocsAreRecoverable(h);
    hide SignedMeta, BuildDualFundingPlan;
    RecoverableDocPlans(HeardRow3(h), 3);
  }

  // Over that row the initiator's other call records its own rate.
  lemma InitiatorRecordsOver(h: Hashes)
    requires HashWidths(h)
    ensures Transition(HeardRow3(h), RecoveryRequired, Encode(Orphan.WithSig(StuckRow(h).meta.(orphanRate := 2), Initiator, SIG)), 13)
            == Ok(InitiatorHalf(h, 2, SIG, 13))
  {
    StuckDocsAreRecoverable(h);
    hide SignedMeta, BuildDualFundingPlan;
  }

  // The initiator's call has signed at rate 2; the accepter's has, at rate 3, and told.
  lemma BothAsk(h: Hashes) returns (steps: seq<Step>, w: World)
    requires HashWidths(h)
    ensures Goes(h, Start(true), false, steps, w) && w.initiator.pub == INITIATOR_PUB && w.accepter.pub == ACCEPTER_PUB
    ensures var n := w.initiator;
            && n.row == Some(StuckRow(h)) && n.row.value in n.hist
            && Orphan.PlanRecovery(StuckRow(h), 2).Ok? && n.calls == map[0 := SignedCall(StuckRow(h), 2)]
    ensures Packet(Initiator, Request(h, 3)) in w.net
    ensures forall e :: e in w.log && e.SignedRaw? && e.side == Accepter ==> |e.tx.outs| == 2 && e.tx.outs[0].value == Share(3)
  {
    hide Goes, MayRecover, RecoveryStepped, Transition, Encode, Orphan.PlanRecovery, CancelRow, HonestRun, Enabled, Apply;
    var w0, w1, w2, w3;
    var row, canceled := StuckRow(h), CanceledRow(h);
    steps, w0 := GetsStuck(h, false);
    StartsHonest(h, steps, w0, false);
    StuckRowsAreStored(h, steps, w0);
    InitiatorMayAsk(h, 2);
    StuckDocsAreRecoverable(h);
    RecoverableDocPlans(row, 2);
    steps, w1 := AskAndSign(h, Start(true), false, steps, w0, Initiator, row, 2);
    AccepterMayAsk(h, 3);
    steps, w2 := AccepterCancels(h, steps, w1);
    hide StuckRow, SignedMeta, CanceledRow, SignedRow, Recoverable;
    steps, w3 := AskAndSign(h, Start(true), false, steps, w2, Accepter, canceled, 3);
    CanceledRecords(h, 3, 11);
    steps, w := SaveAndTell(h, Start(true), false, steps, w3, Accepter, SignedCall(canceled, 3), 11, AccepterHalf(h, Recovered, 3, [], SIG, 11));
    assert w.log == w0.log + [Signature(row, 2)] + [Signature(canceled, 3)] + NO_EVENTS;
  }

  lemma AccepterCancels(h: Hashes, before: seq<Step>, w: World) returns (steps: seq<Step>, x: World)
    requires Goes(h, Start(true), false, before, w) && w.accepter.row == Some(SignedRow(h, HalfSigned, 5))
    requires CancelRow(SignedRow(h, HalfSigned, 5), 10) == Ok(CanceledRow(h))
    ensures Goes(h, Start(true), false, steps, x) && x == StoredRow(w, Accepter, CanceledRow(h))
  {
    hide CancelRow, SignedRow, CanceledRow, Goes;
    var cancel := Step.CancelSession(Accepter, 10);
    x := StoredRow(w, Accepter, CanceledRow(h));
    assert Enabled(h, w, cancel) && Apply(h, w, cancel) == x;
    hide Enabled, Apply;
    ThenStep(h, Start(true), false, before, w, cancel);
    steps := before + [cancel];
  }

  // The initiator hears the accepter's signature at rate 3 while its own call at rate 2 is
  // unfinished; that call then records its rate, and publishes.
  lemma InitiatorOverwrites(h: Hashes) returns (steps: seq<Step>, w: World, tx: Tx)
    requires HashWidths(h)
    ensures Goes(h, Start(true), false, steps, w)
    ensures RateChanges(w.initiator, 3, 2)
    ensures PublishedRecovery(Initiator, tx) in w.log && |tx.ins| == 1 && |tx.outs| == 2 && tx.outs[0].value == Share(2)
    ensures forall e :: e in w.log && e.SignedRaw? && e.side == Accepter ==> |e.tx.outs| == 2 && e.tx.outs[0].value == Share(3)
  {
    hide Goes, MayRecover, RecoveryStepped, Transition, Encode, Orphan.PlanRecovery, Orphan.CheckOrphanMessage;
    var w0, w1, w2;
    var row, heard, half := StuckRow(h), HeardRow3(h), InitiatorHalf(h, 2, SIG, 13);
    steps, w0 := BothAsk(h);
    InitiatorMayAsk(h, 2);
    StuckDocsAreRecoverable(h);
    RecoverableDocPlans(row, 2);
    InitiatorHearsThree(h);
    InitiatorRecordsOver(h);
    BothAreSigned(h);
    assert heard.meta.orphanRate == 3 && half.meta.orphanRate == 2;
    hide StuckRow, SignedMeta, Recoverable, HeardRow3, InitiatorHalf, Orphan.RecoveryTx;
    steps, w1 := HearAndSave(h, Start(true), false, steps, w0, Initiator, 1, row, Request(h, 3), 12, heard);
    var c := SignedCall(row, 2);
    assert heard in w1.initiator.hist;
    steps, w2 := SaveAndTell(h, Start(true), false, steps, w1, Initiator, c, 13, half);
    var c1 := c.(stage := Orphan.Told(c.stage.plan, half));
    NowCalls(w1, w2, Initiator, half, 0, c1, []);
    Publishes(h, w2, Initiator, 0, c1);
    w := RecoveryStepped(h, w2, Initiator, 0, Orphan.Publish);
    steps := Then(h, Start(true), false, steps, w2, Initiator, 0, Orphan.Publish);
    tx := Orphan.RecoveryTx(half.meta, c.stage.plan);
    PublishedAtLast(w2, w, PublishedRecovery(Initiator, tx));
    RecoveryOuts(half.meta, c.stage.plan);
    assert w.log == w0.log + NO_EVENTS + NO_EVENTS + [PublishedRecovery(Initiator, tx)];
  }

  lemma RecoveryOuts(m: Meta, p: OrphanPlan)
    requires |p.tx.ins| == 1
    ensures Orphan.RecoveryTx(m, p).outs == p.tx.outs
  {
  }

  // No output, whatever its script and value, is spent with these signatures.
  ghost predicate Rejected(log: seq<LndEvent>, tx: Tx) {
    |tx.ins| == 1 && forall script, sat :: !BothSignaturesFit(log, tx, script, sat)
  }

  // A recovery paying other amounts than all the accepter has signed is not accepted.
  lemma MismatchIsRejected(log: seq<LndEvent>, tx: Tx)
    requires |tx.ins| == 1 && |tx.outs| == 2 && tx.outs[0].value == Share(2)
    requires forall e :: e in log && e.SignedRaw? && e.side == Accepter ==> |e.tx.outs| == 2 && e.tx.outs[0].value == Share(3)
    ensures Rejected(log, tx)
  {
    assert WithoutWitness(tx).outs == tx.outs;
    hide MultisigChecks, WithoutWitness;
  }

  // Runs of honest nodes in which the rate of a node changes, and a recovery is published
  // whose signatures CHECKMULTISIG rejects.
  ghost predicate Mismatches(h: Hashes, w: World, steps: seq<Step>) {
    && HonestRun(h, w, steps)
    && RateChanges(Run(h, w, steps).initiator, 3, 2)
    && exists e :: e in Run(h, w, steps).log && e.PublishedRecovery? && Rejected(Run(h, w, steps).log, e.tx)
  }

  lemma OverlappingRecoveriesMismatch(h: Hashes)
    requires HashWidths(h)
    ensures exists steps: seq<Step> :: Mismatches(h, Start(true), steps)
  {
    hide Goes, CanRun, Run, Rejected, RateChanges;
    var steps, w, tx := InitiatorOverwrites(h);
    StartsHonest(h, steps, w, false);
    MismatchIsRejected(w.log, tx);
    assert PublishedRecovery(Initiator, tx) in Run(h, Start(true), steps).log;
    assert Mismatches(h, Start(true), steps);
  }
}
