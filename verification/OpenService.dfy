// The service of one node as the source has it: methods that read the stored session,
// ask LND, write and send, while anything else may happen in between. Each of these
// methods extends a run of the state machine, so what is proved of all runs holds of it:
// the operator's propose, accept, execute, retry and cancel, the recovery of an orphaned
// output, the handlers of messages, and the promotion of a session by the reconcile loop.
module OpenService {
  import opened Prelude
  import opened Bitcoin
  import opened Session
  import opened FundingPlan
  import opened Lnd
  import opened OpenWorld
  import opened OpenHistory
  import opened OpenSafety
  import Orphan = OrphanRecovery

  predicate IsOperatorOf(side: Role, step: Step) {
    && step.Operate?
    && match step.op
       case Begin(s) => s == side
       case Fund(s, _, _, _) => s == side
       case Countersign(_) => side == Accepter
       case Save(s, _, _) => s == side
       case Send(s) => s == side
       case End(s) => s == side
  }

  // Only a node's own operator calls touch its frame.
  lemma OthersKeepTheFrame(h: Hashes, w: World, side: Role, step: Step)
    requires Enabled(h, w, step) && !IsOperatorOf(side, step)
    ensures NodeOf(Apply(h, w, step), side).frame == NodeOf(w, side).frame
  {
    hide Transition, UpsertFromProposal, CancelRow, Orphan.NextState, Orphan.PatchOf, Orphan.Written, Orphan.Refused, Orphan.EventsOf,
         Orphan.SentBy, Orphan.Continued, Orphan.Asked, Orphan.Listening, HearAccept, BuildDualFundingPlan, HasPlan, PlanOf, PatchOf, EventOf, CountersignedMeta, CountersignEvents, FundedArtifacts, MayUpdate;
  }

  lemma RunThenStep(h: Hashes, w: World, steps: seq<Step>, step: Step)
    requires CanRun(h, w, steps) && Enabled(h, Run(h, w, steps), step)
    ensures CanRun(h, w, steps + [step]) && Run(h, w, steps + [step]) == Apply(h, Run(h, w, steps), step)
  {
    hide Apply, Enabled, CanRun, Run;
    OneStep(h, Run(h, w, steps), step);
    RunsCompose(h, w, steps, [step]);
  }

  lemma RoleOfRow(h: Hashes, w: World, side: Role)
    requires Safe(h, w)
    ensures NodeOf(w, side).frame.Some? ==> NodeOf(w, side).row.Some?
    ensures NodeOf(w, side).row.Some? ==> NodeOf(w, side).row.value.role == side && NodeOf(w, side).row.value in NodeOf(w, side).hist
  {
    var n := NodeOf(w, side);
    if n.row.Some? {
      assert RowSafe(h, w.log, side, n.row.value);
    }
  }

  // A write failed because the session had been closed by then.
  predicate Closed(w: World, side: Role, e: Error) {
    e == TerminalState && NodeOf(w, side).row.Some? && NodeOf(w, side).row.value.state in {Active, Failed, Canceled, Recovered}
  }

  lemma NoTransitionFromClosed(r: Row, next: State, p: Patch, now: int)
    ensures var t := Transition(r, next, p, now); t.Err? ==> t.error == TerminalState && r.state in {Active, Failed, Canceled, Recovered}
  {
  }

  // The node's own share of the funding cannot be worked out, or is nothing.
  predicate NoShare(row: Row) {
    row.cap < 20000 || row.cap % 2 != 0 || TransitContribution(row.cap, EffectiveFeeRate(row.fee)).value <= 0
  }

  lemma NoShareMeans(row: Row)
    ensures var c := TransitContribution(row.cap, EffectiveFeeRate(row.fee));
            (c.Err? || c.value <= 0 <==> NoShare(row)) && (c.Err? ==> c.error == InvalidCapacity)
  {
  }

  lemma TransitionKeepsRole(r: Row, next: State, p: Patch, now: int)
    ensures var t := Transition(r, next, p, now); t.Ok? ==> t.value.role == r.role && t.value.state == next
  {
  }

  // The keys LND derives and the output it pays to.
  datatype FundingAnswer = FundingAnswer(multisig: KeyDesc, transitKey: KeyDesc, at: OutPoint)

  predicate WellFormed(a: FundingAnswer) {
    IsPubkey(a.multisig.pub) && IsPubkey(a.transitKey.pub) && IsTxid(a.at.txid)
  }

  datatype ProposeAnswers = ProposeAnswers(budgetOk: bool, transitBudgetOk: bool, funding: Option<FundingAnswer>, connectOk: bool, sendOk: bool)

  // Why a proposal may fail: not enough coins, LND or the peer does not answer, or the terms
  // leave no share to fund.
  predicate ProposeFails(a: ProposeAnswers, row: Row, e: Error) {
    match e
    case InsufficientOnchain => !a.budgetOk || !a.transitBudgetOk
    case LndFailure => a.funding.None? || !a.connectOk || !a.sendOk || NoShare(row)
    case InvalidCapacity => NoShare(row)
    case _ => false
  }

  // The checks an operator call starts with.
  function Refusal(side: Role, row: Option<Row>): Option<Error> {
    if row.None? then Some(NotFound)
    else if IsTerminal(row.value.state) then Some(TerminalState)
    else if !MayOperate(side, row.value) then Some(InvalidAction)
    else None
  }

  // A proposal tells what the initiator's document records of its key and output.
  predicate Announces(msg: Msg, m: Meta)
    requires msg.Proposal?
  {
    m.mode == PushMode ||
    (msg.mode == DualMode && msg.pub == m.initKey.pub &&
     Transit(msg.txid, msg.vout, msg.sat, msg.script, m.initTransit.key) == m.initTransit)
  }

  // A row that records a proposal sent, with the proposal among the messages.
  ghost predicate Proposed(w: World, r: Row) {
    && r in w.initiator.hist && r.state == ProposalSent
    && (r.meta.mode == PushMode || InitiatorReady(r.meta))
    && exists p :: p in w.net && p.to == Accepter && p.msg.Proposal? && Announces(p.msg, r.meta)
  }

  lemma ProposalAnnounces(stored: Row, f: Frame, now: int)
    requires f.meta.mode == PushMode || InitiatorReady(f.meta)
    requires Transition(stored, ProposalSent, Encode(f.meta), now).Ok?
    ensures var m := Transition(stored, ProposalSent, Encode(f.meta), now).value.meta;
            && (m.mode == PushMode || InitiatorReady(m))
            && ProposalOf(f.row, f.meta).Proposal? && Announces(ProposalOf(f.row, f.meta), m)
  {
  }

  lemma DeliveredLasts(w: World, x: World, side: Role, sender: Bytes, msg: Msg)
    requires Delivered(w, side, sender, msg) && Later(w, x)
    ensures Delivered(x, side, sender, msg)
  {
  }

  // What an accept of a dual-funded session brings, as the document records it. The session
  // is one if the accept says so, or if it says nothing and the session's own document does.
  predicate BroughtBy(msg: Msg, mode: Mode, m: Meta)
    requires msg.Accept?
  {
    msg.mode == DualMode || (msg.mode == NoMode && mode == DualMode) ==>
      && m.mode == DualMode && m.accKey == KeyDesc(msg.pub, 0, 0) && m.accStack == msg.stack
      && m.accTransit == Transit(msg.txid, msg.vout, msg.sat, msg.script, NO_KEY)
  }

  lemma HeardIsRecorded(h: Hashes, w: World, side: Role, row: Row, sender: Bytes, msg: Msg, now: int)
    requires msg.Accept? && MayUpdate(h, w, HeardAccept(side, row, sender, msg, now))
    ensures forall stored: Row, next ::
              var t := Transition(stored, next, PatchOf(h, w, HeardAccept(side, row, sender, msg, now)), now);
              t.Ok? ==> BroughtBy(msg, row.meta.mode, t.value.meta)
  {
    AcceptIsHeard(h, row, sender, msg);
    hide HearAccept;
  }

  datatype AcceptAnswers = AcceptAnswers(budgetOk: bool, transitBudgetOk: bool, funding: Option<FundingAnswer>,
                                         signed: Option<seq<Bytes>>, shimOk: bool, connectOk: bool, sendOk: bool)

  // An empty witness is an error of the signing call.
  predicate AnswersWellFormed(a: AcceptAnswers) {
    (a.funding.Some? ==> WellFormed(a.funding.value)) && (a.signed.Some? ==> a.signed.value != [])
  }

  // Why an accept may fail.
  predicate AcceptFails(a: AcceptAnswers, row: Row, e: Error) {
    match e
    case InsufficientOnchain => !a.budgetOk || !a.transitBudgetOk
    case LndFailure => a.funding.None? || a.signed.None? || !a.shimOk || !a.connectOk || !a.sendOk || NoShare(row)
    case InvalidCapacity => NoShare(row)
    case MissingArtifacts => !HeardProposal(row.meta)
    case _ => false
  }

  // An accept tells what the accepter's document records of its key, output and witness.
  predicate Accepts(msg: Msg, m: Meta)
    requires msg.Accept?
  {
    m.mode != DualMode ||
    (AccepterReady(m) && msg.mode == DualMode && msg.pub == m.accKey.pub && msg.stack == m.accStack &&
     Transit(msg.txid, msg.vout, msg.sat, msg.script, m.accTransit.key) == m.accTransit)
  }

  // A row that records an accept sent, with the accept among the messages.
  ghost predicate Agreed(w: World, r: Row) {
    && r in w.accepter.hist && r.state == Accepted
    && exists p, m: Meta :: p in w.net && p.to == Initiator && p.msg.Accept? && Accepts(p.msg, m) &&
                            (m.mode == DualMode ==> m.accKey == r.meta.accKey && m.accTransit == r.meta.accTransit && m.accStack == r.meta.accStack)
  }

  lemma AcceptTells(stored: Row, f: Frame, now: int)
    requires f.meta.mode == DualMode ==> AccepterReady(f.meta)
    requires Transition(stored, Accepted, Encode(f.meta), now).Ok?
    ensures var m := Transition(stored, Accepted, Encode(f.meta), now).value.meta;
            && AcceptOf(f.meta).Accept? && Accepts(AcceptOf(f.meta), f.meta)
            && (f.meta.mode == DualMode ==> m.accKey == f.meta.accKey && m.accTransit == f.meta.accTransit && m.accStack == f.meta.accStack)
  {
  }

  lemma FundedMayDerive(h: Hashes, cap: int, m: Meta)
    requires AccepterFunded(m) && HeardProposal(m)
    ensures WithFunding(h, cap, m).Ok?
  {
  }

  lemma CountersignedIsReady(h: Hashes, f: Frame, signed: Option<seq<Bytes>>)
    requires CanCountersign(h, f) && (signed.Some? ==> signed.value != [])
    ensures var m := CountersignedMeta(h, f, signed);
            m.mode == DualMode && AccepterFunded(m) && (signed.Some? ==> AccepterReady(m))
  {
  }

  datatype ExecuteAnswers = ExecuteAnswers(budgetOk: bool, connectOk: bool, signed: Option<seq<Bytes>>, shimOk: bool,
                                           channel: Option<PointText>, published: bool, observed: bool)

  // A failed execution leaves the session in need of recovery, unless it has been closed.
  predicate LeftForRecovery(w: World) {
    w.initiator.row.Some? && w.initiator.row.value.state in {RecoveryRequired, Active, Failed, Canceled, Recovered}
  }

  // Why an execution may fail.
  predicate ExecuteFails(h: Hashes, a: ExecuteAnswers, row: Row, e: Error) {
    match e
    case InsufficientOnchain => !a.budgetOk
    case LndFailure => !a.connectOk || a.signed.None? || !a.shimOk || a.channel.None? || (!a.published && !a.observed)
    case PointMismatch => HasPlan(h, row) && a.channel.Some? && IsMismatch(OutPoint(PlanOf(h, row).txid, 0), a.channel.value)
    case _ => row.meta.mode == DualMode && CheckExecuteArtifacts(row.cap, ExecuteMeta(h, row.meta)) == Some(e)
  }

  function ExecuteRefusal(row: Option<Row>): Option<Error> {
    if row.None? then Some(NotFound)
    else if IsTerminal(row.value.state) then Some(TerminalState)
    else if !IsExecutable(row.value) then Some(InvalidAction)
    else None
  }

  function RetryRefusal(row: Option<Row>): Option<Error> {
    if row.None? then Some(NotFound)
    else if IsTerminal(row.value.state) then Some(TerminalState)
    else if !CanRebroadcast(row.value) then Some(InvalidAction)
    else None
  }

  // The recorded transaction was published after LND acknowledged the channel it funds.
  ghost predicate CommittedAndBroadcast(h: Hashes, log: seq<LndEvent>, m: Meta) {
    && m.fundingTx.Some? && PublishedFunding(Initiator, m.fundingTx.value) in log
    && AckedBefore(log, |log|, TxId(h, m.fundingTx.value))
  }

  lemma ChecksMakeAPlan(h: Hashes, r: Row)
    requires IsExecutable(r) && CheckExecuteArtifacts(r.cap, ExecuteMeta(h, r.meta)) == None
    ensures HasPlan(h, r)
  {
  }

  lemma PushOpensAt(h: Hashes, w: World, row: Row, actual: PointText, now: int)
    requires row in w.initiator.hist && IsExecutable(row) && row.meta.mode != DualMode
    ensures forall stored: Row, next ::
              var t := Transition(stored, next, PatchOf(h, w, PushOpened(row, actual, now)), now); t.Ok? ==> t.value.meta.channelPoint == actual
  {
  }

  // ... once the open has been asked of LND.
  predicate OpeningFails(h: Hashes, a: ExecuteAnswers, row: Row, e: Error)
    requires HasPlan(h, row)
  {
    || (e == LndFailure && (!a.connectOk || a.signed.None? || !a.shimOk || a.channel.None? || (!a.published && !a.observed)))
    || (e == PointMismatch && a.channel.Some? && IsMismatch(OutPoint(PlanOf(h, row).txid, PlanOf(h, row).vout), a.channel.value))
  }

  lemma OpeningFailureFails(h: Hashes, a: ExecuteAnswers, row: Row)
    requires HasPlan(h, row)
    ensures forall e :: OpeningFails(h, a, row, e) ==> ExecuteFails(h, a, row, e)
  {
    assert PlanOf(h, row).vout == 0;
    hide CheckExecuteArtifacts, ExecuteMeta, BuildDualFundingPlan;
  }

  lemma SubmittedHasPlan(h: Hashes, stored: Row, row: Row, now: int)
    requires HasPlan(h, row) && Transition(stored, ChannelProposed, SubmitPatch(h, row), now).Ok?
    ensures var m := Transition(stored, ChannelProposed, SubmitPatch(h, row), now).value.meta;
            && m.mode == DualMode && m.pendingId == ExecuteMeta(h, row.meta).pendingId
            && m.fundingId == PlanOf(h, row).txid && m.fundingVout == 0 && m.fundingTx == Some(PlanOf(h, row).tx)
  {
  }

  lemma SignedRowHasTx(h: Hashes, stored: Row, row: Row, stack: seq<Bytes>, actual: PointText, after: SignedWrite, now: int)
    requires HasPlan(h, row)
    ensures forall next :: var t := Transition(stored, next, SignedPatch(h, row, stack, actual, after), now);
                           t.Ok? ==> t.value.meta.fundingTx == Some(AssembledTx(h, row, stack)) && (after.BroadcastFailed? || t.value.meta.channelPoint == actual)
  {
  }

  lemma NotTerminalMoves(stored: Row, next: State, p: Patch, now: int)
    requires !IsTerminal(stored.state)
    ensures Transition(stored, next, p, now).Ok?
  {
  }

  lemma BroadcastIsCommitted(h: Hashes, w: World, row: Row, stack: seq<Bytes>, actual: PointText)
    requires HasPlan(h, row) && OpenAcknowledged(h, w, row, actual)
    requires PublishedFunding(Initiator, AssembledTx(h, row, stack)) in w.log
    ensures forall m: Meta :: m.fundingTx == Some(AssembledTx(h, row, stack)) ==> CommittedAndBroadcast(h, w.log, m)
  {
    AssembledTxIsAcked(h, w, row, stack, actual);
  }

  lemma Resites(r: Row)
    requires CanRebroadcast(r)
    ensures SiteApplies(RebroadcastFailed, r) && SiteApplies(RebroadcastObserved, r) && SiteApplies(Rebroadcasted, r)
  {
  }

  lemma RowOfUpdate(h: Hashes, w: World, u: Update)
    requires Safe(h, w) && MayUpdate(h, w, u)
    ensures NodeOf(w, SideOf(u)).row.Some?
  {
  }

  // ---- Channels ----------------------------------------------------------------------------

  // A channel as LND lists it, pending or active; whether a pending one is opening.
  datatype Channel = Channel(at: OutPoint, peer: Bytes, cap: int, opening: bool)

  // The point a session looks for: the one LND reported, else the one it negotiated.
  function Hint(m: Meta): PointText {
    if m.channelPoint != Blank then m.channelPoint
    else if IsTxid(m.fundingId) then Point(OutPoint(m.fundingId, m.fundingVout))
    else Blank
  }

  // A session that knows its point takes only that channel; one that does not, a channel
  // with its peer of its capacity.
  predicate Matches(row: Row, c: Channel) {
    if Hint(row.meta) != Blank then Hint(row.meta) == Point(c.at)
    else row.peer != [] && c.peer == row.peer && c.cap == row.cap
  }

  lemma MatchesMeans(row: Row, c: Channel)
    ensures Matches(row, c) <==>
              if row.meta.channelPoint != Blank then row.meta.channelPoint == Point(c.at)
              else if |row.meta.fundingId| == 32 then c.at == OutPoint(row.meta.fundingId, row.meta.fundingVout)
              else row.peer != [] && c.peer == row.peer && c.cap == row.cap
  {
  }

  predicate SomeMatches(row: Row, channels: seq<Channel>, pending: bool) {
    exists i :: 0 <= i < |channels| && (pending ==> channels[i].opening) && Matches(row, channels[i])
  }

  // The first match among channels that may match several times over.
  predicate IsFirstMatch(row: Row, channels: seq<Channel>, pending: bool, c: Channel) {
    exists i :: 0 <= i < |channels| && channels[i] == c && Matches(row, c) && (pending ==> c.opening)
                && forall j :: 0 <= j < i ==> !(Matches(row, channels[j]) && (pending ==> channels[j].opening))
  }

  // matchBalancedOpenPendingChannel and matchBalancedOpenActiveChannel: the first match.
  method FindChannel(row: Row, channels: seq<Channel>, pending: bool) returns (found: Option<Channel>)
    ensures found.Some? <==> SomeMatches(row, channels, pending)
    ensures found.Some? ==> IsFirstMatch(row, channels, pending, found.value)
  {
    for i := 0 to |channels|
      invariant forall j :: 0 <= j < i ==> !((pending ==> channels[j].opening) && Matches(row, channels[j]))
    {
      if (!pending || channels[i].opening) && Matches(row, channels[i]) {
        return Some(channels[i]);
      }
    }
    return None;
  }

  // canPromoteBalancedPending: in a dual-funded open the node's own output must be spent,
  // and by the funding transaction on record if there is one.
  predicate MayPromotePending(row: Row, spender: Option<Bytes>) {
    row.meta.mode == DualMode ==>
      && HasTransit(LocalTransit(row.role, row.meta), true)
      && spender.Some? && spender.value != []
      && (row.meta.fundingId != [] ==> row.meta.fundingId == spender.value)
  }

  lemma PendingNeedsTheSpend(row: Row, spender: Option<Bytes>)
    ensures MayPromotePending(row, spender) <==>
              var t := if row.role == Initiator then row.meta.initTransit else row.meta.accTransit;
              row.meta.mode != DualMode ||
              (|t.txid| == 32 && t.sat > 0 && t.script != [] && |t.key.pub| == 33 && spender.Some? && spender.value != []
               && row.meta.fundingId in {[], spender.value})
  {
  }

  // ---- Recovery calls ------------------------------------------------------------------------

  // LND's answers to a recovery call: its raw signature, whether the message went out, and
  // what became of the broadcast: taken, or already spent by a known transaction, or refused.
  datatype RecoveryAnswers = RecoveryAnswers(raw: Option<Bytes>, sendOk: bool, published: bool, spender: Option<Bytes>)

  predicate IsCallOf(side: Role, id: nat, step: Step) {
    step.Recover? && step.side == side && step.id == id
  }

  lemma OtherStepsKeepCalls(h: Hashes, w: World, side: Role, step: Step)
    requires Enabled(h, w, step) && !step.Recover?
    ensures NodeOf(Apply(h, w, step), side).calls == NodeOf(w, side).calls
  {
    hide Transition, UpsertFromProposal, CancelRow, HearAccept, BuildDualFundingPlan, HasPlan, PlanOf, PatchOf, EventOf, NextState,
         CountersignedMeta, CountersignEvents, FundedArtifacts, MayUpdate, MayCall, CanFund, CanSend, CanSave, CanCountersign;
  }

  lemma RecoveryKeepsOtherCalls(h: Hashes, w: World, side: Role, id: nat, s: Role, other: nat, op: Orphan.Op)
    requires MayRecover(w, s, other, op) && (s != side || other != id) && id in NodeOf(w, side).calls
    ensures var k := NodeOf(RecoveryStepped(h, w, s, other, op), side);
            id in k.calls && k.calls[id] == NodeOf(w, side).calls[id]
  {
    hide Transition, Orphan.NextState, Orphan.PatchOf, Orphan.Written, Orphan.Refused, Orphan.EventsOf, Orphan.SentBy, Orphan.Continued,
         Orphan.Asked, Orphan.Listening, Orphan.PlanRecovery, Orphan.CheckOrphanMessage, RecoveryWritten;
    if Orphan.IsWrite(op) {
      RecoveryWrittenCases(h, w, s, other, op);
      hide RecoveryStepped, Orphan.May, Orphan.MayAsk, Delivered;
    }
  }

  // Only a recovery call itself changes its locals.
  lemma OthersKeepTheCall(h: Hashes, w: World, side: Role, id: nat, step: Step)
    requires Enabled(h, w, step) && !IsCallOf(side, id, step) && id in NodeOf(w, side).calls
    ensures id in NodeOf(Apply(h, w, step), side).calls && NodeOf(Apply(h, w, step), side).calls[id] == NodeOf(w, side).calls[id]
  {
    hide RecoveryStepped, MayRecover;
    if step.Recover? {
      RecoveryKeepsOtherCalls(h, w, side, id, step.side, step.id, step.act);
    } else {
      hide Apply, Enabled;
      OtherStepsKeepCalls(h, w, side, step);
    }
  }

  // What a finished call has left: its rate and signature; and once both signatures were
  // there, a published recovery, on record by its id or by that of the transaction LND
  // found in its place.
  ghost predicate Recovers(h: Hashes, w: World, side: Role, rate: int, a: RecoveryAnswers, r: Row) {
    && r in NodeOf(w, side).hist && r.meta.orphanRate == rate && Orphan.SigOf(r.meta, side) != []
    && (Orphan.BothSigned(r.meta) ==>
          && r.state in {Active, Recovered}
          && exists tx :: PublishedRecovery(side, tx) in w.log && IsOutcome(h, a, tx, r.meta.orphanTxid))
  }

  predicate IsOutcome(h: Hashes, a: RecoveryAnswers, tx: Tx, txid: Bytes) {
    if a.published then txid == TxId(h, tx) else a.spender == Some(txid) && txid != []
  }

  // A signature that cannot be used is LND's fault.
  predicate SignedFrom(sig: Bytes, a: RecoveryAnswers) {
    Orphan.IsSig(sig) || RecoveryFails(a, MissingSignature)
  }

  lemma OwnSignatureFits(c: Orphan.Call, a: RecoveryAnswers, raw: Bytes)
    requires Orphan.IsSig(Orphan.SigOf(c.row.meta, c.row.role)) || a.raw == Some(raw)
    ensures SignedFrom(Orphan.LocalSig(c, raw), a)
    ensures !Orphan.IsSig(Orphan.SigOf(c.row.meta, c.row.role)) ==> Orphan.LocalSig(c, raw) == raw + [0x01]
  {
  }

  // The operator's call has sent the peer a request with a signature, for the funding output
  // on record and at the rate of the call.
  ghost predicate Requested(w: World, side: Role, m: Meta, rate: int) {
    exists sig :: 9 <= |sig| <= 90 && sig[0] == 0x30 && Packet(Other(side), OrphanRequest(m.fundingId, m.fundingVout, sig, rate)) in w.net
  }

  lemma RequestIsSent(w: World, side: Role, c: Orphan.Call)
    requires Orphan.May(c, Orphan.Tell) && forall msg :: msg in Orphan.SentBy(c, Orphan.Tell) ==> Packet(Other(side), msg) in w.net
    ensures Requested(w, side, c.row.meta, c.rate)
  {
    var request := OrphanRequest(c.row.meta.fundingId, c.row.meta.fundingVout, c.stage.sig, c.rate);
    assert request in Orphan.SentBy(c, Orphan.Tell);
  }

  lemma RequestLasts(w: World, x: World, side: Role)
    requires w.net <= x.net
    ensures forall m: Meta, rate :: Requested(w, side, m, rate) ==> Requested(x, side, m, rate)
  {
  }

  // The answer to a request carries the local signature and the rate, if there is one.
  predicate Answered(w: World, side: Role, m: Meta, rate: int) {
    var sig := Orphan.SigOf(m, side);
    9 <= |sig| <= 90 && sig[0] == 0x30 ==> Packet(Other(side), OrphanSig(m.fundingId, m.fundingVout, sig, rate)) in w.net
  }

  // Why a recovery may fail once it is planned.
  predicate RecoveryFails(a: RecoveryAnswers, e: Error) {
    match e
    case LndFailure => a.raw.None? || !a.sendOk || (!a.published && (a.spender.None? || a.spender.value == []))
    case MissingSignature => a.raw.None? || !(8 <= |a.raw.value| <= 89 && a.raw.value[0] == 0x30)
    case _ => false
  }

  // A call that has come to its end with this row.
  predicate Finished(c: Orphan.Call, r: Row) {
    && (c.stage.Done? || (c.stage.Told? && !Orphan.BothSigned(c.stage.half.meta)))
    && Orphan.LastRow(c) == r
  }

  // ... as the same call, by the side and the message it answers.
  ghost predicate Ends(n: Node, id: nat, c: Orphan.Call, r: Row) {
    id in n.calls && n.calls[id].msg == c.msg && n.calls[id].row == c.row && n.calls[id].rate == c.rate && Finished(n.calls[id], r)
  }

  lemma StillRecovers(h: Hashes, w: World, x: World, side: Role, a: RecoveryAnswers)
    requires NodeOf(w, side).hist <= NodeOf(x, side).hist && forall e :: e in w.log ==> e in x.log
    ensures forall rate, r :: Recovers(h, w, side, rate, a, r) ==> Recovers(h, x, side, rate, a, r)
  {
  }

  lemma SignatureIsRecorded(h: Hashes, stored: Row, c: Orphan.Call, op: Orphan.Op)
    requires Orphan.May(c, op) && op.SaveSigned? && c.rate > 0 && c.stage.sig != []
    ensures var t := Transition(stored, Orphan.NextState(c, op), Orphan.PatchOf(h, c, op), op.now);
            t.Ok? ==> t.value.meta.orphanRate == c.rate && Orphan.SigOf(t.value.meta, c.row.role) == c.stage.sig
  {
    hide EncodeKey, EncodeTransit;
  }

  lemma RecoveryIsRecorded(h: Hashes, stored: Row, c: Orphan.Call, op: Orphan.Op)
    requires HashWidths(h) && Orphan.May(c, op) && op.SaveDone? && c.stage.half.meta.orphanRate > 0 && Orphan.SigOf(c.stage.half.meta, c.row.role) != []
    ensures var t := Transition(stored, Orphan.NextState(c, op), Orphan.PatchOf(h, c, op), op.now);
            t.Ok? ==>
              && t.value.state in {Active, Recovered}
              && t.value.meta.orphanTxid == (if op.spender.Some? then op.spender.value else TxId(h, Orphan.RecoveryTx(c.stage.half.meta, c.stage.plan)))
              && t.value.meta.orphanRate == c.stage.half.meta.orphanRate
              && Orphan.SigOf(t.value.meta, c.row.role) == Orphan.SigOf(c.stage.half.meta, c.row.role)
  {
    assert |TxId(h, Orphan.RecoveryTx(c.stage.half.meta, c.stage.plan))| == 32;
    hide EncodeKey, EncodeTransit, Orphan.RecoveryTx;
  }

  lemma RecordedIsRecovered(h: Hashes, w: World, side: Role, rate: int, a: RecoveryAnswers, tx: Tx, r: Row)
    requires r in NodeOf(w, side).hist && r.meta.orphanRate == rate && Orphan.SigOf(r.meta, side) != [] && r.state in {Active, Recovered}
    requires PublishedRecovery(side, tx) in w.log
    requires if a.published then r.meta.orphanTxid == TxId(h, tx) else a.spender == Some(r.meta.orphanTxid) && r.meta.orphanTxid != []
    ensures Recovers(h, w, side, rate, a, r)
  {
    assert IsOutcome(h, a, tx, r.meta.orphanTxid);
  }

  // What others do while a call is in progress, by the point of the call.
  type Others = nat -> seq<Step>

  class BalancedOpenService {
    const h: Hashes
    ghost const start: World
    ghost var trace: seq<Step>
    var w: World

    ghost predicate Valid()
      reads this
    {
      Starts(start) && CanRun(h, start, trace) && Run(h, start, trace) == w
    }

    constructor (h: Hashes, world: World)
      requires Starts(world)
      ensures Valid() && w == world && this.h == h && trace == []
    {
      this.h := h;
      start := world;
      trace := [];
      w := world;
    }

    lemma ValidIsSafe()
      requires Valid()
      ensures Safe(h, w)
    {
      hide Safe, Starts;
      StartIsSafe(h, start);
      RunKeepsSafe(h, start, trace);
    }

    // One atomic step.
    method Do(step: Step)
      requires Valid() && Enabled(h, w, step)
      modifies this
      ensures Valid() && trace == old(trace) + [step]
      ensures w == Apply(h, old(w), step) && Later(old(w), w)
      ensures forall side :: !IsOperatorOf(side, step) ==> NodeOf(w, side).frame == old(NodeOf(w, side).frame)
    {
      hide Starts, Apply, Enabled, Later;
      StepIsLater(h, w, step);
      forall side | !IsOperatorOf(side, step)
        ensures NodeOf(Apply(h, w, step), side).frame == NodeOf(w, side).frame
      {
        OthersKeepTheFrame(h, w, side, step);
      }
      RunThenStep(h, start, trace, step);
      w := Apply(h, w, step);
      trace := trace + [step];
    }

    // Others take their steps, as far as they can; this node's operator waits.
    method Meanwhile(side: Role, others: seq<Step>)
      requires Valid()
      modifies this
      ensures Valid() && old(trace) <= trace && Later(old(w), w)
      ensures NodeOf(w, side).frame == old(NodeOf(w, side).frame)
    {
      hide Starts, CanRun, Run, Enabled, Apply;
      for i := 0 to |others|
        invariant Valid() && old(trace) <= trace && Later(old(w), w)
        invariant NodeOf(w, side).frame == old(NodeOf(w, side).frame)
      {
        if !IsOperatorOf(side, others[i]) && Enabled(h, w, others[i]) {
          Do(others[i]);
        }
      }
    }

    // ---- Atomic steps with their effects spelled out ------------------------------------

    method Begin(side: Role)
      requires Valid() && NodeOf(w, side).row.Some? && NodeOf(w, side).frame.None?
      modifies this
      ensures Valid() && old(trace) <= trace && Later(old(w), w)
      ensures NodeOf(w, side).row == old(NodeOf(w, side).row)
      ensures NodeOf(w, side).frame == Some(Frame(NodeOf(w, side).row.value, NodeOf(w, side).row.value.meta, false))
    {
      hide Later;
      Do(Operate(OperatorStep.Begin(side)));
    }

    method End(side: Role)
      requires Valid() && NodeOf(w, side).frame.Some? && !NodeOf(w, side).frame.value.unsaved
      modifies this
      ensures Valid() && old(trace) <= trace && Later(old(w), w)
      ensures w.net == old(w.net) && NodeOf(w, side).hist == old(NodeOf(w, side).hist)
      ensures NodeOf(w, side).row == old(NodeOf(w, side).row) && NodeOf(w, side).frame == None
    {
      hide Later;
      Do(Operate(OperatorStep.End(side)));
    }

    method Fund(side: Role, a: FundingAnswer)
      requires Valid() && NodeOf(w, side).frame.Some? && CanFund(side, NodeOf(w, side).frame.value) && WellFormed(a)
      modifies this
      ensures Valid() && old(trace) <= trace && Later(old(w), w)
      ensures var f := old(NodeOf(w, side).frame.value);
              NodeOf(w, side).frame ==
              Some(Frame(f.row, WithArtifacts(side, f.meta, FundedArtifacts(h, f.row, a.multisig, a.transitKey, a.at)), true))
      ensures exists e :: e in w.log && e.SentOutput? && e.side == side && e.at == a.at
    {
      hide Later;
      ghost var own := FundedArtifacts(h, NodeOf(w, side).frame.value.row, a.multisig, a.transitKey, a.at);
      Do(Operate(OperatorStep.Fund(side, a.multisig, a.transitKey, a.at)));
      assert w.log[|w.log| - 1] == SentOutput(side, own.transit.sat, own.transit.script, a.at);
    }

    method Save(side: Role, next: State, now: int) returns (r: Result<Row, Error>)
      requires Valid() && NodeOf(w, side).frame.Some? && CanSave(side, NodeOf(w, side).frame.value, next)
      modifies this
      ensures Valid() && old(trace) <= trace && Later(old(w), w)
      ensures var f := old(NodeOf(w, side).frame.value);
              NodeOf(w, side).frame == Some(Frame(if r.Ok? then r.value else f.row, f.meta, false))
      ensures old(NodeOf(w, side).row.Some?)
      ensures r == Transition(old(NodeOf(w, side).row.value), next, Encode(old(NodeOf(w, side).frame.value.meta)), now)
      ensures r.Ok? ==> r.value in NodeOf(w, side).hist && r.value.role == side && r.value.state == next
      ensures r.Err? ==> Closed(w, side, r.error)
    {
      hide Later;
      ValidIsSafe();
      RoleOfRow(h, w, side);
      r := Transition(NodeOf(w, side).row.value, next, Encode(NodeOf(w, side).frame.value.meta), now);
      NoTransitionFromClosed(NodeOf(w, side).row.value, next, Encode(NodeOf(w, side).frame.value.meta), now);
      hide Transition, Encode, Merge, CanSave;
      Do(Operate(OperatorStep.Save(side, next, now)));
      TransitionKeepsRole(old(NodeOf(w, side).row.value), next, Encode(old(NodeOf(w, side).frame.value.meta)), now);
    }

    method Send(side: Role)
      requires Valid() && NodeOf(w, side).frame.Some? && CanSend(side, NodeOf(w, side).frame.value)
      modifies this
      ensures Valid() && old(trace) <= trace && Later(old(w), w)
      ensures NodeOf(w, side).frame == old(NodeOf(w, side).frame)
      ensures SentPacket(side, NodeOf(w, side).frame.value) in w.net
    {
      hide Later;
      Do(Operate(OperatorStep.Send(side)));
    }

    // transitionSessionWithMetadata outside an operator call
    method Update(u: Update) returns (r: Result<Row, Error>)
      requires Valid() && MayUpdate(h, w, u)
      modifies this
      ensures Valid() && old(trace) <= trace && Later(old(w), w)
      ensures forall side :: NodeOf(w, side).frame == old(NodeOf(w, side).frame)
      ensures old(NodeOf(w, SideOf(u)).row.Some?)
      ensures r == Transition(old(NodeOf(w, SideOf(u)).row.value), NextState(u), PatchOf(h, old(w), u), u.now)
      ensures r.Ok? ==> r.value in NodeOf(w, SideOf(u)).hist && r.value.role == SideOf(u) && r.value.state == NextState(u)
      ensures NodeOf(w, SideOf(u)).row.Some? && (r.Ok? ==> NodeOf(w, SideOf(u)).row == Some(r.value))
      ensures r.Err? ==> NodeOf(w, SideOf(u)).row.value.state in {Active, Failed, Canceled, Recovered}
      ensures r.Err? ==> Closed(w, SideOf(u), r.error)
    {
      hide PatchOf, Merge, Later;
      ValidIsSafe();
      RowOfUpdate(h, w, u);
      r := Transition(NodeOf(w, SideOf(u)).row.value, NextState(u), PatchOf(h, w, u), u.now);
      TransitionKeepsRole(NodeOf(w, SideOf(u)).row.value, NextState(u), PatchOf(h, w, u), u.now);
      RoleOfRow(h, w, SideOf(u));
      NoTransitionFromClosed(NodeOf(w, SideOf(u)).row.value, NextState(u), PatchOf(h, w, u), u.now);
      hide MayUpdate, Transition, NextState;
      Do(Write(u));
    }

    // A write that leaves the modelled metadata alone.
    method Remark(side: Role, from: Row, site: NoteSite, now: int) returns (r: Result<Row, Error>)
      requires Valid() && from in NodeOf(w, side).hist && SiteApplies(site, from)
      modifies this
      ensures Valid() && old(trace) <= trace && Later(old(w), w)
      ensures NodeOf(w, side).frame == old(NodeOf(w, side).frame)
      ensures r.Ok? ==> r.value in NodeOf(w, side).hist && r.value.role == side && r.value.state == SiteNext(site, from)
      ensures NodeOf(w, side).row.Some? && (r.Ok? ==> NodeOf(w, side).row == Some(r.value))
      ensures NodeOf(w, side).row.value.state in {Active, Failed, Canceled, Recovered} || (r.Ok? && r.value.state == SiteNext(site, from))
      ensures r.Err? ==> Closed(w, side, r.error)
    {
      hide SiteApplies, SiteNext;
      r := Update(Note(side, from, site, now));
    }

    method Call(c: LndCall)
      requires Valid() && MayCall(h, w, c)
      modifies this
      ensures Valid() && old(trace) <= trace && Later(old(w), w)
      ensures forall side :: NodeOf(w, side) == old(NodeOf(w, side))
      ensures EventOf(h, old(w), c) in w.log
    {
      hide Later;
      hide EventOf, MayCall;
      Do(Step.Call(c));
      assert w.log[|w.log| - 1] == EventOf(h, old(w), c);
    }

    // ---- Operator calls --------------------------------------------------------------------

    // ProposeSession
    method ProposeSession(a: ProposeAnswers, others: Others, now: int) returns (result: Result<Row, Error>)
      requires Valid() && w.initiator.frame.None? && (a.funding.Some? ==> WellFormed(a.funding.value))
      modifies this
      ensures Valid() && old(trace) <= trace && w.initiator.frame.None?
      ensures var row := old(w.initiator.row);
              && (row.None? ==> result == Err(NotFound) && w == old(w))
              && (row.Some? && row.value.state in {Active, Failed, Canceled, Recovered} ==> result == Err(TerminalState) && w == old(w))
              && (row.Some? && row.value.state !in {Active, Failed, Canceled, Recovered, SessionCreated, ProposalSent, ProposalReceived} ==>
                    result == Err(InvalidAction) && w == old(w))
              && (row.Some? && row.value.state in {SessionCreated, ProposalSent, ProposalReceived} && result.Err? ==>
                    ProposeFails(a, row.value, result.error) || Closed(w, Initiator, result.error))
      ensures result.Ok? ==> Proposed(w, result.value)
    {
      hide Starts, CanRun, Run, Safe, InitiatorReady, Transition, Merge, Encode, Announces, ProposalOf, WellFormed, NoShare;
      ValidIsSafe();
      RoleOfRow(h, w, Initiator);
      var refusal := Refusal(Initiator, w.initiator.row);
      if refusal.Some? {
        return Err(refusal.value);
      }
      Begin(Initiator);
      if w.initiator.frame.value.meta.mode != PushMode {
        var ready := PrepareInitiator(a, others, now);
        if ready.Err? {
          End(Initiator);
          return Err(ready.error);
        }
      }
      if !a.connectOk || !a.sendOk {
        End(Initiator);
        return Err(LndFailure);
      }
      result := SendProposal(others, now);
      End(Initiator);
    }

    // The message and the write that ends a proposal.
    method SendProposal(others: Others, now: int) returns (result: Result<Row, Error>)
      requires Valid() && w.initiator.frame.Some?
      requires var f := w.initiator.frame.value; MayOperate(Initiator, f.row) && (f.meta.mode == PushMode || InitiatorReady(f.meta))
      modifies this
      ensures Valid() && old(trace) <= trace && Later(old(w), w)
      ensures w.initiator.frame.Some? && !w.initiator.frame.value.unsaved
      ensures if result.Ok? then Proposed(w, result.value) else Closed(w, Initiator, result.error)
    {
      hide Starts, CanRun, Run, Safe, InitiatorReady, Transition, Merge, Encode, Announces, ProposalOf;
      Send(Initiator);
      ghost var f := w.initiator.frame.value;
      ghost var sent := SentPacket(Initiator, f);
      Meanwhile(Initiator, others(2));
      ghost var stored := w.initiator.row;
      result := Save(Initiator, ProposalSent, now);
      if result.Ok? {
        ProposalAnnounces(stored.value, f, now);
        assert sent in w.net;
      }
    }

    // The dual-mode half of ProposeSession: the preflight and ensureInitiatorDualArtifacts.
    method PrepareInitiator(a: ProposeAnswers, others: Others, now: int) returns (ready: Result<(), Error>)
      requires Valid() && w.initiator.frame.Some? && (a.funding.Some? ==> WellFormed(a.funding.value))
      requires var f := w.initiator.frame.value;
               !f.unsaved && MayOperate(Initiator, f.row) && f.row in w.initiator.hist && f.meta.mode != PushMode
      modifies this
      ensures Valid() && old(trace) <= trace && Later(old(w), w)
      ensures w.initiator.frame.Some?
      ensures var f := w.initiator.frame.value;
              !f.unsaved && (ready.Ok? ==> MayOperate(Initiator, f.row) && InitiatorReady(f.meta))
      ensures ready.Err? ==> ProposeFails(a, old(w.initiator.frame.value.row), ready.error) || Closed(w, Initiator, ready.error)
    {
      hide Starts, CanRun, Run, Transition, Merge, Encode, Safe, NoShare;
      var f := w.initiator.frame.value;
      NoShareMeans(f.row);
      var contribution := TransitContribution(f.row.cap, EffectiveFeeRate(f.row.fee));
      if !(IsPubkey(f.meta.initKey.pub) && HasTransit(f.meta.initTransit, true)) && contribution.Err? {
        return Err(contribution.error);
      }
      if !a.budgetOk {
        var _ := Remark(Initiator, f.row, ProposePreflight, now);
        return Err(InsufficientOnchain);
      }
      if InitiatorReady(f.meta) {
        return Ok(());
      }
      if contribution.Err? {
        return Err(contribution.error);
      }
      if !a.transitBudgetOk {
        return Err(InsufficientOnchain);
      }
      if a.funding.None? || contribution.value <= 0 {
        return Err(LndFailure);
      }
      hide NoShare, TransitContribution, ProposeFails;
      ready := FundInitiator(a.funding.value, others, now);
    }

    // The initiator's coins are locked, and what spends them is recorded.
    method FundInitiator(a: FundingAnswer, others: Others, now: int) returns (ready: Result<(), Error>)
      requires Valid() && w.initiator.frame.Some? && CanFund(Initiator, w.initiator.frame.value) && WellFormed(a)
      modifies this
      ensures Valid() && old(trace) <= trace && Later(old(w), w)
      ensures w.initiator.frame.Some?
      ensures var f := w.initiator.frame.value;
              !f.unsaved && (ready.Ok? ==> MayOperate(Initiator, f.row) && InitiatorReady(f.meta))
      ensures ready.Err? ==> Closed(w, Initiator, ready.error)
    {
      hide Starts, CanRun, Run, Transition, Merge, Encode, Safe, TransitContribution, Closed;
      var state := w.initiator.frame.value.row.state;
      Fund(Initiator, a);
      Meanwhile(Initiator, others(1));
      var saved := Save(Initiator, state, now);
      if saved.Err? {
        return Err(saved.error);
      }
      return Ok(());
    }

    // AcceptSession
    method AcceptSession(a: AcceptAnswers, others: Others, now: int) returns (result: Result<Row, Error>)
      requires Valid() && w.accepter.frame.None? && AnswersWellFormed(a)
      modifies this
      ensures Valid() && old(trace) <= trace && w.accepter.frame.None?
      ensures var row := old(w.accepter.row);
              && (row.None? ==> result == Err(NotFound) && w == old(w))
              && (row.Some? && row.value.state in {Active, Failed, Canceled, Recovered} ==> result == Err(TerminalState) && w == old(w))
              && (row.Some? && row.value.state !in {Active, Failed, Canceled, Recovered, ProposalReceived, HalfSigned} ==>
                    result == Err(InvalidAction) && w == old(w))
              && (row.Some? && row.value.state in {ProposalReceived, HalfSigned} && result.Err? ==>
                    AcceptFails(a, row.value, result.error) || Closed(w, Accepter, result.error))
      ensures result.Ok? ==> Agreed(w, result.value)
    {
      ValidIsSafe();
      RoleOfRow(h, w, Accepter);
      var refusal := Refusal(Accepter, w.accepter.row);
      if refusal.Some? {
        return Err(refusal.value);
      }
      hide Starts, CanRun, Run, Safe, AccepterReady, Transition, Merge, Encode, Agreed, Later, AcceptFails;
      Begin(Accepter);
      result := AcceptBegun(a, others, now);
      End(Accepter);
    }

    method AcceptBegun(a: AcceptAnswers, others: Others, now: int) returns (result: Result<Row, Error>)
      requires Valid() && w.accepter.frame.Some? && AnswersWellFormed(a)
      requires var f := w.accepter.frame.value;
               !f.unsaved && MayOperate(Accepter, f.row) && f.row in w.accepter.hist && f.meta == f.row.meta
      modifies this
      ensures Valid() && old(trace) <= trace
      ensures w.accepter.frame.Some? && !w.accepter.frame.value.unsaved
      ensures result.Ok? ==> Agreed(w, result.value)
      ensures result.Err? ==> AcceptFails(a, old(w.accepter.frame.value.row), result.error) || Closed(w, Accepter, result.error)
    {
      hide Starts, CanRun, Run, Safe, AccepterReady, Agreed, Later, WellFormed, NoShare, HeardProposal;
      if w.accepter.frame.value.meta.mode == DualMode {
        var half := HalfSign(a, others, now);
        if half.Err? {
          return Err(half.error);
        }
      }
      if !a.connectOk || !a.sendOk {
        return Err(LndFailure);
      }
      result := SendAccept(others, now);
    }

    method HalfSign(a: AcceptAnswers, others: Others, now: int) returns (half: Result<Row, Error>)
      requires Valid() && w.accepter.frame.Some? && AnswersWellFormed(a)
      requires var f := w.accepter.frame.value;
               !f.unsaved && MayOperate(Accepter, f.row) && f.row in w.accepter.hist && f.meta == f.row.meta && f.meta.mode == DualMode
      modifies this
      ensures Valid() && old(trace) <= trace && Later(old(w), w)
      ensures w.accepter.frame.Some?
      ensures var f := w.accepter.frame.value;
              !f.unsaved && (half.Ok? ==> f.row == half.value && MayOperate(Accepter, f.row) && AccepterReady(f.meta) && f.row.state == HalfSigned)
      ensures half.Err? ==> AcceptFails(a, old(w.accepter.frame.value.row), half.error) || Closed(w, Accepter, half.error)
    {
      hide Starts, CanRun, Run, Safe, Transition, Merge, Encode, AccepterReady, AcceptFails;
      var ready := PrepareAccepter(a, others, now);
      if ready.Err? {
        return Err(ready.error);
      }
      half := Save(Accepter, HalfSigned, now);
    }

    method SendAccept(others: Others, now: int) returns (result: Result<Row, Error>)
      requires Valid() && w.accepter.frame.Some?
      requires var f := w.accepter.frame.value;
               MayOperate(Accepter, f.row) && (f.meta.mode == DualMode ==> AccepterReady(f.meta) && f.row.state == HalfSigned)
      modifies this
      ensures Valid() && old(trace) <= trace && Later(old(w), w)
      ensures w.accepter.frame.Some? && !w.accepter.frame.value.unsaved
      ensures if result.Ok? then Agreed(w, result.value) else Closed(w, Accepter, result.error)
    {
      hide Starts, CanRun, Run, Safe, AccepterReady, Transition, Merge, Encode, Accepts, AcceptOf;
      Send(Accepter);
      ghost var f := w.accepter.frame.value;
      ghost var sent := SentPacket(Accepter, f);
      Meanwhile(Accepter, others(3));
      ghost var stored := w.accepter.row;
      result := Save(Accepter, Accepted, now);
      if result.Ok? {
        AcceptTells(stored.value, f, now);
        assert sent in w.net;
      }
    }

    // The dual-mode half of AcceptSession: the preflight, ensureAccepterDualArtifacts and
    // the write of what was created, which comes before its error is returned.
    method PrepareAccepter(a: AcceptAnswers, others: Others, now: int) returns (ready: Result<(), Error>)
      requires Valid() && w.accepter.frame.Some? && AnswersWellFormed(a)
      requires var f := w.accepter.frame.value;
               !f.unsaved && MayOperate(Accepter, f.row) && f.row in w.accepter.hist && f.meta == f.row.meta && f.meta.mode == DualMode
      modifies this
      ensures Valid() && old(trace) <= trace && Later(old(w), w)
      ensures w.accepter.frame.Some?
      ensures var f := w.accepter.frame.value;
              !f.unsaved && (ready.Ok? ==> MayOperate(Accepter, f.row) && AccepterReady(f.meta))
      ensures ready.Err? ==> AcceptFails(a, old(w.accepter.frame.value.row), ready.error) || Closed(w, Accepter, ready.error)
    {
      hide Starts, CanRun, Run, Transition, Merge, Encode, Safe, NoShare;
      var f := w.accepter.frame.value;
      NoShareMeans(f.row);
      if AccepterReady(f.meta) {
        return Ok(());
      }
      var contribution := TransitContribution(f.row.cap, EffectiveFeeRate(f.row.fee));
      if contribution.Err? {
        return Err(contribution.error);
      }
      if !a.budgetOk {
        var _ := Remark(Accepter, f.row, AcceptPreflight, now);
        return Err(InsufficientOnchain);
      }
      if !HeardProposal(f.meta) {
        return Err(MissingArtifacts);
      }
      var fund := !AccepterFunded(f.meta);
      if fund {
        if !a.transitBudgetOk {
          return Err(InsufficientOnchain);
        }
        if a.funding.None? || contribution.value <= 0 {
          return Err(LndFailure);
        }
        FundAccepter(a.funding.value, others);
      }
      hide NoShare, AccepterReady, AccepterFunded, HeardProposal, CanFund;
      ready := Countersign(a, fund, others, now);
    }

    // The accepter's coins are locked; its document has what spends them, not yet recorded.
    method FundAccepter(a: FundingAnswer, others: Others)
      requires Valid() && w.accepter.frame.Some? && CanFund(Accepter, w.accepter.frame.value) && WellFormed(a)
      modifies this
      ensures Valid() && old(trace) <= trace && Later(old(w), w)
      ensures w.accepter.frame.Some?
      ensures var f := w.accepter.frame.value;
              f.row == old(w.accepter.frame.value.row) && f.meta.mode == DualMode && AccepterFunded(f.meta) && HeardProposal(f.meta)
    {
      hide Starts, CanRun, Run, Transition, Merge, Encode, Safe;
      Fund(Accepter, a);
      Meanwhile(Accepter, others(1));
    }

    // From the derived pending id to the registered shim, then the write of what changed.
    method Countersign(a: AcceptAnswers, funded: bool, others: Others, now: int) returns (ready: Result<(), Error>)
      requires Valid() && w.accepter.frame.Some? && AnswersWellFormed(a)
      requires var f := w.accepter.frame.value;
               && MayOperate(Accepter, f.row) && f.meta.mode == DualMode && AccepterFunded(f.meta)
               && HeardProposal(f.meta) && (f.unsaved ==> funded)
      modifies this
      ensures Valid() && old(trace) <= trace && Later(old(w), w)
      ensures w.accepter.frame.Some?
      ensures var f := w.accepter.frame.value;
              !f.unsaved && (ready.Ok? ==> MayOperate(Accepter, f.row) && AccepterReady(f.meta))
      ensures ready.Err? ==> (ready.error == LndFailure && (a.signed.None? || !a.shimOk)) || Closed(w, Accepter, ready.error)
    {
      hide Starts, CanRun, Run, Transition, Merge, Encode, Safe, CountersignEvents, BuildDualFundingPlan, WithFunding, Closed;
      var f := w.accepter.frame.value;
      FundedMayDerive(h, f.row.cap, f.meta);
      CountersignedIsReady(h, f, a.signed);
      var created := funded || f.meta.pendingId != CountersignedMeta(h, f, a.signed).pendingId;
      hide CountersignedMeta;
      Do(Operate(OperatorStep.Countersign(a.signed)));
      ready := SaveCreated(created, a, others, now);
    }

    // What was created is recorded, whether signing and the shim have gone well or not.
    method SaveCreated(created: bool, a: AcceptAnswers, others: Others, now: int) returns (ready: Result<(), Error>)
      requires Valid() && w.accepter.frame.Some?
      requires var f := w.accepter.frame.value;
               MayOperate(Accepter, f.row) && (f.unsaved ==> created) && (a.signed.Some? ==> AccepterReady(f.meta))
      modifies this
      ensures Valid() && old(trace) <= trace && Later(old(w), w)
      ensures w.accepter.frame.Some?
      ensures var f := w.accepter.frame.value;
              !f.unsaved && (ready.Ok? ==> MayOperate(Accepter, f.row) && AccepterReady(f.meta))
      ensures ready.Err? ==> (ready.error == LndFailure && (a.signed.None? || !a.shimOk)) || Closed(w, Accepter, ready.error)
    {
      hide Starts, CanRun, Run, Transition, Merge, Encode, Safe, Closed, AccepterReady;
      var state := w.accepter.frame.value.row.state;
      Meanwhile(Accepter, others(2));
      if created {
        var saved := Save(Accepter, state, now);
        if saved.Err? {
          return Err(saved.error);
        }
      }
      if a.signed.None? || !a.shimOk {
        return Err(LndFailure);
      }
      return Ok(());
    }

    // ---- Execution -------------------------------------------------------------------------

    // ExecuteSession
    method ExecuteSession(a: ExecuteAnswers, others: Others, now: int) returns (result: Result<Row, Error>)
      requires Valid()
      modifies this
      ensures Valid() && old(trace) <= trace
      ensures var row := old(w.initiator.row);
              && (row.None? ==> result == Err(NotFound) && w == old(w))
              && (row.Some? && row.value.state in {Active, Failed, Canceled, Recovered} ==> result == Err(TerminalState) && w == old(w))
              && (row.Some? && row.value.state !in {Active, Failed, Canceled, Recovered, Accepted, RecoveryRequired} ==>
                    result == Err(InvalidAction) && w == old(w))
              && (row.Some? && row.value.state in {Accepted, RecoveryRequired} && result.Err? ==>
                    ExecuteFails(h, a, row.value, result.error) || Closed(w, Initiator, result.error))
              && (row.Some? && row.value.state in {Accepted, RecoveryRequired} && result.Err? ==>
                    LeftForRecovery(w) || (w == old(w) && CheckExecuteArtifacts(row.value.cap, ExecuteMeta(h, row.value.meta)) == Some(result.error)))
      ensures result.Ok? ==> result.value in w.initiator.hist && result.value.state == FundingBroadcasted && Some(result.value.meta.channelPoint) == a.channel
      ensures result.Ok? && old(w.initiator.row.value.meta.mode) == DualMode ==> CommittedAndBroadcast(h, w.log, result.value.meta)
    {
      ValidIsSafe();
      RoleOfRow(h, w, Initiator);
      hide Starts, CanRun, Run, Safe, CommittedAndBroadcast, ExecuteFails, Closed;
      var refusal := ExecuteRefusal(w.initiator.row);
      if refusal.Some? {
        return Err(refusal.value);
      }
      if w.initiator.row.value.meta.mode == DualMode {
        result := ExecuteDual(w.initiator.row.value, a, others, now);
      } else {
        result := ExecutePush(w.initiator.row.value, a, others, now);
      }
    }

    // executeSessionPush
    method ExecutePush(row: Row, a: ExecuteAnswers, others: Others, now: int) returns (result: Result<Row, Error>)
      requires Valid() && row in w.initiator.hist && IsExecutable(row) && row.meta.mode != DualMode
      modifies this
      ensures Valid() && old(trace) <= trace && Later(old(w), w)
      ensures result.Ok? ==> result.value in w.initiator.hist && result.value.state == FundingBroadcasted && Some(result.value.meta.channelPoint) == a.channel
      ensures result.Err? ==> LeftForRecovery(w) && (ExecuteFails(h, a, row, result.error) || Closed(w, Initiator, result.error))
    {
      hide Starts, CanRun, Run, Merge, HasPlan, PlanOf, Transition, Closed, PatchOf, CheckExecuteArtifacts, ExecuteMeta, OpenAcknowledged, SignEvent, HearAccept, Delivered,
           CanRebroadcast;
      var submitted := Remark(Initiator, row, PushSubmitted, now);
      if submitted.Err? {
        return Err(submitted.error);
      }
      Meanwhile(Initiator, others(0));
      if !a.connectOk || a.channel.None? {
        var _ := Remark(Initiator, submitted.value, PushFailed, now);
        return Err(LndFailure);
      }
      PushOpensAt(h, w, row, a.channel.value, now);
      result := Update(PushOpened(row, a.channel.value, now));
    }

    // executeSessionDual up to its plan
    method ExecuteDual(row: Row, a: ExecuteAnswers, others: Others, now: int) returns (result: Result<Row, Error>)
      requires Valid() && row in w.initiator.hist && IsExecutable(row) && row.meta.mode == DualMode
      modifies this
      ensures Valid() && old(trace) <= trace && Later(old(w), w)
      ensures result.Ok? ==> result.value in w.initiator.hist && result.value.state == FundingBroadcasted && Some(result.value.meta.channelPoint) == a.channel
      ensures result.Ok? ==> CommittedAndBroadcast(h, w.log, result.value.meta)
      ensures result.Err? ==> ExecuteFails(h, a, row, result.error) || Closed(w, Initiator, result.error)
      ensures result.Err? ==> LeftForRecovery(w) || (w == old(w) && CheckExecuteArtifacts(row.cap, ExecuteMeta(h, row.meta)) == Some(result.error))
    {
      hide Starts, CanRun, Run, Merge, Transition, CommittedAndBroadcast, Closed;
      var missing := CheckExecuteArtifacts(row.cap, ExecuteMeta(h, row.meta));
      if missing.Some? {
        return Err(missing.value);
      }
      if !a.budgetOk {
        var _ := Remark(Initiator, row, AnchorPrecheck, now);
        return Err(InsufficientOnchain);
      }
      ChecksMakeAPlan(h, row);
      OpeningFailureFails(h, a, row);
      hide ExecuteFails, OpeningFails, HasPlan, PlanOf;
      result := SubmitAndOpen(row, a, others, now);
    }

    // executeSessionDual from its plan to the submitted row
    method SubmitAndOpen(row: Row, a: ExecuteAnswers, others: Others, now: int) returns (result: Result<Row, Error>)
      requires Valid() && row in w.initiator.hist && HasPlan(h, row)
      modifies this
      ensures Valid() && old(trace) <= trace && Later(old(w), w)
      ensures result.Ok? ==> result.value in w.initiator.hist && result.value.state == FundingBroadcasted && Some(result.value.meta.channelPoint) == a.channel
      ensures result.Ok? ==> CommittedAndBroadcast(h, w.log, result.value.meta)
      ensures result.Err? ==> LeftForRecovery(w) && (OpeningFails(h, a, row, result.error) || Closed(w, Initiator, result.error))
    {
      hide Starts, CanRun, Run, Merge, CommittedAndBroadcast, Closed, Transition, HasPlan, PlanOf, SubmitPatch, OpeningFails;
      ghost var before := w.initiator.row;
      var submitted := Update(Submit(row, now));
      if submitted.Err? {
        return Err(submitted.error);
      }
      SubmittedHasPlan(h, before.value, row, now);
      Meanwhile(Initiator, others(0));
      result := SignAndOpen(row, submitted.value, a, others, now);
    }

    // executeSessionDual from the submitted row to the channel point LND returns
    method SignAndOpen(row: Row, submitted: Row, a: ExecuteAnswers, others: Others, now: int) returns (result: Result<Row, Error>)
      requires Valid() && row in w.initiator.hist && HasPlan(h, row)
      requires submitted in w.initiator.hist && submitted.role == Initiator && submitted.state == ChannelProposed
      requires submitted.meta.fundingId == PlanOf(h, row).txid
      modifies this
      ensures Valid() && old(trace) <= trace && Later(old(w), w)
      ensures result.Ok? ==> result.value in w.initiator.hist && result.value.state == FundingBroadcasted && Some(result.value.meta.channelPoint) == a.channel
      ensures result.Ok? ==> CommittedAndBroadcast(h, w.log, result.value.meta)
      ensures result.Err? ==> LeftForRecovery(w) && (OpeningFails(h, a, row, result.error) || Closed(w, Initiator, result.error))
    {
      hide Starts, CanRun, Run, Merge, Transition, HasPlan, PlanOf, CommittedAndBroadcast, Closed, CheckExecuteArtifacts, ExecuteMeta, PatchOf;
      if !a.connectOk || a.signed.None? {
        var _ := Remark(Initiator, submitted, ExecuteFailed, now);
        return Err(LndFailure);
      }
      Call(SignOwn(row, a.signed.value));
      if !a.shimOk || a.channel.None? {
        var _ := Remark(Initiator, submitted, ExecuteFailed, now);
        return Err(LndFailure);
      }
      Call(LndCall.Open(row, a.channel.value));
      Meanwhile(Initiator, others(1));
      if IsMismatch(OutPoint(PlanOf(h, row).txid, PlanOf(h, row).vout), a.channel.value) {
        var _ := Remark(Initiator, submitted, ExecuteFailed, now);
        return Err(PointMismatch);
      }
      hide SignEvent, OpenEvent;
      result := Broadcast(row, submitted, a.signed.value, a.channel.value, a, others, now);
    }

    // executeSessionDual from the acknowledged open: record the signed transaction, then
    // publish it, then record the broadcast.
    method Broadcast(row: Row, submitted: Row, stack: seq<Bytes>, actual: PointText, a: ExecuteAnswers, others: Others, now: int)
      returns (result: Result<Row, Error>)
      requires Valid() && row in w.initiator.hist && HasPlan(h, row)
      requires submitted in w.initiator.hist && submitted.state == ChannelProposed && submitted.meta.fundingId == PlanOf(h, row).txid
      requires SignEvent(h, row, stack) in w.log && OpenAcknowledged(h, w, row, actual) && a.channel == Some(actual)
      modifies this
      ensures Valid() && old(trace) <= trace && Later(old(w), w)
      ensures result.Ok? ==> result.value in w.initiator.hist && result.value.state == FundingBroadcasted && Some(result.value.meta.channelPoint) == a.channel
      ensures result.Ok? ==> CommittedAndBroadcast(h, w.log, result.value.meta)
      ensures result.Err? ==> LeftForRecovery(w) && ((result.error == LndFailure && !a.published && !a.observed) || Closed(w, Initiator, result.error))
    {
      hide Starts, CanRun, Run, Merge, Transition, HasPlan, PlanOf, AssembledTx, SignEvent, CommittedAndBroadcast, Closed, CheckExecuteArtifacts, ExecuteMeta, IsExecutable, IsMismatch;
      ghost var before := w.initiator.row;
      var acked := Update(SaveSigned(row, submitted, stack, actual, SignedWrite.Acknowledged, now));
      if acked.Err? {
        return Err(acked.error);
      }
      SignedRowHasTx(h, before.value, row, stack, actual, SignedWrite.Acknowledged, now);
      Meanwhile(Initiator, others(2));
      Call(PublishOwn(row, stack, actual, acked.value));
      Meanwhile(Initiator, others(3));
      if !a.published {
        if !a.observed {
          var _ := Update(SaveSigned(row, submitted, stack, actual, BroadcastFailed, now));
          return Err(LndFailure);
        }
        var _ := Remark(Initiator, acked.value, ObservedAfterError, now);
      }
      ghost var last := w.initiator.row;
      result := Update(SaveSigned(row, submitted, stack, actual, SignedWrite.Broadcast, now));
      if result.Ok? {
        SignedRowHasTx(h, last.value, row, stack, actual, SignedWrite.Broadcast, now);
        BroadcastIsCommitted(h, w, row, stack, actual);
      }
    }

    // ensureInitiatorDualBroadcastFromMetadata, as RetrySessionBroadcast and the reconcile
    // loop call it: nothing is published that is not signed and acknowledged.
    method EnsureBroadcast(row: Row, a: ExecuteAnswers, others: Others, now: int) returns (result: Result<Row, Error>)
      requires Valid() && row in w.initiator.hist && row.role == Initiator
      requires row.state in {ChannelProposed, PendingOpen, RecoveryRequired}
      modifies this
      ensures Valid() && old(trace) <= trace && Later(old(w), w)
      ensures !CanRebroadcast(row) ==> result == Ok(row) && w == old(w)
      ensures result.Ok? ==> result.value in w.initiator.hist
      ensures result.Ok? && CanRebroadcast(row) ==>
                && PublishedFunding(Initiator, row.meta.fundingTx.value) in w.log
                && result.value.state == (if row.state == PendingOpen then PendingOpen else FundingBroadcasted)
      ensures result.Err? ==> LeftForRecovery(w) && ((result.error == LndFailure && !a.published && !a.observed) || Closed(w, Initiator, result.error))
    {
      hide Starts, CanRun, Run, Merge, Transition, SiteApplies;
      if !CanRebroadcast(row) {
        return Ok(row);
      }
      var ok := Republish(row, a, others, now);
      if !ok {
        return Err(LndFailure);
      }
      Resites(row);
      hide CanRebroadcast;
      result := Remark(Initiator, row, Rebroadcasted, now);
    }

    // The publish and, if it failed, what is noted of it.
    method Republish(row: Row, a: ExecuteAnswers, others: Others, now: int) returns (ok: bool)
      requires Valid() && row in w.initiator.hist && CanRebroadcast(row)
      modifies this
      ensures Valid() && old(trace) <= trace && Later(old(w), w)
      ensures PublishedFunding(Initiator, row.meta.fundingTx.value) in w.log
      ensures ok <==> a.published || a.observed
      ensures !ok ==> LeftForRecovery(w)
    {
      hide Starts, CanRun, Run, SiteApplies;
      Resites(row);
      Call(PublishStored(row));
      hide CanRebroadcast, AppearsSigned;
      Meanwhile(Initiator, others(0));
      ok := a.published || a.observed;
      if !ok {
        var _ := Remark(Initiator, row, RebroadcastFailed, now);
      } else if !a.published {
        var _ := Remark(Initiator, row, RebroadcastObserved, now);
      }
    }

    // RetrySessionBroadcast
    method RetryBroadcast(a: ExecuteAnswers, others: Others, now: int) returns (result: Result<Row, Error>)
      requires Valid()
      modifies this
      ensures Valid() && old(trace) <= trace
      ensures var row := old(w.initiator.row);
              && (row.None? ==> result == Err(NotFound) && w == old(w))
              && (row.Some? && row.value.state in {Active, Failed, Canceled, Recovered} ==> result == Err(TerminalState) && w == old(w))
              && (row.Some? && row.value.state !in {Active, Failed, Canceled, Recovered} && !CanRebroadcast(row.value) ==>
                    result == Err(InvalidAction) && w == old(w))
              && (row.Some? && CanRebroadcast(row.value) && result.Err? ==>
                    LeftForRecovery(w) && ((result.error == LndFailure && !a.published && !a.observed) || Closed(w, Initiator, result.error)))
      ensures result.Ok? ==>
                && result.value in w.initiator.hist
                && result.value.state == (if old(w.initiator.row.value.state) == PendingOpen then PendingOpen else FundingBroadcasted)
                && PublishedFunding(Initiator, old(w.initiator.row.value.meta.fundingTx.value)) in w.log
    {
      var refusal := RetryRefusal(w.initiator.row);
      if refusal.Some? {
        return Err(refusal.value);
      }
      ValidIsSafe();
      RoleOfRow(h, w, Initiator);
      hide Starts, CanRun, Run, Safe, AppearsSigned;
      result := EnsureBroadcast(w.initiator.row.value, a, others, now);
    }

    // tryPromoteSessionByChannelState: a session becomes active if and only if a channel of
    // LND's matches it, and otherwise pending if one is opening and the node's own output
    // has gone into it. A session that knows its point is promoted by no other channel. The
    // point of the matching channel is recorded. Only a closed session is not promoted.
    method TryPromote(side: Role, row: Row, pending: seq<Channel>, active: seq<Channel>, spender: Option<Bytes>, now: int)
      returns (result: Result<Row, Error>)
      requires Valid() && row in NodeOf(w, side).hist
      requires row.state in {Accepted, ChannelProposed, FundingBroadcasted, PendingOpen, RecoveryRequired}
      modifies this
      ensures Valid() && old(trace) <= trace && Later(old(w), w)
      ensures result.Ok? ==> (result.value.state == Active <==> SomeMatches(row, active, false))
      ensures result.Ok? && result.value.state == PendingOpen != row.state ==>
                !SomeMatches(row, active, false) && SomeMatches(row, pending, true) && MayPromotePending(row, spender)
      ensures result.Ok? && !SomeMatches(row, active, false) && SomeMatches(row, pending, true) && MayPromotePending(row, spender) ==>
                result.value.state == PendingOpen
      ensures result.Ok? && SomeMatches(row, active, false) ==>
                exists c :: IsFirstMatch(row, active, false, c) && result.value.meta.channelPoint == Point(c.at)
      ensures result.Ok? && result.value.state == PendingOpen != row.state ==>
                exists c :: IsFirstMatch(row, pending, true, c) && result.value.meta.channelPoint == Point(c.at)
      ensures result.Err? ==> old(NodeOf(w, side).row.Some?) && IsTerminal(old(NodeOf(w, side).row.value.state))
      ensures !SomeMatches(row, active, false) && !(SomeMatches(row, pending, true) && MayPromotePending(row, spender)) ==>
                result == Ok(row) && w == old(w)
    {
      hide Starts, CanRun, Run;
      result := Ok(row);
      var live := FindChannel(row, active, false);
      if live.Some? {
        result := Update(Promote(side, row, true, Point(live.value.at), now));
        return;
      }
      var waiting := FindChannel(row, pending, true);
      if waiting.Some? && MayPromotePending(row, spender) && row.state != PendingOpen {
        result := Update(Promote(side, row, false, Point(waiting.value.at), now));
      }
    }

    // ---- Messages and cancel ------------------------------------------------------------------

    // upsertSessionFromProposal
    method HearProposed(side: Role, sender: Bytes, msg: Msg, now: int) returns (result: Result<Row, Error>)
      requires Valid() && msg.Proposal? && Delivered(w, side, sender, msg)
      modifies this
      ensures Valid() && old(trace) <= trace && Later(old(w), w)
      ensures result.Ok? <==> IsGoodProposal(sender, msg)
      ensures if result.Ok? then NodeOf(w, side).row == Some(result.value) && IsStoredProposal(old(NodeOf(w, side).row), sender, msg, now, result.value)
              else w == old(w)
    {
      hide Starts, CanRun, Run, UpsertFromProposal;
      ProposalIsStored(NodeOf(w, side).row, sender, msg, now);
      result := UpsertFromProposal(NodeOf(w, side).row, sender, msg, now);
      Do(Step.HearProposal(side, sender, msg, now));
    }

    // markAcceptedFromPeer: only the peer of the session is heard, a closed session is left
    // alone, and what an accept of a dual-funded session brings is recorded.
    method HearAccepted(side: Role, sender: Bytes, msg: Msg, others: Others, now: int) returns (result: Result<Row, Error>)
      requires Valid() && msg.Accept? && Delivered(w, side, sender, msg)
      modifies this
      ensures Valid() && old(trace) <= trace && Later(old(w), w)
      ensures var row := old(NodeOf(w, side).row);
              && (row.None? ==> result == Err(NotFound) && w == old(w))
              && (row.Some? && row.value.peer != sender ==> result == Err(InvalidPeerKey) && w == old(w))
              && (row.Some? && row.value.peer == sender && row.value.state in {Active, Failed, Canceled, Recovered} ==> result == Ok(row.value) && w == old(w))
              && (row.Some? && row.value.peer == sender && row.value.state !in {Active, Failed, Canceled, Recovered} ==>
                    var heard := HearAccept(h, row.value, sender, msg);
                    if heard.Err? then result == Err(heard.error) && w == old(w)
                    else if result.Err? then Closed(w, side, result.error)
                    else NodeOf(w, side).row == Some(result.value) && result.value.state == Accepted && BroughtBy(msg, row.value.meta.mode, result.value.meta))
    {
      hide Starts, CanRun, Run, Safe, HearAccept, BroughtBy;
      LaterIsReflexive(w);
      if NodeOf(w, side).row.None? {
        return Err(NotFound);
      }
      var row := NodeOf(w, side).row.value;
      AcceptIsHeard(h, row, sender, msg);
      if row.peer == sender && IsTerminal(row.state) {
        return Ok(row);
      }
      var heard := HearAccept(h, row, sender, msg);
      if heard.Err? {
        return Err(heard.error);
      }
      ValidIsSafe();
      RoleOfRow(h, w, side);
      ghost var before := w;
      Meanwhile(side, others(0));
      DeliveredLasts(before, w, side, sender, msg);
      HeardIsRecorded(h, w, side, row, sender, msg, now);
      hide Transition, PatchOf;
      result := Update(HeardAccept(side, row, sender, msg, now));
    }

    // markCanceledFromPeer: only the peer of the session is heard, and a closed session keeps
    // its state.
    method HearCanceled(side: Role, sender: Bytes, shim: bool, others: Others, now: int) returns (result: Result<Row, Error>)
      requires Valid() && Delivered(w, side, sender, Cancel)
      modifies this
      ensures Valid() && old(trace) <= trace && Later(old(w), w)
      ensures var row := old(NodeOf(w, side).row);
              && (row.None? ==> result == Err(NotFound) && w == old(w))
              && (row.Some? && row.value.peer != sender ==> result == Err(InvalidPeerKey) && w == old(w))
              && (row.Some? && row.value.peer == sender && row.value.state in {Active, Failed, Canceled, Recovered} ==> result == Ok(row.value))
              && (row.Some? && row.value.peer == sender && row.value.state !in {Active, Failed, Canceled, Recovered} ==>
                    if result.Err? then Closed(w, side, result.error)
                    else NodeOf(w, side).row == Some(result.value) && result.value.state == Canceled)
    {
      hide Starts, CanRun, Run, Safe;
      LaterIsReflexive(w);
      if NodeOf(w, side).row.None? {
        return Err(NotFound);
      }
      var row := NodeOf(w, side).row.value;
      if row.peer != sender {
        return Err(InvalidPeerKey);
      }
      ValidIsSafe();
      RoleOfRow(h, w, side);
      ghost var before := w;
      CancelShim(side, row, shim, now);
      if IsTerminal(row.state) {
        return Ok(row);
      }
      Meanwhile(side, others(0));
      DeliveredLasts(before, w, side, sender, Cancel);
      hide Transition;
      result := Update(HeardCancel(side, row, now));
    }

    // tryCancelDualFundingShim, where LND answers and the answer is noted
    method CancelShim(side: Role, row: Row, shim: bool, now: int)
      requires Valid() && NodeOf(w, side).row == Some(row) && row in NodeOf(w, side).hist
      modifies this
      ensures Valid() && old(trace) <= trace && Later(old(w), w)
      ensures NodeOf(w, side).row.Some? && (!IsTerminal(row.state) ==> NodeOf(w, side).row.value.state == row.state)
    {
      hide Starts, CanRun, Run, Safe;
      LaterIsReflexive(w);
      if row.meta.mode == DualMode && row.meta.pendingId != [] && row.state != Active && shim {
        hide Later;
        var _ := Update(Note(side, row, ShimCanceled, now));
      }
    }

    // CancelSession
    method CancelOpen(side: Role, shim: bool, now: int) returns (result: Result<Row, Error>)
      requires Valid()
      modifies this
      ensures Valid() && old(trace) <= trace && Later(old(w), w)
      ensures var row := old(NodeOf(w, side).row);
              && (row.None? ==> result == Err(NotFound) && w == old(w))
              && (row.Some? && row.value.state in {Active, Failed, Canceled, Recovered} ==> result == Err(TerminalState) && w == old(w))
              && (row.Some? && row.value.state !in {Active, Failed, Canceled, Recovered} ==>
                    result.Ok? && NodeOf(w, side).row == Some(result.value) && result.value.state == Canceled && result.value.updatedAt == now)
    {
      hide Starts, CanRun, Run, Safe;
      LaterIsReflexive(w);
      if NodeOf(w, side).row.None? {
        return Err(NotFound);
      }
      var row := NodeOf(w, side).row.value;
      if IsTerminal(row.state) {
        return Err(TerminalState);
      }
      ValidIsSafe();
      RoleOfRow(h, w, side);
      CancelShim(side, row, shim, now);
      result := CancelRow(NodeOf(w, side).row.value, now);
      Do(Step.CancelSession(side, now));
    }

    // ---- Recovery --------------------------------------------------------------------------

    // Others take their steps while a recovery call of this node waits.
    method MeanwhileCall(side: Role, id: nat, others: seq<Step>)
      requires Valid() && id in NodeOf(w, side).calls
      modifies this
      ensures Valid() && old(trace) <= trace && Later(old(w), w)
      ensures id in NodeOf(w, side).calls && NodeOf(w, side).calls[id] == old(NodeOf(w, side).calls[id])
    {
      hide Starts, CanRun, Run, Enabled, Apply;
      for i := 0 to |others|
        invariant Valid() && old(trace) <= trace && Later(old(w), w)
        invariant id in NodeOf(w, side).calls && NodeOf(w, side).calls[id] == old(NodeOf(w, side).calls[id])
      {
        if !IsCallOf(side, id, others[i]) && Enabled(h, w, others[i]) {
          OthersKeepTheCall(h, w, side, id, others[i]);
          Do(others[i]);
        }
      }
    }

    // A recovery call starts from the row as it stands.
    method Start(side: Role, id: nat, op: Orphan.Op)
      requires Valid() && MayRecover(w, side, id, op) && (op.Ask? || op.Hear?)
      modifies this
      ensures Valid() && old(trace) <= trace && Later(old(w), w)
      ensures var row := old(NodeOf(w, side).row.value);
              id in NodeOf(w, side).calls &&
              NodeOf(w, side).calls[id] == if op.Ask? then Orphan.Asked(row, op.asked) else Orphan.Listening(row, op.msg)
    {
      hide Starts, CanRun, Run, Orphan.Asked, Orphan.Listening, Orphan.MayAsk, Orphan.PlanRecovery, Orphan.CheckOrphanMessage;
      Do(Step.Recover(side, id, op));
    }

    // A step of a recovery call that asks LND or sends.
    method Proceed(side: Role, id: nat, op: Orphan.Op)
      requires Valid() && MayRecover(w, side, id, op) && !Orphan.IsWrite(op) && !op.Ask? && !op.Hear?
      modifies this
      ensures Valid() && old(trace) <= trace && Later(old(w), w)
      ensures var c := Orphan.Continued(old(NodeOf(w, side).calls[id]), op);
              c.Some? ==> id in NodeOf(w, side).calls && NodeOf(w, side).calls[id] == c.value
      ensures forall e :: e in Orphan.EventsOf(old(NodeOf(w, side).calls[id]), op) ==> e in w.log
      ensures forall msg :: msg in Orphan.SentBy(old(NodeOf(w, side).calls[id]), op) ==> Packet(Other(side), msg) in w.net
    {
      hide Starts, CanRun, Run, Orphan.Continued, Orphan.EventsOf, Orphan.SentBy;
      Do(Step.Recover(side, id, op));
    }

    // A write of a recovery call.
    method Record(side: Role, id: nat, op: Orphan.Op) returns (r: Result<Row, Error>)
      requires Valid() && MayRecover(w, side, id, op) && Orphan.IsWrite(op)
      modifies this
      ensures Valid() && old(trace) <= trace && Later(old(w), w)
      ensures old(NodeOf(w, side).row.Some?)
      ensures r.Err? ==> Closed(w, side, r.error)
      ensures var c := old(NodeOf(w, side).calls[id]);
              && r == Transition(old(NodeOf(w, side).row.value), Orphan.NextState(c, op), Orphan.PatchOf(h, c, op), op.now)
              && (r.Ok? ==> r.value in NodeOf(w, side).hist)
              && (r.Ok? && Orphan.Written(c, op, r.value).Some? ==>
                    id in NodeOf(w, side).calls && NodeOf(w, side).calls[id] == Orphan.Written(c, op, r.value).value)
    {
      hide Starts, CanRun, Run, Orphan.NextState, Orphan.PatchOf, Orphan.Written, Transition;
      var c := NodeOf(w, side).calls[id];
      NoTransitionFromClosed(NodeOf(w, side).row.value, Orphan.NextState(c, op), Orphan.PatchOf(h, c, op), op.now);
      r := Transition(NodeOf(w, side).row.value, Orphan.NextState(c, op), Orphan.PatchOf(h, c, op), op.now);
      RecoveryWrittenCases(h, w, side, id, op);
      Do(Step.Recover(side, id, op));
    }

    // recoverOrphanFundingOutput from the plan on
    method RecoverOrphan(side: Role, id: nat, a: RecoveryAnswers, others: Others, now: int) returns (result: Result<Row, Error>)
      requires Valid() && HashWidths(h) && NodeOf(w, side).row.Some? && id in NodeOf(w, side).calls
      requires var c := NodeOf(w, side).calls[id];
               c.stage.Planned? && c.rate > 0 && c.row.role == side && |c.stage.plan.tx.ins| == 1
      modifies this
      ensures Valid() && old(trace) <= trace && Later(old(w), w)
      ensures result.Ok? ==> Recovers(h, w, side, old(NodeOf(w, side).calls[id].rate), a, result.value)
      ensures result.Err? ==> RecoveryFails(a, result.error) || Closed(w, side, result.error)
      ensures var c := old(NodeOf(w, side).calls[id]); result.Ok? && c.msg.None? ==> Requested(w, side, c.row.meta, c.rate)
      ensures result.Ok? ==> Ends(NodeOf(w, side), id, old(NodeOf(w, side).calls[id]), result.value)
    {
      hide Starts, CanRun, Run, Transition, Orphan.PatchOf, Orphan.NextState, Orphan.RecoveryTx, Recovers;
      var c := NodeOf(w, side).calls[id];
      if !Orphan.IsSig(Orphan.SigOf(c.row.meta, side)) {
        if a.raw.None? {
          return Err(LndFailure);
        }
        if a.raw.value == [] || a.raw.value[0] != 0x30 {
          return Err(MissingSignature);
        }
      }
      var raw := if a.raw.Some? then a.raw.value else [];
      OwnSignatureFits(c, a, raw);
      Proceed(side, id, Orphan.Sign(raw));
      MeanwhileCall(side, id, others(0));
      result := RecordAndFinish(side, id, a, others, now);
    }

    // ... from the local signature on: record it, tell the peer, and with both signatures
    // publish and record the recovery.
    method RecordAndFinish(side: Role, id: nat, a: RecoveryAnswers, others: Others, now: int) returns (result: Result<Row, Error>)
      requires Valid() && HashWidths(h) && NodeOf(w, side).row.Some? && id in NodeOf(w, side).calls
      requires var c := NodeOf(w, side).calls[id];
               c.stage.Ready? && c.stage.sig != [] && SignedFrom(c.stage.sig, a) && c.rate > 0 && c.row.role == side && |c.stage.plan.tx.ins| == 1
      modifies this
      ensures Valid() && old(trace) <= trace && Later(old(w), w)
      ensures result.Ok? ==> Recovers(h, w, side, old(NodeOf(w, side).calls[id].rate), a, result.value)
      ensures result.Err? ==> RecoveryFails(a, result.error) || Closed(w, side, result.error)
      ensures var c := old(NodeOf(w, side).calls[id]); result.Ok? && c.msg.None? ==> Requested(w, side, c.row.meta, c.rate)
      ensures result.Ok? ==> Ends(NodeOf(w, side), id, old(NodeOf(w, side).calls[id]), result.value)
    {
      hide Starts, CanRun, Run, Transition, Orphan.PatchOf, Orphan.NextState, Orphan.RecoveryTx, Orphan.IsSig, Recovers, RecoveryFails, Closed;
      var c := NodeOf(w, side).calls[id];
      SignatureIsRecorded(h, NodeOf(w, side).row.value, c, Orphan.SaveSigned(now));
      var half := Record(side, id, Orphan.SaveSigned(now));
      if half.Err? {
        return Err(half.error);
      }
      MeanwhileCall(side, id, others(1));
      result := TellAndFinish(side, id, half.value, a, others, now);
    }

    // ... from the recorded signature on: the operator's call tells the peer.
    method TellAndFinish(side: Role, id: nat, half: Row, a: RecoveryAnswers, others: Others, now: int) returns (result: Result<Row, Error>)
      requires Valid() && HashWidths(h) && NodeOf(w, side).row.Some? && id in NodeOf(w, side).calls && half in NodeOf(w, side).hist
      requires var c := NodeOf(w, side).calls[id];
               && (if c.msg.None? then c.stage.Saved? && SignedFrom(c.stage.sig, a) else c.stage.Told?) && c.stage.half == half
               && |c.stage.plan.tx.ins| == 1 && c.rate > 0 && half.meta.orphanRate == c.rate && c.row.role == side && Orphan.SigOf(half.meta, side) != []
      modifies this
      ensures Valid() && old(trace) <= trace && Later(old(w), w)
      ensures result.Ok? ==> Recovers(h, w, side, old(NodeOf(w, side).calls[id].rate), a, result.value)
      ensures result.Err? ==> RecoveryFails(a, result.error) || Closed(w, side, result.error)
      ensures var c := old(NodeOf(w, side).calls[id]); result.Ok? && c.msg.None? ==> Requested(w, side, c.row.meta, c.rate)
      ensures result.Ok? ==> Ends(NodeOf(w, side), id, old(NodeOf(w, side).calls[id]), result.value)
    {
      hide Starts, CanRun, Run, Orphan.RecoveryTx, Orphan.IsSig, Closed, Requested;
      var c := NodeOf(w, side).calls[id];
      ghost var x := w;
      if c.msg.None? {
        if !Orphan.IsSig(c.stage.sig) {
          return Err(MissingSignature);
        }
        if !a.sendOk {
          return Err(LndFailure);
        }
        Proceed(side, id, Orphan.Tell);
        RequestIsSent(w, side, c);
        x := w;
        MeanwhileCall(side, id, others(2));
        RequestLasts(x, w, side);
        x := w;
      }
      if !Orphan.BothSigned(half.meta) {
        return Ok(half);
      }
      hide Recovers, RecoveryFails;
      result := PublishAndRecord(side, id, a, others, now);
      RequestLasts(x, w, side);
    }

    method PublishAndRecord(side: Role, id: nat, a: RecoveryAnswers, others: Others, now: int) returns (result: Result<Row, Error>)
      requires Valid() && HashWidths(h) && NodeOf(w, side).row.Some? && id in NodeOf(w, side).calls
      requires var c := NodeOf(w, side).calls[id];
               && c.stage.Told? && Orphan.BothSigned(c.stage.half.meta) && |c.stage.plan.tx.ins| == 1
               && c.rate > 0 && c.stage.half.meta.orphanRate == c.rate && c.row.role == side && Orphan.SigOf(c.stage.half.meta, side) != []
      modifies this
      ensures Valid() && old(trace) <= trace && Later(old(w), w)
      ensures result.Ok? ==> Recovers(h, w, side, old(NodeOf(w, side).calls[id].rate), a, result.value)
      ensures result.Err? ==> RecoveryFails(a, result.error) || Closed(w, side, result.error)
      ensures result.Ok? ==> Ends(NodeOf(w, side), id, old(NodeOf(w, side).calls[id]), result.value)
    {
      hide Starts, CanRun, Run, Orphan.RecoveryTx, Orphan.BothSigned, Closed, Recovers;
      ghost var c := NodeOf(w, side).calls[id];
      Proceed(side, id, Orphan.Publish);
      assert PublishedRecovery(side, Orphan.RecoveryTx(c.stage.half.meta, c.stage.plan)) in w.log;
      MeanwhileCall(side, id, others(3));
      result := RecordOutcome(side, id, a, now);
    }

    // ... once LND has been asked to publish: the id of the recovery, or that of the
    // transaction it found in its place, is recorded.
    method RecordOutcome(side: Role, id: nat, a: RecoveryAnswers, now: int) returns (result: Result<Row, Error>)
      requires Valid() && HashWidths(h) && NodeOf(w, side).row.Some? && id in NodeOf(w, side).calls
      requires var c := NodeOf(w, side).calls[id];
               && c.stage.Published? && |c.stage.plan.tx.ins| == 1
               && PublishedRecovery(side, Orphan.RecoveryTx(c.stage.half.meta, c.stage.plan)) in w.log
               && c.rate > 0 && c.stage.half.meta.orphanRate == c.rate && c.row.role == side && Orphan.SigOf(c.stage.half.meta, side) != []
      modifies this
      ensures Valid() && old(trace) <= trace && Later(old(w), w)
      ensures result.Ok? ==> Recovers(h, w, side, old(NodeOf(w, side).calls[id].rate), a, result.value)
      ensures result.Err? ==> RecoveryFails(a, result.error) || Closed(w, side, result.error)
      ensures result.Ok? ==> Ends(NodeOf(w, side), id, old(NodeOf(w, side).calls[id]), result.value)
    {
      hide Starts, CanRun, Run, Transition, Orphan.PatchOf, Orphan.NextState, Orphan.RecoveryTx, Orphan.BothSigned, Closed, Recovers;
      var c := NodeOf(w, side).calls[id];
      if !a.published && (a.spender.None? || a.spender.value == []) {
        return Err(LndFailure);
      }
      var op := Orphan.SaveDone(if a.published then None else a.spender, now);
      RecoveryIsRecorded(h, NodeOf(w, side).row.value, NodeOf(w, side).calls[id], op);
      result := Record(side, id, op);
      if result.Ok? {
        RecordedIsRecovered(h, w, side, c.rate, a, Orphan.RecoveryTx(c.stage.half.meta, c.stage.plan), result.value);
      }
    }

    // RecoverSessionTransit where it turns to the orphaned funding output
    method RecoverSession(side: Role, id: nat, asked: int, a: RecoveryAnswers, others: Others, now: int) returns (result: Result<Row, Error>)
      requires Valid() && HashWidths(h) && id !in NodeOf(w, side).calls
      modifies this
      ensures Valid() && old(trace) <= trace && Later(old(w), w) && id !in NodeOf(w, side).calls
      ensures var row := old(NodeOf(w, side).row);
              && (row.None? ==> result == Err(NotFound) && w == old(w))
              && (row.Some? && !Orphan.MayAsk(row.value, asked) ==> result == Err(InvalidAction) && w == old(w))
              && (row.Some? && Orphan.MayAsk(row.value, asked) && Orphan.PlanRecovery(row.value, asked).Err? ==>
                    result == Err(Orphan.PlanRecovery(row.value, asked).error) && w == old(w))
              && (row.Some? && Orphan.MayAsk(row.value, asked) && Orphan.PlanRecovery(row.value, asked).Ok? && result.Err? ==>
                    RecoveryFails(a, result.error) || Closed(w, side, result.error))
              && (result.Ok? ==>
                    var rate := if asked > 0 then asked else if row.value.meta.orphanRate > 0 then row.value.meta.orphanRate else 1;
                    Recovers(h, w, side, rate, a, result.value) && Requested(w, side, row.value.meta, rate))
    {
      hide Starts, CanRun, Run, Safe, Recovers, Orphan.MayAsk, Orphan.PlanRecovery, Ends;
      LaterIsReflexive(w);
      if NodeOf(w, side).row.None? {
        return Err(NotFound);
      }
      var row := NodeOf(w, side).row.value;
      if !Orphan.MayAsk(row, asked) {
        return Err(InvalidAction);
      }
      var plan := Orphan.PlanRecovery(row, asked);
      if plan.Err? {
        return Err(plan.error);
      }
      ValidIsSafe();
      RoleOfRow(h, w, side);
      Orphan.PlanNeedsKeys(row, asked);
      Start(side, id, Orphan.Ask(asked));
      MeanwhileCall(side, id, others(4));
      result := RecoverOrphan(side, id, a, others, now);
      ghost var x := w;
      EndCall(side, id);
      StillRecovers(h, x, w, side, a);
    }

    // The call returns; its locals are gone.
    method EndCall(side: Role, id: nat)
      requires Valid() && NodeOf(w, side).row.Some?
      modifies this
      ensures Valid() && old(trace) <= trace && Later(old(w), w) && id !in NodeOf(w, side).calls
      ensures NodeOf(w, side).hist == old(NodeOf(w, side).hist) && NodeOf(w, side).row == old(NodeOf(w, side).row) && w.log == old(w.log)
    {
      hide Starts, CanRun, Run;
      if id in NodeOf(w, side).calls {
        Do(Step.Recover(side, id, Orphan.Quit));
        assert w.log == old(w.log) + [];
      } else {
        LaterIsReflexive(w);
      }
    }

    // handleOrphanRecoveryRequestFromPeer and handleOrphanRecoverySignatureFromPeer up to
    // the answer: the peer's signature is recorded, then the recovery goes on from there.
    method HearRecovery(side: Role, id: nat, sender: Bytes, msg: Msg, a: RecoveryAnswers, others: Others, now: int) returns (result: Result<Row, Error>)
      requires Valid() && HashWidths(h) && id !in NodeOf(w, side).calls
      requires Orphan.IsOrphanMessage(msg) && Delivered(w, side, sender, msg)
      modifies this
      ensures Valid() && old(trace) <= trace && Later(old(w), w) && id !in NodeOf(w, side).calls
      ensures var row := old(NodeOf(w, side).row);
              && (row.None? ==> result == Err(NotFound) && w == old(w))
              && (row.Some? && Orphan.CheckOrphanMessage(row.value, sender, msg).Some? ==>
                    result == Err(Orphan.CheckOrphanMessage(row.value, sender, msg).value) && w == old(w))
              && (row.Some? && Orphan.CheckOrphanMessage(row.value, sender, msg).None? && result.Err? ==>
                    || RecoveryFails(a, result.error) || Closed(w, side, result.error)
                    || exists r :: r in NodeOf(w, side).hist && Orphan.PlanRecovery(r, Orphan.ChosenRate(msg.rate, row.value.meta.orphanRate)) == Err(result.error))
              && (result.Ok? ==>
                    var rate := if msg.rate > 0 then msg.rate else if row.value.meta.orphanRate > 0 then row.value.meta.orphanRate else 1;
                    && Recovers(h, w, side, rate, a, result.value)
                    && (msg.OrphanRequest? ==> Answered(w, side, result.value.meta, rate)))
    {
      hide Starts, CanRun, Run, Safe, Recovers, Orphan.CheckOrphanMessage, Orphan.PlanRecovery, Delivered;
      LaterIsReflexive(w);
      if NodeOf(w, side).row.None? {
        return Err(NotFound);
      }
      var row := NodeOf(w, side).row.value;
      var refused := Orphan.CheckOrphanMessage(row, sender, msg);
      if refused.Some? {
        return Err(refused.value);
      }
      ValidIsSafe();
      RoleOfRow(h, w, side);
      Start(side, id, Orphan.Hear(sender, msg));
      MeanwhileCall(side, id, others(4));
      hide Orphan.IsOrphanMessage, RecoveryFails, Closed, Answered;
      result := RecordAndAnswer(side, id, msg, a, others, now);
    }

    // ... from the write of the peer's signature to the answer.
    method RecordAndAnswer(side: Role, id: nat, msg: Msg, a: RecoveryAnswers, others: Others, now: int) returns (result: Result<Row, Error>)
      requires Valid() && HashWidths(h) && NodeOf(w, side).row.Some? && id in NodeOf(w, side).calls
      requires var c := NodeOf(w, side).calls[id];
               c.stage.Heard? && c.msg == Some(msg) && Orphan.IsOrphanMessage(msg) && c.rate > 0 && c.row.role == side
      modifies this
      ensures Valid() && old(trace) <= trace && Later(old(w), w) && id !in NodeOf(w, side).calls
      ensures var rate := old(NodeOf(w, side).calls[id].rate);
              && (result.Err? ==>
                    || RecoveryFails(a, result.error) || Closed(w, side, result.error)
                    || exists r :: r in NodeOf(w, side).hist && Orphan.PlanRecovery(r, rate) == Err(result.error))
              && (result.Ok? ==> Recovers(h, w, side, rate, a, result.value) && (msg.OrphanRequest? ==> Answered(w, side, result.value.meta, rate)))
    {
      hide Starts, CanRun, Run, Safe, Recovers, Orphan.PlanRecovery, Closed, Answered;
      result := RecordHeard(side, id, a, others, now);
      if result.Ok? {
        result := RecoverOrphan(side, id, a, others, now);
      }
      ghost var x := w;
      result := SendAnswer(side, id, msg, a, result);
      StillRecovers(h, x, w, side, a);
    }

    // The write of the peer's signature, and the plan made from the row it leaves.
    method RecordHeard(side: Role, id: nat, a: RecoveryAnswers, others: Others, now: int) returns (result: Result<Row, Error>)
      requires Valid() && NodeOf(w, side).row.Some? && id in NodeOf(w, side).calls
      requires var c := NodeOf(w, side).calls[id];
               c.stage.Heard? && c.msg.Some? && Orphan.IsOrphanMessage(c.msg.value) && c.rate > 0 && c.row.role == side
      modifies this
      ensures Valid() && old(trace) <= trace && Later(old(w), w)
      ensures result.Ok? ==>
                && id in NodeOf(w, side).calls
                && var c, d := old(NodeOf(w, side).calls[id]), NodeOf(w, side).calls[id];
                   d.stage.Planned? && |d.stage.plan.tx.ins| == 1 && d.rate == c.rate && d.msg == c.msg && d.row.role == side
      ensures result.Err? ==> Closed(w, side, result.error) || exists r :: r in NodeOf(w, side).hist && Orphan.PlanRecovery(r, old(NodeOf(w, side).calls[id].rate)) == Err(result.error)
    {
      hide Starts, CanRun, Run, Safe, Transition, Orphan.PatchOf, Orphan.NextState, Orphan.PlanRecovery;
      ValidIsSafe();
      RoleOfRow(h, w, side);
      ghost var stored, c := NodeOf(w, side).row.value, NodeOf(w, side).calls[id];
      var rate := NodeOf(w, side).calls[id].rate;
      result := Record(side, id, Orphan.SaveHeard(now));
      if result.Err? {
        return;
      }
      var plan := Orphan.PlanRecovery(result.value, rate);
      if plan.Err? {
        return Err(plan.error);
      }
      Orphan.PlanNeedsKeys(result.value, rate);
      TransitionKeepsRole(stored, Orphan.NextState(c, Orphan.SaveHeard(now)), Orphan.PatchOf(h, c, Orphan.SaveHeard(now)), now);
      MeanwhileCall(side, id, others(5));
    }

    // A request is answered with the local signature once its recovery has gone well.
    method SendAnswer(side: Role, id: nat, msg: Msg, a: RecoveryAnswers, r: Result<Row, Error>) returns (result: Result<Row, Error>)
      requires Valid() && NodeOf(w, side).row.Some?
      requires r.Ok? ==> id in NodeOf(w, side).calls && Finished(NodeOf(w, side).calls[id], r.value)
                         && NodeOf(w, side).calls[id].msg == Some(msg) && NodeOf(w, side).calls[id].row.role == side
      modifies this
      ensures Valid() && old(trace) <= trace && Later(old(w), w) && id !in NodeOf(w, side).calls
      ensures result.Ok? ==> result == r
      ensures result.Ok? && msg.OrphanRequest? ==> Answered(w, side, r.value.meta, old(NodeOf(w, side).calls[id].rate))
      ensures result.Err? ==> result == r || (result.error == LndFailure && !a.sendOk)
      ensures NodeOf(w, side).row == old(NodeOf(w, side).row) && (forall e :: Closed(old(w), side, e) ==> Closed(w, side, e))
    {
      hide Starts, CanRun, Run, Orphan.BothSigned;
      result := r;
      if r.Ok? && msg.OrphanRequest? && Orphan.IsSig(Orphan.SigOf(r.value.meta, side)) {
        if !a.sendOk {
          EndCall(side, id);
          return Err(LndFailure);
        }
        ghost var rate := NodeOf(w, side).calls[id].rate;
        Do(Step.Recover(side, id, Orphan.Answer));
        assert Packet(Other(side), OrphanSig(r.value.meta.fundingId, r.value.meta.fundingVout, Orphan.SigOf(r.value.meta, side), rate)) in w.net;
      } else {
        EndCall(side, id);
      }
    }
  }
}
