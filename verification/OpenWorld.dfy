// Two nodes negotiating one session as a state machine. A step is one database
// write, one message, or one LND call. Between a read and a later write of the
// same call anything else may happen, so a step that writes back a document may
// take it from any row the node has ever stored. The operator calls that propose and
// accept are serial on a node and held in a frame with their locals; recovery calls,
// of the operator or in answer to messages, run side by side, each with its own locals.
module OpenWorld {
  import opened Prelude
  import opened Bitcoin
  import opened Session
  import opened FundingPlan
  import opened Lnd
  import Orphan = OrphanRecovery

  // ---- State ------------------------------------------------------------------

  // The keys and the transit output a node created for itself.
  datatype Artifacts = Artifacts(key: KeyDesc, transit: Transit)

  // The locals of the operator call (propose or accept) in progress: the row it
  // read or wrote last, the metadata it has worked out so far, and whether it has
  // locked coins since its last write.
  datatype Frame = Frame(row: Row, meta: Meta, unsaved: bool)

  // The calls are the orphan-recovery calls in progress, by a number of their own.
  datatype Node = Node(pub: Bytes, row: Option<Row>, hist: set<Row>, frame: Option<Frame>, own: Option<Artifacts>,
                       calls: map<nat, Orphan.Call>)

  datatype Packet = Packet(to: Role, msg: Msg)

  // With honest peers every message received was sent by the other node; otherwise
  // messages are arbitrary. The network keeps every packet: it may deliver one
  // never, late, or many times.
  datatype World = World(honest: bool, cap: int, fee: int, initiator: Node, accepter: Node, net: set<Packet>, log: seq<LndEvent>)

  function NodeOf(w: World, side: Role): Node {
    if side == Initiator then w.initiator else w.accepter
  }

  function WithNode(w: World, side: Role, n: Node): World {
    if side == Initiator then w.(initiator := n) else w.(accepter := n)
  }

  // Where a run starts: the operator has created the initiator's session.
  predicate Starts(w: World) {
    && IsPubkey(w.initiator.pub) && IsPubkey(w.accepter.pub)
    && IsInt64(w.cap) && IsInt64(w.fee)
    && w.net == {} && w.log == []
    && w.accepter == Node(w.accepter.pub, None, {}, None, None, map[])
    && w.initiator.row.Some?
    && NewSession(Initiator, w.accepter.pub, w.cap, w.fee, None, w.initiator.row.value.updatedAt) == Ok(w.initiator.row.value)
    && w.initiator == Node(w.initiator.pub, w.initiator.row, {w.initiator.row.value}, None, None, map[])
  }

  // ---- What the calls look for in a document ------------------------------------

  predicate InitiatorReady(m: Meta) {
    m.mode == DualMode && IsPubkey(m.initKey.pub) && HasTransit(m.initTransit, true)
  }

  predicate AccepterFunded(m: Meta) {
    IsPubkey(m.accKey.pub) && HasTransit(m.accTransit, true)
  }

  predicate AccepterReady(m: Meta) {
    m.mode == DualMode && AccepterFunded(m) && m.accStack != []
  }

  predicate HeardProposal(m: Meta) {
    IsPubkey(m.initKey.pub) && HasTransit(m.initTransit, false)
  }

  predicate Funded(side: Role, m: Meta) {
    if side == Initiator then InitiatorReady(m) else AccepterFunded(m)
  }

  function WithArtifacts(side: Role, m: Meta, own: Artifacts): Meta {
    if side == Initiator
    then m.(mode := DualMode, initKey := own.key, initTransit := own.transit)
    else m.(mode := DualMode, accKey := own.key, accTransit := own.transit)
  }

  // The accepter's document once it has derived the funding transaction.
  function WithFunding(h: Hashes, cap: int, m: Meta): Result<Meta, Error> {
    var id :- PendingChanId(h, m.initKey.pub, m.accKey.pub);
    var derived := m.(mode := DualMode, pendingId := id);
    var p :- BuildDualFundingPlan(h, cap, derived);
    Ok(derived.(fundingId := p.txid, fundingVout := p.vout, fundingTx := Some(p.tx)))
  }

  // The document executeSessionDual works with.
  function ExecuteMeta(h: Hashes, m: Meta): Meta {
    var id := PendingChanId(h, m.initKey.pub, m.accKey.pub);
    if id.Ok? && |id.value| == 32 then m.(pendingId := id.value) else m
  }

  // validateBalancedDualExecuteArtifacts
  function CheckExecuteArtifacts(cap: int, m: Meta): Option<Error> {
    if m.mode != DualMode then Some(InvalidSession)
    else if |m.pendingId| != 32 then Some(MissingArtifacts)
    else if !IsPubkey(m.initKey.pub) || !IsPubkey(m.accKey.pub) then Some(MissingArtifacts)
    else if !HasTransit(m.initTransit, true) || !HasTransit(m.accTransit, false) then Some(MissingArtifacts)
    else if m.accStack == [] then Some(MissingArtifacts)
    else if !IsValidCapacity(cap) then Some(InvalidCapacity)
    else None
  }

  predicate IsExecutable(r: Row) {
    && r.role == Initiator
    && r.state in {Accepted, RecoveryRequired}
  }

  // A row from which executeSessionDual gets as far as its plan.
  predicate HasPlan(h: Hashes, r: Row) {
    var m := ExecuteMeta(h, r.meta);
    && IsExecutable(r)
    && CheckExecuteArtifacts(r.cap, m) == None
    && BuildDualFundingPlan(h, r.cap, m).Ok?
  }

  function PlanOf(h: Hashes, r: Row): DualPlan
    requires HasPlan(h, r)
  {
    BuildDualFundingPlan(h, r.cap, ExecuteMeta(h, r.meta)).value
  }

  function SubmitPatch(h: Hashes, r: Row): Patch
    requires HasPlan(h, r)
  {
    var p := PlanOf(h, r);
    NO_PATCH.(mode := Some(DualMode), pendingId := Some(ExecuteMeta(h, r.meta).pendingId),
              fundingPoint := Some(OutPoint(p.txid, p.vout)), fundingTx := Some(p.tx))
  }

  // LND returned another point than the one asked for.
  predicate IsMismatch(expected: OutPoint, actual: PointText) {
    Canonical(actual).Some? && Canonical(actual).value != expected
  }

  function ProposalOf(r: Row, m: Meta): Msg {
    if m.mode == PushMode then Proposal(r.cap, r.fee, PushMode, [], [], [], 0, 0, [])
    else Proposal(r.cap, r.fee, DualMode, m.pendingId, m.initKey.pub, m.initTransit.txid, m.initTransit.vout, m.initTransit.sat, m.initTransit.script)
  }

  function AcceptOf(m: Meta): Msg {
    if m.mode != DualMode then Accept(PushMode, [], [], [], 0, 0, [], [])
    else Accept(DualMode, m.pendingId, m.accKey.pub, m.accTransit.txid, m.accTransit.vout, m.accTransit.sat, m.accTransit.script, m.accStack)
  }

  // markAcceptedFromPeer up to its write
  function HearAccept(h: Hashes, r: Row, sender: Bytes, msg: Msg): Result<Meta, Error>
    requires msg.Accept?
  {
    var m := r.meta;
    var mode := if msg.mode != NoMode then msg.mode else EffectiveMode(m.mode);
    if r.peer != sender then Err(InvalidPeerKey)
    else if IsTerminal(r.state) then Err(TerminalState)
    else if mode != DualMode then Ok(m)
    else if !IsPubkey(msg.pub) || !IsTxid(msg.txid) || msg.sat <= 0 || msg.script == [] || msg.stack == [] then Err(MissingArtifacts)
    else
      var id :- PendingChanId(h, m.initKey.pub, msg.pub);
      if |msg.pendingId| == 32 && msg.pendingId != id then Err(PendingIdMismatch)
      else
        Ok(m.(mode := DualMode, pendingId := id, accKey := RemoteKey(msg.pub),
              accTransit := Transit(msg.txid, msg.vout, msg.sat, msg.script, NO_KEY), accStack := msg.stack))
  }

  // An accept is heard exactly when it comes from the peer of an open session and, in a
  // dual-funded one, brings all artifacts and no other pending id than the one of both keys.
  // It then sets the accepter's side of the document, and nothing of the initiator's.
  lemma AcceptIsHeard(h: Hashes, r: Row, sender: Bytes, msg: Msg)
    requires msg.Accept?
    ensures var t, m := HearAccept(h, r, sender, msg), r.meta;
            var dual := msg.mode == DualMode || (msg.mode == NoMode && m.mode == DualMode);
            var id := PendingChanId(h, m.initKey.pub, msg.pub);
            && (sender != r.peer ==> t == Err(InvalidPeerKey))
            && (t.Ok? <==>
                && sender == r.peer && r.state !in {Active, Failed, Canceled, Recovered}
                && (dual ==> |m.initKey.pub| == 33 && |msg.pub| == 33 && |msg.txid| == 32 && msg.sat > 0 && msg.script != [] && msg.stack != []
                             && (|msg.pendingId| == 32 ==> id == Ok(msg.pendingId))))
            && (t.Ok? ==>
                  t.value == if !dual then m
                             else m.(mode := DualMode, pendingId := id.value, accKey := KeyDesc(msg.pub, 0, 0), accStack := msg.stack,
                                     accTransit := Transit(msg.txid, msg.vout, msg.sat, msg.script, NO_KEY)))
  {
    PendingIdNamesBothKeys(h, r.meta.initKey.pub, msg.pub);
  }

  // An execution works with the pending id both keys have, whatever is on record.
  lemma ExecutionDerivesThePendingId(h: Hashes, m: Meta)
    requires HashWidths(h)
    ensures var keys := |m.initKey.pub| == 33 && |m.accKey.pub| == 33;
            if keys then exists s: Bytes :: ExecuteMeta(h, m) == m.(pendingId := h.sha256(s)) && IsMultisigOver(s, m.initKey.pub, m.accKey.pub)
            else ExecuteMeta(h, m) == m
  {
    PendingIdNamesBothKeys(h, m.initKey.pub, m.accKey.pub);
  }

  // What a dual-funded execution needs to be on record.
  lemma ExecutionNeeds(cap: int, m: Meta)
    ensures CheckExecuteArtifacts(cap, m).None? <==>
              && m.mode == DualMode && |m.pendingId| == 32 && |m.initKey.pub| == 33 && |m.accKey.pub| == 33
              && |m.initTransit.txid| == 32 && m.initTransit.sat > 0 && m.initTransit.script != [] && |m.initTransit.key.pub| == 33
              && |m.accTransit.txid| == 32 && m.accTransit.sat > 0 && m.accTransit.script != []
              && m.accStack != [] && cap >= 20000 && cap % 2 == 0
  {
  }

  // ---- Writes that leave the modelled metadata alone ----------------------------

  datatype NoteSite =
    | ProposePreflight     // not enough coins to propose
    | AcceptPreflight      // not enough coins to accept
    | AnchorPrecheck       // not enough coins to execute
    | ExecuteFailed        // connect, sign, shim, open failed or the point differed
    | ObservedAfterError   // publishing failed but the funding was seen
    | PushSubmitted
    | PushFailed
    | RebroadcastFailed
    | RebroadcastObserved
    | Rebroadcasted
    | StuckNoted           // stuck detected, automatic retry recorded
    | ShimCanceled
    | TransitRecovered
    | SweepNoted

  predicate CanRebroadcast(r: Row) {
    && r.role == Initiator
    && r.state in {ChannelProposed, PendingOpen, RecoveryRequired}
    && r.meta.mode == DualMode
    && r.meta.channelPoint != Blank
    && r.meta.fundingTx.Some? && AppearsSigned(r.meta.fundingTx.value)
  }

  // A rebroadcast needs a dual-funded session that knows its channel point and a stored
  // transaction with no input left unsigned.
  lemma RebroadcastNeeds(r: Row)
    ensures CanRebroadcast(r) <==>
              && r.role == Initiator && r.state in {ChannelProposed, PendingOpen, RecoveryRequired}
              && r.meta.mode == DualMode && r.meta.channelPoint != Blank
              && r.meta.fundingTx.Some? && r.meta.fundingTx.value.ins != []
              && forall input :: input in r.meta.fundingTx.value.ins ==> input.stack != [] || input.sigScript != []
  {
    if CanRebroadcast(r) {
      forall input | input in r.meta.fundingTx.value.ins
        ensures input.stack != [] || input.sigScript != []
      {
        var i :| 0 <= i < |r.meta.fundingTx.value.ins| && r.meta.fundingTx.value.ins[i] == input;
      }
    }
  }

  predicate SiteApplies(site: NoteSite, r: Row) {
    match site
    case ProposePreflight => r.role == Initiator && IsProposalEligible(r.state)
    case AcceptPreflight => r.role == Accepter && r.state in {ProposalReceived, HalfSigned}
    case AnchorPrecheck => IsExecutable(r)
    case ExecuteFailed => r.role == Initiator && r.state == ChannelProposed
    case ObservedAfterError => r.role == Initiator && r.state == ChannelProposed
    case PushSubmitted => IsExecutable(r) && r.meta.mode != DualMode
    case PushFailed => r.role == Initiator && r.state == ChannelProposed
    case RebroadcastFailed => CanRebroadcast(r)
    case RebroadcastObserved => CanRebroadcast(r)
    case Rebroadcasted => CanRebroadcast(r)
    case StuckNoted => r.state == PendingOpen
    case ShimCanceled => r.state != Active
    case TransitRecovered => r.state in {RecoveryRequired, Canceled, Recovered, Active}
    case SweepNoted => r.meta.orphanTxid != []
  }

  function SiteNext(site: NoteSite, r: Row): State {
    match site
    case AnchorPrecheck => RecoveryRequired
    case ExecuteFailed => RecoveryRequired
    case PushSubmitted => ChannelProposed
    case PushFailed => RecoveryRequired
    case RebroadcastFailed => RecoveryRequired
    case Rebroadcasted => if r.state == PendingOpen then PendingOpen else FundingBroadcasted
    case TransitRecovered => Recovered
    case _ => r.state
  }

  // Most notes leave the state the call has read.
  lemma NotesKeepTheState(site: NoteSite, r: Row)
    ensures SiteNext(site, r) ==
            if site in {AnchorPrecheck, ExecuteFailed, PushFailed, RebroadcastFailed} then RecoveryRequired
            else if site == PushSubmitted then ChannelProposed
            else if site == TransitRecovered then Recovered
            else if site == Rebroadcasted && r.state != PendingOpen then FundingBroadcasted
            else r.state
  {
  }

  // ---- Steps --------------------------------------------------------------------

  // The operator calls that propose and accept: read the row, lock coins in a
  // transit output, sign the accepter's input, write, send, return.
  datatype OperatorStep =
    | Begin(side: Role)
    | Fund(side: Role, multisig: KeyDesc, transitKey: KeyDesc, at: OutPoint)
    | Countersign(answer: Option<seq<Bytes>>)
    | Save(side: Role, next: State, now: int)
    | Send(side: Role)
    | End(side: Role)

  // Where executeSessionDual writes the transaction it has assembled.
  datatype SignedWrite = Acknowledged | BroadcastFailed | Broadcast

  // Calls of transitionSessionWithMetadata, by what they write and on which grounds.
  datatype Update =
    | Submit(from: Row, now: int)
    | SaveSigned(from: Row, submitted: Row, stack: seq<Bytes>, actual: PointText, after: SignedWrite, now: int)
    | PushOpened(from: Row, actual: PointText, now: int)
    | Note(side: Role, from: Row, site: NoteSite, now: int)
    | Promote(side: Role, from: Row, active: bool, point: PointText, now: int)
    | HeardAccept(side: Role, from: Row, sender: Bytes, msg: Msg, now: int)
    | HeardCancel(side: Role, from: Row, now: int)

  // Calls to LND by the initiator that succeed.
  datatype LndCall =
    | SignOwn(from: Row, stack: seq<Bytes>)
    | Open(from: Row, actual: PointText)
    | PublishOwn(from: Row, stack: seq<Bytes>, actual: PointText, saved: Row)
    | PublishStored(from: Row)

  datatype Step =
    | Operate(op: OperatorStep)
    | Write(update: Update)
    | Call(call: LndCall)
    | CancelSession(side: Role, now: int)
    | HearProposal(side: Role, sender: Bytes, msg: Msg, now: int)
    | Recover(side: Role, id: nat, act: Orphan.Op)

  // A message can reach a node if the honest peer sent it, or if peers are not honest.
  predicate Delivered(w: World, side: Role, sender: Bytes, msg: Msg) {
    w.honest ==> Packet(side, msg) in w.net && sender == NodeOf(w, Other(side)).pub
  }

  predicate MayOperate(side: Role, r: Row) {
    && r.role == side
    && (if side == Initiator then IsProposalEligible(r.state) else r.state in {ProposalReceived, HalfSigned})
  }

  predicate CanFund(side: Role, f: Frame) {
    && MayOperate(side, f.row)
    && !Funded(side, f.meta)
    && (if side == Initiator then f.meta.mode != PushMode else f.meta.mode == DualMode && HeardProposal(f.meta))
    && TransitContribution(f.row.cap, EffectiveFeeRate(f.row.fee)).Ok?
    && TransitContribution(f.row.cap, EffectiveFeeRate(f.row.fee)).value > 0
  }

  predicate CanSave(side: Role, f: Frame, next: State) {
    && MayOperate(side, f.row)
    && if side == Initiator
       then next == f.row.state || (next == ProposalSent && (InitiatorReady(f.meta) || f.meta.mode == PushMode))
       else next == f.row.state || (next == HalfSigned && AccepterReady(f.meta)) ||
            (next == Accepted && (f.meta.mode == DualMode ==> AccepterReady(f.meta) && f.row.state == HalfSigned))
  }

  predicate CanSend(side: Role, f: Frame) {
    && MayOperate(side, f.row)
    && if side == Initiator then InitiatorReady(f.meta) || f.meta.mode == PushMode
       else f.meta.mode == DualMode ==> AccepterReady(f.meta) && f.row.state == HalfSigned
  }

  predicate CanCountersign(h: Hashes, f: Frame) {
    && MayOperate(Accepter, f.row)
    && f.meta.mode == DualMode && AccepterFunded(f.meta) && HeardProposal(f.meta)
    && WithFunding(h, f.row.cap, f.meta).Ok?
  }

  function SignEvent(h: Hashes, r: Row, stack: seq<Bytes>): LndEvent
    requires HasPlan(h, r)
  {
    var p := PlanOf(h, r);
    Signed(Initiator, p.tx, p.initIndex, r.meta.initTransit.key.pub, r.meta.initTransit.script, r.meta.initTransit.sat, stack)
  }

  function OpenEvent(h: Hashes, r: Row, actual: PointText): LndEvent
    requires HasPlan(h, r)
  {
    Opened(Initiator, OutPoint(PlanOf(h, r).txid, PlanOf(h, r).vout), actual)
  }

  // The transaction with both witnesses, as executeSessionDual assembles it.
  function AssembledTx(h: Hashes, r: Row, stack: seq<Bytes>): Tx
    requires HasPlan(h, r)
  {
    var p := PlanOf(h, r);
    if |p.tx.ins| == 2 && p.initIndex + p.accIndex == 1
    then FinalTx(p, InputScript([], stack), r.meta.accStack)
    else p.tx
  }

  // LND acknowledged the channel of this plan and did not return another point.
  predicate OpenAcknowledged(h: Hashes, w: World, r: Row, actual: PointText)
    requires HasPlan(h, r)
  {
    && OpenEvent(h, r, actual) in w.log
    && !IsMismatch(OutPoint(PlanOf(h, r).txid, PlanOf(h, r).vout), actual)
  }

  predicate OperatorMay(h: Hashes, w: World, op: OperatorStep) {
    match op
    case Begin(side) =>
      NodeOf(w, side).frame.None? && NodeOf(w, side).row.Some?
    case Fund(side, multisig, transitKey, at) =>
      && NodeOf(w, side).frame.Some? && CanFund(side, NodeOf(w, side).frame.value)
      && IsPubkey(multisig.pub) && IsPubkey(transitKey.pub) && IsTxid(at.txid)
    case Countersign(answer) =>
      && w.accepter.frame.Some?
      && CanCountersign(h, w.accepter.frame.value)
      && (answer.Some? ==> answer.value != [])
    case Save(side, next, now) =>
      NodeOf(w, side).frame.Some? && CanSave(side, NodeOf(w, side).frame.value, next)
    case Send(side) =>
      NodeOf(w, side).frame.Some? && CanSend(side, NodeOf(w, side).frame.value)
    case End(side) => // a call that has locked coins always tries to write before it returns
      NodeOf(w, side).frame.Some? && !NodeOf(w, side).frame.value.unsaved
  }

  predicate MayUpdate(h: Hashes, w: World, u: Update) {
    match u
    case Submit(from, now) =>
      from in w.initiator.hist && HasPlan(h, from)
    case SaveSigned(from, submitted, stack, actual, after, now) =>
      && from in w.initiator.hist && HasPlan(h, from)
      && submitted in w.initiator.hist && submitted.state == ChannelProposed && submitted.meta.fundingId == PlanOf(h, from).txid
      && SignEvent(h, from, stack) in w.log
      && OpenAcknowledged(h, w, from, actual)
    case PushOpened(from, actual, now) =>
      from in w.initiator.hist && IsExecutable(from) && from.meta.mode != DualMode
    case Note(side, from, site, now) =>
      from in NodeOf(w, side).hist && SiteApplies(site, from)
    case Promote(side, from, active, point, now) =>
      from in NodeOf(w, side).hist && from.state in {Accepted, ChannelProposed, FundingBroadcasted, PendingOpen, RecoveryRequired}
    case HeardAccept(side, from, sender, msg, now) =>
      && msg.Accept? && Delivered(w, side, sender, msg)
      && from in NodeOf(w, side).hist && HearAccept(h, from, sender, msg).Ok?
    case HeardCancel(side, from, now) =>
      Delivered(w, side, from.peer, Cancel) && from in NodeOf(w, side).hist
  }

  predicate MayCall(h: Hashes, w: World, c: LndCall) {
    match c
    case SignOwn(from, stack) =>
      from in w.initiator.hist && HasPlan(h, from)
    case Open(from, actual) =>
      from in w.initiator.hist && HasPlan(h, from)
    case PublishOwn(from, stack, actual, saved) =>
      && from in w.initiator.hist && HasPlan(h, from)
      && SignEvent(h, from, stack) in w.log
      && OpenAcknowledged(h, w, from, actual)
      && saved in w.initiator.hist && saved.meta.fundingTx == Some(AssembledTx(h, from, stack))
    case PublishStored(from) =>
      && from in w.initiator.hist && from.meta.mode == DualMode
      && from.meta.fundingTx.Some? && AppearsSigned(from.meta.fundingTx.value)
  }

  // A recovery call starts from the row as it stands; from then on it goes by its own locals.
  predicate MayRecover(w: World, side: Role, id: nat, op: Orphan.Op) {
    var n := NodeOf(w, side);
    && n.row.Some?
    && match op
       case Ask(asked) => id !in n.calls && Orphan.MayAsk(n.row.value, asked) && Orphan.PlanRecovery(n.row.value, asked).Ok?
       case Hear(sender, msg) =>
         && id !in n.calls && Orphan.IsOrphanMessage(msg) && Delivered(w, side, sender, msg)
         && Orphan.CheckOrphanMessage(n.row.value, sender, msg).None?
       case _ => id in n.calls && Orphan.May(n.calls[id], op)
  }

  predicate Enabled(h: Hashes, w: World, step: Step) {
    match step
    case Operate(op) => OperatorMay(h, w, op)
    case Write(u) => MayUpdate(h, w, u)
    case Call(c) => MayCall(h, w, c)
    case CancelSession(side, now) => NodeOf(w, side).row.Some?
    case HearProposal(side, sender, msg, now) => msg.Proposal? && Delivered(w, side, sender, msg)
    case Recover(side, id, act) => MayRecover(w, side, id, act)
  }

  // ---- Effects --------------------------------------------------------------------

  function Stored(n: Node, r: Row): Node {
    n.(row := Some(r), hist := n.hist + {r})
  }

  function Framed(w: World, side: Role, f: Option<Frame>): World {
    WithNode(w, side, NodeOf(w, side).(frame := f))
  }

  function StoredRow(w: World, side: Role, r: Row): World {
    WithNode(w, side, Stored(NodeOf(w, side), r))
  }

  // A transition of a node's row: nothing changes when the guard refuses it.
  function Written(w: World, side: Role, next: State, p: Patch, now: int): World {
    var row := NodeOf(w, side).row;
    if row.None? || Transition(row.value, next, p, now).Err? then w
    else StoredRow(w, side, Transition(row.value, next, p, now).value)
  }

  function Log(w: World, events: seq<LndEvent>): World {
    w.(log := w.log + events)
  }

  function FundedArtifacts(h: Hashes, r: Row, multisig: KeyDesc, transitKey: KeyDesc, at: OutPoint): Artifacts
    requires TransitContribution(r.cap, EffectiveFeeRate(r.fee)).Ok?
  {
    var sat := TransitContribution(r.cap, EffectiveFeeRate(r.fee)).value;
    Artifacts(multisig, Transit(at.txid, at.vout, sat, PubkeyHashScript(h, transitKey.pub), transitKey))
  }

  function CountersignedMeta(h: Hashes, f: Frame, answer: Option<seq<Bytes>>): Meta
    requires CanCountersign(h, f)
  {
    var m := WithFunding(h, f.row.cap, f.meta).value;
    if answer.Some? then m.(accStack := answer.value) else m
  }

  // The accepter's signature over its input of the plan its document yields.
  function CountersignEvents(h: Hashes, f: Frame, answer: Option<seq<Bytes>>): seq<LndEvent>
    requires CanCountersign(h, f)
  {
    var m := WithFunding(h, f.row.cap, f.meta).value;
    var p := BuildDualFundingPlan(h, f.row.cap, m);
    if answer.None? || p.Err? then []
    else [Signed(Accepter, p.value.tx, p.value.accIndex, m.accTransit.key.pub, m.accTransit.script, m.accTransit.sat, answer.value)]
  }

  // What an operator call sends: the initiator its proposal, the accepter its accept.
  function SentPacket(side: Role, f: Frame): Packet {
    Packet(Other(side), if side == Initiator then ProposalOf(f.row, f.meta) else AcceptOf(f.meta))
  }

  // An operator call locks coins in a transit output and notes its keys.
  function Locked(w: World, side: Role, own: Artifacts): World
    requires NodeOf(w, side).frame.Some?
  {
    var n := NodeOf(w, side);
    var f := Frame(n.frame.value.row, WithArtifacts(side, n.frame.value.meta, own), true);
    Log(WithNode(w, side, n.(frame := Some(f), own := Some(own))),
        [SentOutput(side, own.transit.sat, own.transit.script, TransitPoint(own.transit))])
  }

  // An operator call writes back the document it has worked out, and goes on from
  // the row this leaves. A closed row refuses the write.
  function Saved(w: World, side: Role, next: State, now: int): World {
    var n := NodeOf(w, side);
    if n.row.None? || n.frame.None? then w
    else
      var r := Transition(n.row.value, next, Encode(n.frame.value.meta), now);
      if r.Err? then Framed(w, side, Some(n.frame.value.(unsaved := false)))
      else Framed(StoredRow(w, side, r.value), side, Some(Frame(r.value, n.frame.value.meta, false)))
  }

  function Operated(h: Hashes, w: World, op: OperatorStep): World
    requires OperatorMay(h, w, op)
  {
    match op
    case Begin(side) =>
      var r := NodeOf(w, side).row.value;
      Framed(w, side, Some(Frame(r, r.meta, false)))
    case Fund(side, multisig, transitKey, at) =>
      Locked(w, side, FundedArtifacts(h, NodeOf(w, side).frame.value.row, multisig, transitKey, at))
    case Countersign(answer) =>
      var f := w.accepter.frame.value;
      Framed(Log(w, CountersignEvents(h, f, answer)), Accepter, Some(f.(meta := CountersignedMeta(h, f, answer))))
    case Save(side, next, now) =>
      Saved(w, side, next, now)
    case Send(side) =>
      w.(net := w.net + {SentPacket(side, NodeOf(w, side).frame.value)})
    case End(side) =>
      Framed(w, side, None)
  }

  function SignedPatch(h: Hashes, r: Row, stack: seq<Bytes>, actual: PointText, after: SignedWrite): Patch
    requires HasPlan(h, r)
  {
    var tx := Some(AssembledTx(h, r, stack));
    var point := Some(OutPoint(PlanOf(h, r).txid, PlanOf(h, r).vout));
    match after
    case Acknowledged => NO_PATCH.(channelPoint := Some(actual), fundingPoint := point, fundingTx := tx)
    case BroadcastFailed => NO_PATCH.(fundingTx := tx)
    case Broadcast => NO_PATCH.(mode := Some(DualMode), channelPoint := Some(actual), fundingPoint := point, fundingTx := tx)
  }

  function SideOf(u: Update): Role {
    match u
    case Note(side, _, _, _) => side
    case Promote(side, _, _, _, _) => side
    case HeardAccept(side, _, _, _, _) => side
    case HeardCancel(side, _, _) => side
    case _ => Initiator
  }

  function NextState(u: Update): State {
    match u
    case Submit(_, _) => ChannelProposed
    case SaveSigned(_, _, _, _, after, _) =>
      (match after
       case Acknowledged => ChannelProposed
       case BroadcastFailed => RecoveryRequired
       case Broadcast => FundingBroadcasted)
    case PushOpened(_, _, _) => FundingBroadcasted
    case Note(_, from, site, _) => SiteNext(site, from)
    case Promote(_, _, active, _, _) => if active then Active else PendingOpen
    case HeardAccept(_, _, _, _, _) => Accepted
    case HeardCancel(_, _, _) => Canceled
  }

  function PatchOf(h: Hashes, w: World, u: Update): Patch
    requires MayUpdate(h, w, u)
  {
    match u
    case Submit(from, _) => SubmitPatch(h, from)
    case SaveSigned(from, _, stack, actual, after, _) => SignedPatch(h, from, stack, actual, after)
    case PushOpened(_, actual, _) => NO_PATCH.(mode := Some(PushMode), channelPoint := Some(actual))
    case Promote(_, _, _, point, _) => NO_PATCH.(channelPoint := Some(point))
    case HeardAccept(_, from, sender, msg, _) => Encode(HearAccept(h, from, sender, msg).value)
    case _ => NO_PATCH
  }

  function Updated(h: Hashes, w: World, u: Update): World
    requires MayUpdate(h, w, u)
  {
    Written(w, SideOf(u), NextState(u), PatchOf(h, w, u), u.now)
  }

  function EventOf(h: Hashes, w: World, c: LndCall): LndEvent
    requires MayCall(h, w, c)
  {
    match c
    case SignOwn(from, stack) => SignEvent(h, from, stack)
    case Open(from, actual) => OpenEvent(h, from, actual)
    case PublishOwn(from, stack, _, _) => PublishedFunding(Initiator, AssembledTx(h, from, stack))
    case PublishStored(from) => PublishedFunding(Initiator, from.meta.fundingTx.value)
  }

  function StoredIfOk(w: World, side: Role, r: Result<Row, Error>): World {
    if r.Ok? then StoredRow(w, side, r.value) else w
  }

  function WithCall(w: World, side: Role, id: nat, c: Option<Orphan.Call>): World {
    var n := NodeOf(w, side);
    WithNode(w, side, n.(calls := if c.Some? then n.calls[id := c.value] else n.calls - {id}))
  }

  function Sent(w: World, side: Role, msgs: set<Msg>): World {
    w.(net := w.net + set m | m in msgs :: Packet(Other(side), m))
  }

  // A recovery call writes: it goes on with the row this leaves, or ends if it is refused.
  function RecoveryWritten(h: Hashes, w: World, side: Role, id: nat, op: Orphan.Op): World
    requires MayRecover(w, side, id, op) && Orphan.IsWrite(op)
  {
    var c := NodeOf(w, side).calls[id];
    var next, p := Orphan.NextState(c, op), Orphan.PatchOf(h, c, op);
    var r := Transition(NodeOf(w, side).row.value, next, p, op.now);
    WithCall(Written(w, side, next, p, op.now), side, id, if r.Ok? then Orphan.Written(c, op, r.value) else Orphan.Refused(c, op))
  }

  function RecoveryStepped(h: Hashes, w: World, side: Role, id: nat, op: Orphan.Op): World
    requires MayRecover(w, side, id, op)
  {
    if op.Ask? then WithCall(w, side, id, Some(Orphan.Asked(NodeOf(w, side).row.value, op.asked)))
    else if op.Hear? then WithCall(w, side, id, Some(Orphan.Listening(NodeOf(w, side).row.value, op.msg)))
    else if Orphan.IsWrite(op) then RecoveryWritten(h, w, side, id, op)
    else
      var c := NodeOf(w, side).calls[id];
      WithCall(Sent(Log(w, Orphan.EventsOf(c, op)), side, Orphan.SentBy(c, op)), side, id, Orphan.Continued(c, op))
  }

  function Apply(h: Hashes, w: World, step: Step): World
    requires Enabled(h, w, step)
  {
    match step
    case Operate(op) => Operated(h, w, op)
    case Write(u) => Updated(h, w, u)
    case Call(c) => Log(w, [EventOf(h, w, c)])
    case CancelSession(side, now) => StoredIfOk(w, side, CancelRow(NodeOf(w, side).row.value, now))
    case HearProposal(side, sender, msg, now) => StoredIfOk(w, side, UpsertFromProposal(NodeOf(w, side).row, sender, msg, now))
    case Recover(side, id, act) => RecoveryStepped(h, w, side, id, act)
  }

  // ---- Runs -----------------------------------------------------------------------

  predicate CanRun(h: Hashes, w: World, steps: seq<Step>)
    decreases |steps|
  {
    steps == [] || (Enabled(h, w, steps[0]) && CanRun(h, Apply(h, w, steps[0]), steps[1..]))
  }

  function Run(h: Hashes, w: World, steps: seq<Step>): World
    requires CanRun(h, w, steps)
    decreases |steps|
  {
    if steps == [] then w else Run(h, Apply(h, w, steps[0]), steps[1..])
  }

  lemma {:induction false} RunsCompose(h: Hashes, w: World, first: seq<Step>, rest: seq<Step>)
    requires CanRun(h, w, first) && CanRun(h, Run(h, w, first), rest)
    ensures CanRun(h, w, first + rest) && Run(h, w, first + rest) == Run(h, Run(h, w, first), rest)
    decreases |first|
  {
    hide Apply, Enabled;
    var all := first + rest;
    if first == [] {
      assert all == rest;
    } else {
      RunsCompose(h, Apply(h, w, first[0]), first[1..], rest);
      assert all[0] == first[0] && all[1..] == first[1..] + rest;
    }
  }

  lemma OneStep(h: Hashes, w: World, step: Step)
    requires Enabled(h, w, step)
    ensures CanRun(h, w, [step]) && Run(h, w, [step]) == Apply(h, w, step)
  {
    hide Apply, Enabled;
    assert [step][1..] == [];
    assert CanRun(h, Apply(h, w, step), []) && Run(h, Apply(h, w, step), []) == Apply(h, w, step);
  }
}
