// The sub-protocol that recovers an orphaned 2-of-2 funding output: each node
// signs the same recovery transaction and sends its signature to the other. A call is
// a sequence of operations, each a single read, write, message or LND call; what it
// carries from one to the next is a value of type Call.
module OrphanRecovery {
  import opened Prelude
  import opened Bitcoin
  import opened Session
  import opened FundingPlan
  import opened Lnd

  // isBalancedOpenSigHex: a DER signature, 9 to 90 bytes long
  predicate IsSig(b: Bytes) {
    9 <= |b| <= 90 && b[0] == 0x30
  }

  const SIGHASH_ALL: Byte := 0x01

  // balancedOpenHasOrphanFundingCandidate: LND opened another point than the one negotiated.
  predicate HasOrphanCandidate(m: Meta) {
    && m.mode == DualMode
    && IsTxid(m.fundingId)
    && Canonical(m.channelPoint).Some?
    && Canonical(m.channelPoint).value != OutPoint(m.fundingId, m.fundingVout)
  }

  // balancedOpenCanProcessOrphanRecovery
  predicate CanProcessOrphan(m: Meta) {
    && m.mode == DualMode
    && IsTxid(m.fundingId)
    && IsPubkey(m.initKey.pub) && IsPubkey(m.accKey.pub)
    && HasTransit(m.initTransit, false) && HasTransit(m.accTransit, false)
  }

  function ProgressState(current: State): State {
    if current in {Canceled, Recovered} then Recovered else current
  }

  function FinalState(current: State): State {
    if current == Active then Active else Recovered
  }

  function SigOf(m: Meta, role: Role): Bytes {
    if role == Initiator then m.initSig else m.accSig
  }

  function WithSig(m: Meta, role: Role, sig: Bytes): Meta {
    if role == Initiator then m.(initSig := sig) else m.(accSig := sig)
  }

  // The rate a call works at: the one asked for, else the recorded one, else 1.
  function ChosenRate(asked: int, recorded: int): (rate: int)
    ensures rate > 0
  {
    if asked > 0 then asked else if recorded > 0 then recorded else 1
  }

  // ---- The checks a call starts with --------------------------------------------------

  // RecoverSessionTransit before it turns to the funding output: the states it works in,
  // and nothing recovered yet.
  predicate MayAsk(row: Row, asked: int) {
    && asked >= 0
    && row.state in {RecoveryRequired, Canceled, Active, Recovered}
    && row.meta.orphanTxid == []
    && HasTransit(LocalTransit(row.role, row.meta), true)
  }

  lemma MayBeAsked(row: Row, asked: int)
    ensures MayAsk(row, asked) <==>
              var t := if row.role == Initiator then row.meta.initTransit else row.meta.accTransit;
              && asked >= 0 && row.state in {RecoveryRequired, Canceled, Active, Recovered}
              && row.meta.orphanTxid == [] && |t.txid| == 32 && t.sat > 0 && t.script != [] && |t.key.pub| == 33
  {
  }

  // recoverOrphanFundingOutput up to the signature: the checks and the plan.
  function PlanRecovery(row: Row, asked: int): Result<OrphanPlan, Error> {
    var m := row.meta;
    if m.mode != DualMode then Err(InvalidAction)
    else if !HasOrphanCandidate(m) && !CanProcessOrphan(m) then Err(RecoveryNotRequired)
    else if m.orphanRate > 0 && asked > 0 && m.orphanRate != asked then Err(FeeRateMismatch)
    else BuildOrphanPlan(row.cap, m, ChosenRate(asked, m.orphanRate))
  }

  lemma PlanNeedsKeys(row: Row, asked: int)
    requires PlanRecovery(row, asked).Ok?
    ensures IsPubkey(row.meta.initKey.pub) && IsPubkey(row.meta.accKey.pub)
    ensures |PlanRecovery(row, asked).value.tx.ins| == 1
    ensures row.meta.orphanRate > 0 ==> ChosenRate(asked, row.meta.orphanRate) == row.meta.orphanRate
  {
  }

  predicate IsOrphanMessage(msg: Msg) {
    msg.OrphanRequest? || msg.OrphanSig?
  }

  // The checks both message handlers start with.
  function CheckOrphanMessage(row: Row, sender: Bytes, msg: Msg): Option<Error>
    requires IsOrphanMessage(msg)
  {
    var m := row.meta;
    if row.peer != sender then Some(InvalidPeerKey)
    else if m.mode != DualMode then Some(InvalidAction)
    else if !HasOrphanCandidate(m) && !CanProcessOrphan(m) then Some(RecoveryNotRequired)
    else if !IsSig(msg.sig) then Some(MissingSignature)
    else if msg.rate < 0 then Some(InvalidFeeRate)
    else if msg.fundingId != [] && msg.fundingId != m.fundingId then Some(FundingMismatch)
    else if msg.fundingVout != 0 && msg.fundingVout != m.fundingVout then Some(FundingMismatch)
    else if m.orphanRate > 0 && m.orphanRate != ChosenRate(msg.rate, m.orphanRate) then Some(FeeRateMismatch)
    else None
  }

  // A recovery message is taken exactly when it comes from the session's peer, carries a
  // signature, and disagrees with nothing on record: neither the funding output nor the rate.
  lemma OrphanMessageIsTaken(row: Row, sender: Bytes, msg: Msg)
    requires IsOrphanMessage(msg)
    ensures sender != row.peer ==> CheckOrphanMessage(row, sender, msg) == Some(InvalidPeerKey)
    ensures CheckOrphanMessage(row, sender, msg).None? <==>
              && sender == row.peer && IsRecoverable(row.meta)
              && 9 <= |msg.sig| <= 90 && msg.sig[0] == 0x30
              && msg.rate >= 0 && (row.meta.orphanRate > 0 ==> msg.rate in {0, row.meta.orphanRate})
              && msg.fundingId in {[], row.meta.fundingId} && msg.fundingVout in {0, row.meta.fundingVout}
  {
  }

  // A dual-funded session with a funding id, where LND opened another point or both keys
  // and both outputs are on record.
  predicate IsRecoverable(m: Meta) {
    && m.mode == DualMode && |m.fundingId| == 32
    && ((m.channelPoint.Point? && |m.channelPoint.at.txid| == 32 && m.channelPoint.at != OutPoint(m.fundingId, m.fundingVout)) ||
        (|m.initKey.pub| == 33 && |m.accKey.pub| == 33 && HasTransit(m.initTransit, false) && HasTransit(m.accTransit, false)))
  }

  // A recovery is planned exactly for a recoverable session that has not recorded another
  // rate than the one asked for and whose output is worth recovering at the rate that is
  // left: the one asked for, else the one recorded, else 1.
  lemma RecoveryIsPlanned(row: Row, asked: int)
    requires asked >= 0
    ensures var rate := if asked > 0 then asked else if row.meta.orphanRate > 0 then row.meta.orphanRate else 1;
            PlanRecovery(row, asked).Ok? <==>
              && IsRecoverable(row.meta) && (row.meta.orphanRate > 0 ==> asked in {0, row.meta.orphanRate})
              && BuildOrphanPlan(row.cap, row.meta, rate).Ok?
    ensures PlanRecovery(row, asked).Ok? ==>
              PlanRecovery(row, asked) == BuildOrphanPlan(row.cap, row.meta, if asked > 0 then asked else if row.meta.orphanRate > 0 then row.meta.orphanRate else 1)
  {
  }

  // ---- A call in progress ---------------------------------------------------------------

  // How far a call has got, and the locals it has from there.
  datatype Stage =
    | Heard                                               // a message passed its checks
    | Planned(plan: OrphanPlan)                           // the recovery is planned
    | Ready(plan: OrphanPlan, sig: Bytes)                 // the local signature is made, not recorded
    | Saved(plan: OrphanPlan, half: Row, sig: Bytes)      // recorded, the peer not yet told
    | Told(plan: OrphanPlan, half: Row)                   // recorded, nothing left to tell
    | Published(plan: OrphanPlan, half: Row)              // both signatures there, LND has taken the recovery
    | Done(row: Row)                                      // recorded as recovered

  // The row a call works from, the rate it works at, the message it answers if it is not
  // the operator's, and how far it is.
  datatype Call = Call(row: Row, rate: int, msg: Option<Msg>, stage: Stage)

  // The rows a call holds, each as the store had it at some time.
  function RowsOf(c: Call): set<Row> {
    match c.stage
    case Saved(_, half, _) => {c.row, half}
    case Told(_, half) => {c.row, half}
    case Published(_, half) => {c.row, half}
    case Done(row) => {c.row, row}
    case _ => {c.row}
  }

  datatype Op =
    | Ask(asked: int)                                     // the operator's call reads the row
    | Hear(sender: Bytes, msg: Msg)                       // a message handler reads the row
    | SaveHeard(now: int)                                 // the peer's signature is recorded
    | Sign(raw: Bytes)                                    // LND signs, unless a signature is stored
    | SaveSigned(now: int)                                // the rate and the local signature are recorded
    | Tell                                                // the operator's call sends its request
    | Publish                                             // LND publishes the recovery
    | SaveDone(spender: Option<Bytes>, now: int)          // its id, or that of another spender, is recorded
    | SaveSwept(now: int)                                 // the sweep of the local output is recorded
    | Answer                                              // a request is answered
    | Quit                                                // an error ends the call

  function Asked(row: Row, asked: int): Call
    requires PlanRecovery(row, asked).Ok?
  {
    Call(row, ChosenRate(asked, row.meta.orphanRate), None, Planned(PlanRecovery(row, asked).value))
  }

  function Listening(row: Row, msg: Msg): Call
    requires IsOrphanMessage(msg)
  {
    Call(row, ChosenRate(msg.rate, row.meta.orphanRate), Some(msg), Heard)
  }

  predicate BothSigned(m: Meta) {
    IsSig(m.initSig) && IsSig(m.accSig)
  }

  // What a call can do next.
  predicate May(c: Call, op: Op) {
    match op
    case Ask(_) => false
    case Hear(_, _) => false
    case SaveHeard(_) => c.stage.Heard? && c.msg.Some? && IsOrphanMessage(c.msg.value)
    case Sign(raw) => c.stage.Planned? && (IsSig(SigOf(c.row.meta, c.row.role)) || (raw != [] && raw[0] == 0x30))
    case SaveSigned(_) => c.stage.Ready?
    case Tell => c.stage.Saved? && IsSig(c.stage.sig)
    case Publish => c.stage.Told? && BothSigned(c.stage.half.meta) && |c.stage.plan.tx.ins| == 1
    case SaveDone(spender, _) => c.stage.Published? && |c.stage.plan.tx.ins| == 1 && (spender.Some? ==> spender.value != [])
    case SaveSwept(_) => c.stage.Done?
    case Answer =>
      && c.msg.Some? && c.msg.value.OrphanRequest?
      && (c.stage.Done? || (c.stage.Told? && !BothSigned(c.stage.half.meta)))
      && IsSig(SigOf(LastRow(c).meta, c.row.role))
    case Quit => true
  }

  function LastRow(c: Call): Row
    requires c.stage.Done? || c.stage.Told?
  {
    if c.stage.Done? then c.stage.row else c.stage.half
  }

  predicate IsWrite(op: Op) {
    op.SaveHeard? || op.SaveSigned? || op.SaveDone? || op.SaveSwept?
  }

  function RecoveryTx(m: Meta, p: OrphanPlan): Tx
    requires |p.tx.ins| == 1
  {
    p.tx.(ins := [p.tx.ins[0].(stack := OrphanWitness(m.initKey.pub, m.accKey.pub, p.script, m.initSig, m.accSig))])
  }

  // ---- Writes ------------------------------------------------------------------------------

  // The state a call writes. It goes by the row the call read or wrote last.
  function NextState(c: Call, op: Op): State
    requires May(c, op) && IsWrite(op)
  {
    if op.SaveDone? then FinalState(c.stage.half.state)
    else if op.SaveSwept? then c.stage.row.state
    else ProgressState(c.row.state)
  }

  // The document a call writes back.
  function DocumentOf(h: Hashes, c: Call, op: Op): Meta
    requires May(c, op) && IsWrite(op) && !op.SaveSwept?
  {
    if op.SaveHeard? then WithSig(c.row.meta, Other(c.row.role), c.msg.value.sig).(orphanRate := c.rate)
    else if op.SaveSigned? then WithSig(c.row.meta.(orphanRate := c.rate), c.row.role, c.stage.sig)
    else c.stage.half.meta.(orphanTxid := if op.spender.Some? then op.spender.value else TxId(h, RecoveryTx(c.stage.half.meta, c.stage.plan)))
  }

  function PatchOf(h: Hashes, c: Call, op: Op): Patch
    requires May(c, op) && IsWrite(op)
  {
    if op.SaveSwept? then NO_PATCH else Encode(DocumentOf(h, c, op))
  }

  // Where the call goes on with the row its write left, if it does.
  function Written(c: Call, op: Op, r: Row): Option<Call>
    requires May(c, op) && IsWrite(op)
  {
    if op.SaveHeard? then
      var plan := PlanRecovery(r, c.rate);
      if plan.Ok? then Some(c.(row := r, stage := Planned(plan.value))) else None
    else if op.SaveSigned? then
      Some(c.(stage := if c.msg.None? then Saved(c.stage.plan, r, c.stage.sig) else Told(c.stage.plan, r)))
    else
      Some(c.(stage := Done(r)))
  }

  // A write a closed row refuses ends the call, except that a sweep need not be recorded.
  function Refused(c: Call, op: Op): Option<Call> {
    if op.SaveSwept? then Some(c) else None
  }

  // ---- Messages and calls to LND ---------------------------------------------------------------

  function LocalSig(c: Call, raw: Bytes): Bytes {
    if IsSig(SigOf(c.row.meta, c.row.role)) then SigOf(c.row.meta, c.row.role) else raw + [SIGHASH_ALL]
  }

  function EventsOf(c: Call, op: Op): seq<LndEvent>
    requires May(c, op) && !IsWrite(op)
  {
    if op.Sign? && !IsSig(SigOf(c.row.meta, c.row.role)) then
      var plan := c.stage.plan;
      [SignedRaw(c.row.role, plan.tx, LocalKey(c.row.role, c.row.meta).pub, plan.script, plan.fundingSat, LocalSig(c, op.raw))]
    else if op.Publish? then [PublishedRecovery(c.row.role, RecoveryTx(c.stage.half.meta, c.stage.plan))]
    else []
  }

  function SentBy(c: Call, op: Op): set<Msg>
    requires May(c, op) && !IsWrite(op)
  {
    if op.Tell? then {OrphanRequest(c.row.meta.fundingId, c.row.meta.fundingVout, c.stage.sig, c.rate)}
    else if op.Answer? then
      var m := LastRow(c).meta;
      {OrphanSig(m.fundingId, m.fundingVout, SigOf(m, c.row.role), c.rate)}
    else {}
  }

  function Continued(c: Call, op: Op): Option<Call>
    requires May(c, op) && !IsWrite(op)
  {
    match op
    case Sign(raw) => Some(c.(stage := Ready(c.stage.plan, LocalSig(c, raw))))
    case Tell => Some(c.(stage := Told(c.stage.plan, c.stage.half)))
    case Publish => Some(c.(stage := Published(c.stage.plan, c.stage.half)))
    case _ => None
  }
}
