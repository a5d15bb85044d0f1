// One balanced-open session as the database stores it: the row, its metadata
// document with the top-level merge every writer uses, and the three atomic
// read-check-write statements (transition, cancel, proposal upsert).
// Hex text is modelled by the bytes it decodes to; an absent or empty JSON
// value is the empty value of its type.
module Session {
  import opened Prelude
  import opened Bitcoin

  datatype Role = Initiator | Accepter

  datatype Mode = NoMode | PushMode | DualMode

  datatype State =
    | SessionCreated
    | ProposalSent
    | ProposalReceived
    | Accepted
    | HalfSigned
    | FullySigned
    | ChannelProposed
    | FundingBroadcasted
    | PendingOpen
    | Active
    | Failed
    | Canceled
    | RecoveryRequired
    | Recovered

  datatype Error =
    | NotFound
    | InvalidPeerKey
    | InvalidCapacity
    | InvalidFeeRate
    | InvalidAction
    | InvalidSession
    | TerminalState
    | MissingArtifacts
    | PendingIdMismatch
    | InsufficientOnchain
    | LndFailure
    | PointMismatch
    | RecoveryNotRequired
    | MissingSignature
    | FundingMismatch
    | FeeRateMismatch
    | OutputTooSmall

  function Other(role: Role): Role {
    if role == Initiator then Accepter else Initiator
  }

  predicate IsTerminal(state: State) {
    state in {Active, Failed, Canceled, Recovered}
  }

  predicate IsProposalEligible(state: State) {
    state in {SessionCreated, ProposalSent, ProposalReceived}
  }

  // ---- Metadata -----------------------------------------------------------

  datatype KeyDesc = KeyDesc(pub: Bytes, family: int, index: int)

  const NO_KEY := KeyDesc([], 0, 0)

  datatype Transit = Transit(txid: Bytes, vout: nat, sat: int, script: Bytes, key: KeyDesc)

  const NO_TRANSIT := Transit([], 0, 0, [], NO_KEY)

  // The text of a channel point: empty, not of the form txid:vout, or a point.
  datatype PointText = Blank | Garbled | Point(at: OutPoint)

  function Canonical(text: PointText): Option<OutPoint> {
    if text.Point? && IsTxid(text.at.txid) then Some(text.at) else None
  }

  datatype Meta = Meta(
    mode: Mode,
    pendingId: Bytes,
    initKey: KeyDesc,
    accKey: KeyDesc,
    initTransit: Transit,
    accTransit: Transit,
    accStack: seq<Bytes>,
    fundingTx: Option<Tx>,
    fundingId: Bytes,
    fundingVout: nat,
    channelPoint: PointText,
    orphanRate: int,
    initSig: Bytes,
    accSig: Bytes,
    orphanTxid: Bytes
  )

  const EMPTY_META := Meta(NoMode, [], NO_KEY, NO_KEY, NO_TRANSIT, NO_TRANSIT, [], None, [], 0, Blank, 0, [], [], [])

  predicate HasTransit(t: Transit, requireKey: bool) {
    IsTxid(t.txid) && t.sat > 0 && t.script != [] && (requireKey ==> IsPubkey(t.key.pub))
  }

  function TransitPoint(t: Transit): OutPoint {
    OutPoint(t.txid, t.vout)
  }

  function LocalTransit(role: Role, m: Meta): Transit {
    if role == Initiator then m.initTransit else m.accTransit
  }

  function LocalKey(role: Role, m: Meta): KeyDesc {
    if role == Initiator then m.initKey else m.accKey
  }

  // What a peer's message tells about its key and its transit output.
  function RemoteKey(pub: Bytes): KeyDesc {
    KeyDesc(pub, 0, 0)
  }

  function WithoutKey(t: Transit): Transit {
    t.(key := NO_KEY)
  }

  // A JSON object merged over the stored document: only the keys present in it
  // replace stored values. The funding id and vout are always written together.
  datatype Patch = Patch(
    mode: Option<Mode>,
    pendingId: Option<Bytes>,
    initKey: Option<KeyDesc>,
    accKey: Option<KeyDesc>,
    initTransit: Option<Transit>,
    accTransit: Option<Transit>,
    accStack: Option<seq<Bytes>>,
    fundingTx: Option<Tx>,
    fundingPoint: Option<OutPoint>,
    channelPoint: Option<PointText>,
    orphanRate: Option<int>,
    initSig: Option<Bytes>,
    accSig: Option<Bytes>,
    orphanTxid: Option<Bytes>
  )

  const NO_PATCH := Patch(None, None, None, None, None, None, None, None, None, None, None, None, None, None)

  function Or<T>(patched: Option<T>, stored: T): T {
    if patched.Some? then patched.value else stored
  }

  // coalesce(metadata, '{}') || patch
  function Merge(m: Meta, p: Patch): Meta {
    Meta(
      Or(p.mode, m.mode),
      Or(p.pendingId, m.pendingId),
      Or(p.initKey, m.initKey),
      Or(p.accKey, m.accKey),
      Or(p.initTransit, m.initTransit),
      Or(p.accTransit, m.accTransit),
      Or(p.accStack, m.accStack),
      if p.fundingTx.Some? then p.fundingTx else m.fundingTx,
      if p.fundingPoint.Some? then p.fundingPoint.value.txid else m.fundingId,
      if p.fundingPoint.Some? then p.fundingPoint.value.vout else m.fundingVout,
      Or(p.channelPoint, m.channelPoint),
      Or(p.orphanRate, m.orphanRate),
      Or(p.initSig, m.initSig),
      Or(p.accSig, m.accSig),
      Or(p.orphanTxid, m.orphanTxid)
    )
  }

  // Of two writes in turn, every field is left by the last one that names it.
  lemma LastWriteWins(m: Meta, p: Patch, q: Patch)
    ensures var r := Merge(Merge(m, p), q);
            && r.mode == Last(m.mode, p.mode, q.mode)
            && r.pendingId == Last(m.pendingId, p.pendingId, q.pendingId)
            && r.initKey == Last(m.initKey, p.initKey, q.initKey)
            && r.accKey == Last(m.accKey, p.accKey, q.accKey)
            && r.initTransit == Last(m.initTransit, p.initTransit, q.initTransit)
            && r.accTransit == Last(m.accTransit, p.accTransit, q.accTransit)
            && r.accStack == Last(m.accStack, p.accStack, q.accStack)
            && r.fundingTx == (if q.fundingTx.Some? then q.fundingTx else if p.fundingTx.Some? then p.fundingTx else m.fundingTx)
            && OutPoint(r.fundingId, r.fundingVout) == Last(OutPoint(m.fundingId, m.fundingVout), p.fundingPoint, q.fundingPoint)
            && r.channelPoint == Last(m.channelPoint, p.channelPoint, q.channelPoint)
            && r.orphanRate == Last(m.orphanRate, p.orphanRate, q.orphanRate)
            && r.initSig == Last(m.initSig, p.initSig, q.initSig)
            && r.accSig == Last(m.accSig, p.accSig, q.accSig)
            && r.orphanTxid == Last(m.orphanTxid, p.orphanTxid, q.orphanTxid)
  {
  }

  function Last<T>(stored: T, first: Option<T>, second: Option<T>): T {
    match (first, second)
    case (_, Some(v)) => v
    case (Some(v), None) => v
    case (None, None) => stored
  }

  function Unless<T>(absent: bool, value: T): Option<T> {
    if absent then None else Some(value)
  }

  function EncodeKey(k: KeyDesc): Option<KeyDesc> {
    Unless(!IsPubkey(k.pub), k)
  }

  function EncodeTransit(t: Transit): Option<Transit> {
    Unless(!HasTransit(t, false), t.(key := if IsPubkey(t.key.pub) then t.key else NO_KEY))
  }

  // balancedEncodeMetadata
  function Encode(m: Meta): Patch {
    Patch(
      Unless(m.mode == NoMode, m.mode),
      Unless(m.pendingId == [], m.pendingId),
      EncodeKey(m.initKey),
      EncodeKey(m.accKey),
      EncodeTransit(m.initTransit),
      EncodeTransit(m.accTransit),
      Unless(m.accStack == [], m.accStack),
      m.fundingTx,
      Unless(m.fundingId == [], OutPoint(m.fundingId, m.fundingVout)),
      Unless(m.channelPoint == Blank, m.channelPoint),
      Unless(m.orphanRate <= 0, m.orphanRate),
      Unless(m.initSig == [], m.initSig),
      Unless(m.accSig == [], m.accSig),
      Unless(m.orphanTxid == [], m.orphanTxid)
    )
  }

  datatype Field =
    | FMode | FPendingId | FInitKey | FAccKey | FInitTransit | FInitTransitKey | FAccTransit | FAccTransitKey
    | FAccStack | FFundingTx | FFundingId | FChannelPoint | FOrphanRate | FInitSig | FAccSig | FOrphanTxid

  // Whether a metadata document records a usable value for a field.
  predicate Records(m: Meta, f: Field) {
    match f
    case FMode => m.mode != NoMode
    case FPendingId => m.pendingId != []
    case FInitKey => IsPubkey(m.initKey.pub)
    case FAccKey => IsPubkey(m.accKey.pub)
    case FInitTransit => HasTransit(m.initTransit, false)
    case FInitTransitKey => HasTransit(m.initTransit, true)
    case FAccTransit => HasTransit(m.accTransit, false)
    case FAccTransitKey => HasTransit(m.accTransit, true)
    case FAccStack => m.accStack != []
    case FFundingTx => m.fundingTx.Some?
    case FFundingId => m.fundingId != []
    case FChannelPoint => m.channelPoint != Blank
    case FOrphanRate => m.orphanRate > 0
    case FInitSig => m.initSig != []
    case FAccSig => m.accSig != []
    case FOrphanTxid => m.orphanTxid != []
  }

  // The key that belongs to a transit output is part of that output's object, so
  // it survives a write of the same object only if the writer knew it.
  predicate KnowsKeysOf(m: Meta, writer: Meta) {
    && (Records(m, FInitTransitKey) && Records(writer, FInitTransit) ==> Records(writer, FInitTransitKey))
    && (Records(m, FAccTransitKey) && Records(writer, FAccTransit) ==> Records(writer, FAccTransitKey))
  }

  // A write-back of any document never erases what is recorded, and whatever the
  // written document records is what a reader finds afterwards. The exception is
  // exact: a transit key is lost when and only when the writer knew the transit
  // output but not its key.
  lemma EncodeNeverErases(m: Meta, writer: Meta)
    ensures forall f :: Records(writer, f) ==> Records(Merge(m, Encode(writer)), f)
    ensures forall f :: f != FInitTransitKey && f != FAccTransitKey && Records(m, f) ==> Records(Merge(m, Encode(writer)), f)
    ensures KnowsKeysOf(m, writer) <==> forall f :: Records(m, f) ==> Records(Merge(m, Encode(writer)), f)
  {
    var r := Merge(m, Encode(writer));
    forall f | Records(writer, f)
      ensures Records(r, f)
    {
    }
    forall f | Records(m, f) && (KnowsKeysOf(m, writer) || (f != FInitTransitKey && f != FAccTransitKey))
      ensures Records(r, f)
    {
    }
    if forall f :: Records(m, f) ==> Records(r, f) {
      assert Records(m, FInitTransitKey) ==> Records(r, FInitTransitKey);
      assert Records(m, FAccTransitKey) ==> Records(r, FAccTransitKey);
    }
  }

  // Documents in the form the service stores them.
  predicate StoredForm(m: Meta) {
    && (m.initKey == NO_KEY || IsPubkey(m.initKey.pub))
    && (m.accKey == NO_KEY || IsPubkey(m.accKey.pub))
    && StoredTransit(m.initTransit)
    && StoredTransit(m.accTransit)
    && (m.fundingId == [] ==> m.fundingVout == 0)
    && m.orphanRate >= 0
  }

  predicate StoredTransit(t: Transit) {
    t == NO_TRANSIT || (HasTransit(t, false) && (t.key == NO_KEY || IsPubkey(t.key.pub)))
  }

  // Writing a document to an empty row, or back over itself, reads back the same.
  lemma EncodeRoundTrips(m: Meta)
    requires StoredForm(m)
    ensures Merge(EMPTY_META, Encode(m)) == m
    ensures Merge(m, Encode(m)) == m
  {
  }

  // ---- Peer messages ------------------------------------------------------

  datatype Msg =
    | Proposal(cap: int, fee: int, mode: Mode, pendingId: Bytes, pub: Bytes, txid: Bytes, vout: nat, sat: int, script: Bytes)
    | Accept(mode: Mode, pendingId: Bytes, pub: Bytes, txid: Bytes, vout: nat, sat: int, script: Bytes, stack: seq<Bytes>)
    | Cancel
    | OrphanRequest(fundingId: Bytes, fundingVout: nat, sig: Bytes, rate: int)
    | OrphanSig(fundingId: Bytes, fundingVout: nat, sig: Bytes, rate: int)

  // ---- The row and its atomic updates ---------------------------------------

  const MIN_CAPACITY_SAT := 20000

  predicate IsValidCapacity(cap: int) {
    cap >= MIN_CAPACITY_SAT && cap % 2 == 0
  }

  datatype Row = Row(role: Role, peer: Bytes, cap: int, fee: int, state: State, updatedAt: int, meta: Meta)

  // CreateSession, with the metadata the caller gives or, if none, the default.
  function NewSession(role: Role, peer: Bytes, cap: int, fee: int, given: Option<Meta>, now: int): Result<Row, Error> {
    if !IsPubkey(peer) then Err(InvalidPeerKey)
    else if fee < 0 then Err(InvalidFeeRate)
    else if !IsValidCapacity(cap) then Err(InvalidCapacity)
    else Ok(Row(role, peer, cap, fee, SessionCreated, now, Or(given, EMPTY_META.(mode := DualMode))))
  }

  // transitionSessionWithMetadata: terminal rows move only from canceled or
  // recovered to recovered.
  function Transition(r: Row, next: State, p: Patch, now: int): Result<Row, Error> {
    if IsTerminal(r.state) && !(r.state in {Canceled, Recovered} && next == Recovered) then Err(TerminalState)
    else Ok(r.(state := next, updatedAt := now, meta := Merge(r.meta, p)))
  }

  // The guard of a transition.
  predicate Admits(state: State, next: State) {
    IsTerminal(state) ==> state in {Canceled, Recovered} && next == Recovered
  }

  // A transition goes through exactly when its guard admits it, and resets the age of the state.
  lemma TransitionIsGuarded(r: Row, next: State, p: Patch, now: int)
    ensures var t := Transition(r, next, p, now);
            && (t.Ok? <==> Admits(r.state, next))
            && (t.Ok? ==> t.value.state == next && t.value.updatedAt == now)
  {
  }

  // The check and the update of CancelSession.
  function CancelRow(r: Row, now: int): Result<Row, Error> {
    if IsTerminal(r.state) then Err(TerminalState)
    else Ok(r.(state := Canceled, updatedAt := now))
  }

  // Whether the proposal of a peer can be stored: by whom, on which terms, and for a
  // dual-funded channel with which artifacts.
  predicate IsGoodProposal(sender: Bytes, msg: Msg)
    requires msg.Proposal?
  {
    && |sender| == 33 && msg.fee >= 0 && msg.cap >= 20000 && msg.cap % 2 == 0
    && (msg.mode == DualMode ==> |msg.pub| == 33 && |msg.txid| == 32 && msg.sat > 0 && msg.script != [])
  }

  // A stored proposal sets the terms and the initiator's side of the document, nothing of
  // the accepter's, and neither the role nor a terminal state.
  predicate IsStoredProposal(stored: Option<Row>, sender: Bytes, msg: Msg, now: int, r: Row)
    requires msg.Proposal?
  {
    var m := if stored.Some? then stored.value.meta else EMPTY_META;
    && r.peer == sender && r.cap == msg.cap && r.fee == msg.fee
    && r.role == (if stored.Some? then stored.value.role else Accepter)
    && (if stored.Some? && stored.value.state in {Active, Failed, Canceled, Recovered}
        then r.state == stored.value.state && r.updatedAt == stored.value.updatedAt
        else r.state == ProposalReceived && r.updatedAt == now)
    && (if msg.mode == DualMode
        then r.meta == m.(mode := DualMode, pendingId := if |msg.pendingId| == 32 then msg.pendingId else m.pendingId,
                          initKey := KeyDesc(msg.pub, 0, 0), initTransit := Transit(msg.txid, msg.vout, msg.sat, msg.script, NO_KEY))
        else r.meta == m.(mode := PushMode))
  }

  lemma ProposalIsStored(stored: Option<Row>, sender: Bytes, msg: Msg, now: int)
    requires msg.Proposal?
    ensures var t := UpsertFromProposal(stored, sender, msg, now);
            && (t.Ok? <==> IsGoodProposal(sender, msg))
            && (t.Ok? ==> IsStoredProposal(stored, sender, msg, now, t.value))
  {
  }

  function EffectiveMode(mode: Mode): Mode {
    if mode == NoMode then PushMode else mode
  }

  function CheckProposal(sender: Bytes, msg: Msg): Result<(), Error>
    requires msg.Proposal?
  {
    if !IsPubkey(sender) then Err(InvalidPeerKey)
    else if msg.fee < 0 then Err(InvalidFeeRate)
    else if !IsValidCapacity(msg.cap) then Err(InvalidCapacity)
    else if msg.mode == DualMode && !(IsPubkey(msg.pub) && IsTxid(msg.txid) && msg.sat > 0 && msg.script != []) then
      Err(MissingArtifacts)
    else Ok(())
  }

  function ProposalPatch(msg: Msg): Patch
    requires msg.Proposal?
  {
    var mode := EffectiveMode(msg.mode);
    if mode == DualMode then
      NO_PATCH.(
        mode := Some(mode),
        pendingId := Unless(|msg.pendingId| != 32, msg.pendingId),
        initKey := Some(RemoteKey(msg.pub)),
        initTransit := Some(Transit(msg.txid, msg.vout, msg.sat, msg.script, NO_KEY)))
    else
      NO_PATCH.(mode := Some(mode))
  }

  // upsertSessionFromProposal
  function UpsertFromProposal(stored: Option<Row>, sender: Bytes, msg: Msg, now: int): Result<Row, Error>
    requires msg.Proposal?
  {
    var _ :- CheckProposal(sender, msg);
    match stored
    case None =>
      Ok(Row(Accepter, sender, msg.cap, msg.fee, ProposalReceived, now, Merge(EMPTY_META, ProposalPatch(msg))))
    case Some(r) =>
      var kept := IsTerminal(r.state);
      Ok(Row(r.role, sender, msg.cap, msg.fee,
             if kept then r.state else ProposalReceived,
             if kept then r.updatedAt else now,
             Merge(r.meta, ProposalPatch(msg))))
  }
}
