// What holds of a node whatever its peer sends and however its calls interleave:
// states fit roles, terminal states absorb, and nothing is broadcast before LND
// has acknowledged the channel it funds.
module OpenSafety {
  import opened Prelude
  import opened Bitcoin
  import opened Session
  import opened FundingPlan
  import opened Lnd
  import opened OpenWorld
  import Orphan = OrphanRecovery

  // ---- Terminal states -------------------------------------------------------------

  // Where a terminal state may still go.
  predicate Absorbs(before: State, after: State) {
    IsTerminal(before) ==> after == before || (before == Canceled && after == Recovered)
  }

  // How a step may change a node's row.
  ghost predicate RowAbsorbs(before: Option<Row>, after: Option<Row>) {
    before.Some? ==> after.Some? && Absorbs(before.value.state, after.value.state)
  }

  lemma OperatorStepAbsorbs(h: Hashes, w: World, op: OperatorStep, side: Role)
    requires OperatorMay(h, w, op)
    ensures RowAbsorbs(NodeOf(w, side).row, NodeOf(Operated(h, w, op), side).row)
  {
  }

  lemma UpdateAbsorbs(h: Hashes, w: World, u: Update, side: Role)
    requires MayUpdate(h, w, u)
    ensures RowAbsorbs(NodeOf(w, side).row, NodeOf(Updated(h, w, u), side).row)
  {
    WritingAbsorbs(w, SideOf(u), NextState(u), PatchOf(h, w, u), u.now, side);
  }

  lemma WritingAbsorbs(w: World, writer: Role, next: State, p: Patch, now: int, side: Role)
    ensures RowAbsorbs(NodeOf(w, side).row, NodeOf(Written(w, writer, next, p, now), side).row)
  {
  }

  lemma StepAbsorbs(h: Hashes, w: World, step: Step, side: Role)
    requires Enabled(h, w, step)
    ensures RowAbsorbs(NodeOf(w, side).row, NodeOf(Apply(h, w, step), side).row)
  {
    match step
    case Operate(op) =>
      OperatorStepAbsorbs(h, w, op, side);
    case Write(u) =>
      UpdateAbsorbs(h, w, u, side);
    case Recover(s, id, act) =>
      RecoveryAbsorbs(h, w, s, id, act, side);
    case _ =>
  }

  lemma RecoveryAbsorbs(h: Hashes, w: World, s: Role, id: nat, op: Orphan.Op, side: Role)
    requires MayRecover(w, s, id, op)
    ensures RowAbsorbs(NodeOf(w, side).row, NodeOf(RecoveryStepped(h, w, s, id, op), side).row)
  {
    if Orphan.IsWrite(op) {
      var c := NodeOf(w, s).calls[id];
      WritingAbsorbs(w, s, Orphan.NextState(c, op), Orphan.PatchOf(h, c, op), op.now, side);
      hide Transition, Written, Orphan.NextState, Orphan.PatchOf, Orphan.Written, Absorbs;
    }
  }

  // Over every run, from any state and with any peer: an active, failed or recovered
  // session stays as it is, and a canceled one stays canceled or becomes recovered.
  lemma {:induction false} TerminalStatesAbsorb(h: Hashes, w: World, steps: seq<Step>, side: Role)
    requires CanRun(h, w, steps) && NodeOf(w, side).row.Some?
    ensures var r' := NodeOf(Run(h, w, steps), side).row;
            r'.Some? && Absorbs(NodeOf(w, side).row.value.state, r'.value.state)
    decreases |steps|
  {
    if steps != [] {
      StepAbsorbs(h, w, steps[0], side);
      TerminalStatesAbsorb(h, Apply(h, w, steps[0]), steps[1..], side);
    }
  }

  // ---- Roles and states ------------------------------------------------------------

  // The states a session can be in, by role.
  predicate StateFits(side: Role, state: State) {
    && state !in {Failed, FullySigned}
    && (side == Accepter ==> state !in {ProposalSent, ChannelProposed, FundingBroadcasted, RecoveryRequired})
    && (side == Initiator ==> state != HalfSigned)
  }

  // ---- Commit before broadcast -------------------------------------------------------

  // Among the first n calls LND acknowledged opening the channel txid:0, and did not
  // return a different point.
  ghost predicate AckedBefore(log: seq<LndEvent>, n: nat, txid: Bytes)
    requires n <= |log|
  {
    exists i :: 0 <= i < n && log[i].Opened? && log[i].expected == OutPoint(txid, 0) && !IsMismatch(log[i].expected, log[i].actual)
  }

  // A stored funding transaction that appears signed was written after such an acknowledgement.
  ghost predicate DocumentSafe(h: Hashes, log: seq<LndEvent>, m: Meta) {
    m.fundingTx.Some? && AppearsSigned(m.fundingTx.value) ==> AckedBefore(log, |log|, TxId(h, m.fundingTx.value))
  }

  ghost predicate RowSafe(h: Hashes, log: seq<LndEvent>, side: Role, r: Row) {
    r.role == side && StateFits(side, r.state) && DocumentSafe(h, log, r.meta)
  }

  ghost predicate NodeSafe(h: Hashes, log: seq<LndEvent>, side: Role, n: Node) {
    && (forall r :: r in n.hist ==> RowSafe(h, log, side, r))
    && (n.row.Some? ==> n.row.value in n.hist)
    && (n.hist != {} ==> n.row.Some?)
    && (n.frame.Some? ==> n.frame.value.row in n.hist && DocumentSafe(h, log, n.frame.value.meta))
    && (forall id :: id in n.calls ==> Orphan.RowsOf(n.calls[id]) <= n.hist)
  }

  ghost predicate LogSafe(h: Hashes, log: seq<LndEvent>) {
    forall j :: 0 <= j < |log| && log[j].PublishedFunding? ==> AckedBefore(log, j, TxId(h, log[j].tx))
  }

  ghost predicate Safe(h: Hashes, w: World) {
    && NodeSafe(h, w.log, Initiator, w.initiator)
    && NodeSafe(h, w.log, Accepter, w.accepter)
    && w.initiator.row.Some?
    && LogSafe(h, w.log)
  }

  lemma AcksSurvive(log: seq<LndEvent>, more: seq<LndEvent>, n: nat, txid: Bytes)
    requires n <= |log| && AckedBefore(log, n, txid)
    ensures AckedBefore(log + more, n, txid) && AckedBefore(log + more, |log + more|, txid)
  {
    var i :| 0 <= i < n && log[i].Opened? && log[i].expected == OutPoint(txid, 0) && !IsMismatch(log[i].expected, log[i].actual);
    assert (log + more)[i] == log[i];
  }

  lemma DocumentStaysSafe(h: Hashes, log: seq<LndEvent>, more: seq<LndEvent>, m: Meta)
    requires DocumentSafe(h, log, m)
    ensures DocumentSafe(h, log + more, m)
  {
    if m.fundingTx.Some? && AppearsSigned(m.fundingTx.value) {
      AcksSurvive(log, more, |log|, TxId(h, m.fundingTx.value));
    }
  }

  lemma NodeStaysSafe(h: Hashes, log: seq<LndEvent>, more: seq<LndEvent>, side: Role, n: Node)
    requires NodeSafe(h, log, side, n)
    ensures NodeSafe(h, log + more, side, n)
  {
    forall r | r in n.hist
      ensures RowSafe(h, log + more, side, r)
    {
      DocumentStaysSafe(h, log, more, r.meta);
    }
    if n.frame.Some? {
      DocumentStaysSafe(h, log, more, n.frame.value.meta);
    }
  }

  // Events that publish only what has been acknowledged keep the whole world safe.
  lemma LoggingKeepsSafe(h: Hashes, w: World, events: seq<LndEvent>)
    requires Safe(h, w)
    requires forall e :: e in events && e.PublishedFunding? ==> AckedBefore(w.log, |w.log|, TxId(h, e.tx))
    ensures Safe(h, Log(w, events))
  {
    NodeStaysSafe(h, w.log, events, Initiator, w.initiator);
    NodeStaysSafe(h, w.log, events, Accepter, w.accepter);
    var log := w.log + events;
    forall j | 0 <= j < |log| && log[j].PublishedFunding?
      ensures AckedBefore(log, j, TxId(h, log[j].tx))
    {
      var txid := TxId(h, log[j].tx);
      if j < |w.log| {
        assert AckedBefore(w.log, j, txid);
        AcksSurvive(w.log, events, j, txid);
      } else {
        assert log[j] == events[j - |w.log|];
        var i :| 0 <= i < |w.log| && w.log[i].Opened? && w.log[i].expected == OutPoint(txid, 0) && !IsMismatch(w.log[i].expected, w.log[i].actual);
        assert log[i] == w.log[i];
      }
    }
  }

  lemma StoringKeepsSafe(h: Hashes, w: World, side: Role, r: Row)
    requires Safe(h, w) && RowSafe(h, w.log, side, r)
    ensures Safe(h, StoredRow(w, side, r))
  {
    var n := NodeOf(w, side);
    assert NodeSafe(h, w.log, side, Stored(n, r));
  }

  // A write keeps the world safe if its state fits the role and the transaction in
  // its patch, if any, is safe to store.
  lemma WritingKeepsSafe(h: Hashes, w: World, side: Role, next: State, p: Patch, now: int)
    requires Safe(h, w) && StateFits(side, next)
    requires DocumentSafe(h, w.log, EMPTY_META.(fundingTx := p.fundingTx))
    ensures Safe(h, Written(w, side, next, p, now))
  {
    var n := NodeOf(w, side);
    if n.row.Some? && Transition(n.row.value, next, p, now).Ok? {
      assert RowSafe(h, w.log, side, n.row.value);
      StoringKeepsSafe(h, w, side, Transition(n.row.value, next, p, now).value);
    }
  }

  lemma FramingKeepsSafe(h: Hashes, w: World, side: Role, f: Option<Frame>, own: Option<Artifacts>)
    requires Safe(h, w)
    requires f.Some? ==> f.value.row in NodeOf(w, side).hist && DocumentSafe(h, w.log, f.value.meta)
    ensures Safe(h, WithNode(w, side, NodeOf(w, side).(frame := f, own := own)))
  {
  }

  // The assembled transaction has the id the plan asked LND to open.
  lemma AssembledTxIsAcked(h: Hashes, w: World, r: Row, stack: seq<Bytes>, actual: PointText)
    requires HasPlan(h, r) && OpenAcknowledged(h, w, r, actual)
    ensures TxId(h, AssembledTx(h, r, stack)) == PlanOf(h, r).txid
    ensures AckedBefore(w.log, |w.log|, TxId(h, AssembledTx(h, r, stack)))
  {
    WitnessesKeepTheTxid(h, r.cap, ExecuteMeta(h, r.meta), InputScript([], stack), r.meta.accStack);
    var i :| 0 <= i < |w.log| && w.log[i] == OpenEvent(h, r, actual);
  }

  lemma PlanIsUnsigned(h: Hashes, cap: int, m: Meta)
    requires BuildDualFundingPlan(h, cap, m).Ok?
    ensures !AppearsSigned(BuildDualFundingPlan(h, cap, m).value.tx)
  {
    DualPlanSpendsBothTransits(h, cap, m);
  }

  lemma OperatorStepKeepsSafe(h: Hashes, w: World, op: OperatorStep)
    requires Safe(h, w) && OperatorMay(h, w, op)
    ensures Safe(h, Operated(h, w, op))
  {
    match op
    case Begin(side) =>
      assert RowSafe(h, w.log, side, NodeOf(w, side).row.value);
    case Fund(side, multisig, transitKey, at) =>
      LockingKeepsSafe(h, w, side, FundedArtifacts(h, NodeOf(w, side).frame.value.row, multisig, transitKey, at));
    case Countersign(answer) =>
      var f := w.accepter.frame.value;
      var m := CountersignedMeta(h, f, answer);
      PlanIsUnsigned(h, f.row.cap, f.meta.(mode := DualMode, pendingId := m.pendingId));
      LoggingKeepsSafe(h, w, CountersignEvents(h, f, answer));
      FramingKeepsSafe(h, Log(w, CountersignEvents(h, f, answer)), Accepter, Some(f.(meta := m)), w.accepter.own);
    case Save(side, next, now) =>
      var n := NodeOf(w, side);
      assert RowSafe(h, w.log, side, n.frame.value.row);
      SavingKeepsSafe(h, w, side, next, now);
    case Send(side) =>
    case End(side) =>
      FramingKeepsSafe(h, w, side, None, NodeOf(w, side).own);
  }

  lemma LockingKeepsSafe(h: Hashes, w: World, side: Role, own: Artifacts)
    requires Safe(h, w) && NodeOf(w, side).frame.Some?
    ensures Safe(h, Locked(w, side, own))
  {
    var f := NodeOf(w, side).frame.value;
    var f' := Some(Frame(f.row, WithArtifacts(side, f.meta, own), true));
    FramingKeepsSafe(h, w, side, f', Some(own));
    LoggingKeepsSafe(h, WithNode(w, side, NodeOf(w, side).(frame := f', own := Some(own))),
                     [SentOutput(side, own.transit.sat, own.transit.script, TransitPoint(own.transit))]);
  }

  lemma SavedCases(w: World, side: Role, next: State, now: int)
    requires NodeOf(w, side).frame.Some? && NodeOf(w, side).row.Some?
    ensures var n := NodeOf(w, side);
            var t := Transition(n.row.value, next, Encode(n.frame.value.meta), now);
            if t.Ok? then Saved(w, side, next, now) == Framed(StoredRow(w, side, t.value), side, Some(Frame(t.value, n.frame.value.meta, false)))
            else IsTerminal(n.row.value.state) && Saved(w, side, next, now) == Framed(w, side, Some(n.frame.value.(unsaved := false)))
  {
    hide Encode, Merge;
  }

  lemma SavingLeavesOther(w: World, side: Role, next: State, now: int)
    ensures NodeOf(Saved(w, side, next, now), Other(side)) == NodeOf(w, Other(side))
  {
    hide Transition, Encode;
  }

  lemma MovedRow(stored: Row, next: State, p: Patch, now: int)
    ensures var t := Transition(stored, next, p, now);
            t.Ok? ==> t.value.meta == Merge(stored.meta, p) && t.value.cap == stored.cap && Absorbs(stored.state, t.value.state)
  {
  }

  lemma SavingKeepsSafe(h: Hashes, w: World, side: Role, next: State, now: int)
    requires Safe(h, w) && NodeOf(w, side).frame.Some? && StateFits(side, next)
    ensures Safe(h, Saved(w, side, next, now))
  {
    var n := NodeOf(w, side);
    var m := n.frame.value.meta;
    assert n.row.Some? && n.frame.value.row in n.hist && DocumentSafe(h, w.log, m);
    hide Safe, Saved, Transition, DocumentSafe, StateFits, Encode;
    EncodingKeepsSafe(h, w.log, m);
    WritingKeepsSafe(h, w, side, next, Encode(m), now);
    SavedCases(w, side, next, now);
    var t := Transition(n.row.value, next, Encode(m), now);
    if t.Ok? {
      FramingKeepsSafe(h, StoredRow(w, side, t.value), side, Some(Frame(t.value, m, false)), n.own);
    } else {
      FramingKeepsSafe(h, w, side, Some(n.frame.value.(unsaved := false)), n.own);
    }
  }

  lemma EncodingKeepsSafe(h: Hashes, log: seq<LndEvent>, m: Meta)
    requires DocumentSafe(h, log, m)
    ensures DocumentSafe(h, log, EMPTY_META.(fundingTx := Encode(m).fundingTx))
  {
  }

  // Every write takes the row to a state its role allows.
  lemma UpdatesFitTheRole(h: Hashes, w: World, u: Update)
    requires Safe(h, w) && MayUpdate(h, w, u)
    ensures StateFits(SideOf(u), NextState(u))
  {
    assert RowSafe(h, w.log, SideOf(u), u.from);
  }

  // Every write stores a transaction that is either unsigned, stored before, or acknowledged.
  lemma UpdatesStoreSafely(h: Hashes, w: World, u: Update)
    requires Safe(h, w) && MayUpdate(h, w, u)
    ensures DocumentSafe(h, w.log, EMPTY_META.(fundingTx := PatchOf(h, w, u).fundingTx))
  {
    assert RowSafe(h, w.log, SideOf(u), u.from);
    match u
    case Submit(from, now) =>
      PlanIsUnsigned(h, from.cap, ExecuteMeta(h, from.meta));
    case SaveSigned(from, submitted, stack, actual, after, now) =>
      AssembledTxIsAcked(h, w, from, stack, actual);
    case _ =>
  }

  lemma CallsPublishSafely(h: Hashes, w: World, c: LndCall)
    requires Safe(h, w) && MayCall(h, w, c)
    ensures EventOf(h, w, c).PublishedFunding? ==> AckedBefore(w.log, |w.log|, TxId(h, EventOf(h, w, c).tx))
  {
    match c
    case PublishOwn(from, stack, actual, saved) =>
      AssembledTxIsAcked(h, w, from, stack, actual);
    case PublishStored(from) =>
      assert RowSafe(h, w.log, Initiator, from);
    case _ =>
  }

  // ---- Recovery calls ----------------------------------------------------------------

  lemma CallingKeepsSafe(h: Hashes, w: World, side: Role, id: nat, c: Option<Orphan.Call>)
    requires Safe(h, w) && (c.Some? ==> Orphan.RowsOf(c.value) <= NodeOf(w, side).hist)
    ensures Safe(h, WithCall(w, side, id, c))
  {
    assert NodeSafe(h, w.log, side, NodeOf(WithCall(w, side, id, c), side));
    hide NodeSafe, LogSafe;
  }

  lemma HeldRowsAreStored(h: Hashes, w: World, side: Role)
    requires Safe(h, w)
    ensures var n := NodeOf(w, side);
            && (n.row.Some? ==> n.row.value in n.hist)
            && forall id :: id in n.calls ==> Orphan.RowsOf(n.calls[id]) <= n.hist
  {
  }

  // What a recovery call writes: a state it has seen in the row, or one that ends the
  // recovery, and a funding transaction the node has stored before.
  lemma RecoveryWritesSafely(h: Hashes, w: World, side: Role, id: nat, op: Orphan.Op)
    requires Safe(h, w) && MayRecover(w, side, id, op) && Orphan.IsWrite(op)
    ensures var c := NodeOf(w, side).calls[id];
            var next, p := Orphan.NextState(c, op), Orphan.PatchOf(h, c, op);
            && StateFits(side, next) && (next in {Active, Recovered} || exists r :: r in NodeOf(w, side).hist && r.state == next)
            && (p.fundingTx.Some? ==> exists r :: r in NodeOf(w, side).hist && r.meta.fundingTx == p.fundingTx)
            && DocumentSafe(h, w.log, EMPTY_META.(fundingTx := p.fundingTx))
  {
    hide AckedBefore, AppearsSigned, Orphan.RecoveryTx, EncodeKey, EncodeTransit, LogSafe;
    var c := NodeOf(w, side).calls[id];
    HeldRowsAreStored(h, w, side);
    var from := if op.SaveDone? then c.stage.half else if op.SaveSwept? then c.stage.row else c.row;
    assert from in Orphan.RowsOf(c) && RowSafe(h, w.log, side, from);
  }

  lemma RecoveryRowsAreStored(h: Hashes, w: World, side: Role, id: nat, op: Orphan.Op)
    requires Safe(h, w) && MayRecover(w, side, id, op) && !Orphan.IsWrite(op)
    ensures var n := NodeOf(w, side);
            if op.Ask? then Orphan.RowsOf(Orphan.Asked(n.row.value, op.asked)) <= n.hist
            else if op.Hear? then Orphan.RowsOf(Orphan.Listening(n.row.value, op.msg)) <= n.hist
            else Orphan.Continued(n.calls[id], op).Some? ==> Orphan.RowsOf(Orphan.Continued(n.calls[id], op).value) <= n.hist
  {
    hide RowSafe, LogSafe, DocumentSafe;
  }

  // A recovery call logs only signatures for recoveries and recoveries.
  lemma RecoveryEventsAreSafe(c: Orphan.Call, op: Orphan.Op)
    requires Orphan.May(c, op) && !Orphan.IsWrite(op)
    ensures forall e :: e in Orphan.EventsOf(c, op) ==> e.SignedRaw? || e.PublishedRecovery?
  {
  }

  lemma RecoveryWrittenCases(h: Hashes, w: World, side: Role, id: nat, op: Orphan.Op)
    requires MayRecover(w, side, id, op) && Orphan.IsWrite(op)
    ensures var c := NodeOf(w, side).calls[id];
            var t := Transition(NodeOf(w, side).row.value, Orphan.NextState(c, op), Orphan.PatchOf(h, c, op), op.now);
            RecoveryStepped(h, w, side, id, op) ==
            if t.Ok? then WithCall(StoredRow(w, side, t.value), side, id, Orphan.Written(c, op, t.value))
            else WithCall(w, side, id, Orphan.Refused(c, op))
  {
    hide Transition, Orphan.NextState, Orphan.PatchOf, Orphan.Written;
  }

  lemma ContinuedRows(c: Orphan.Call, op: Orphan.Op, r: Row)
    requires Orphan.May(c, op) && Orphan.IsWrite(op)
    ensures Orphan.Written(c, op, r).Some? ==> Orphan.RowsOf(Orphan.Written(c, op, r).value) <= Orphan.RowsOf(c) + {r}
    ensures Orphan.Refused(c, op).Some? ==> Orphan.RowsOf(Orphan.Refused(c, op).value) <= Orphan.RowsOf(c)
  {
    hide Orphan.PlanRecovery;
  }

  lemma RecoveryWriteKeepsSafe(h: Hashes, w: World, side: Role, id: nat, op: Orphan.Op)
    requires Safe(h, w) && MayRecover(w, side, id, op) && Orphan.IsWrite(op)
    ensures Safe(h, RecoveryStepped(h, w, side, id, op))
  {
    hide Safe, Transition, Orphan.NextState, Orphan.PatchOf, Orphan.Written, Orphan.Refused, StateFits, DocumentSafe, RecoveryStepped, Orphan.RowsOf;
    var c := NodeOf(w, side).calls[id];
    var next, p := Orphan.NextState(c, op), Orphan.PatchOf(h, c, op);
    var t := Transition(NodeOf(w, side).row.value, next, p, op.now);
    HeldRowsAreStored(h, w, side);
    RecoveryWritesSafely(h, w, side, id, op);
    RecoveryWrittenCases(h, w, side, id, op);
    WritingKeepsSafe(h, w, side, next, p, op.now);
    if t.Ok? {
      ContinuedRows(c, op, t.value);
      CallingKeepsSafe(h, StoredRow(w, side, t.value), side, id, Orphan.Written(c, op, t.value));
    } else {
      ContinuedRows(c, op, NodeOf(w, side).row.value);
      CallingKeepsSafe(h, w, side, id, Orphan.Refused(c, op));
    }
  }

  lemma RecoveryKeepsSafe(h: Hashes, w: World, side: Role, id: nat, op: Orphan.Op)
    requires Safe(h, w) && MayRecover(w, side, id, op)
    ensures Safe(h, RecoveryStepped(h, w, side, id, op))
  {
    if Orphan.IsWrite(op) {
      RecoveryWriteKeepsSafe(h, w, side, id, op);
    } else {
      RecoveryRowsAreStored(h, w, side, id, op);
      hide Safe, Orphan.RowsOf, Orphan.Asked, Orphan.Listening, Orphan.Continued, Orphan.EventsOf, Orphan.SentBy, Orphan.May;
      if op.Ask? {
        CallingKeepsSafe(h, w, side, id, Some(Orphan.Asked(NodeOf(w, side).row.value, op.asked)));
      } else if op.Hear? {
        CallingKeepsSafe(h, w, side, id, Some(Orphan.Listening(NodeOf(w, side).row.value, op.msg)));
      } else {
        var c := NodeOf(w, side).calls[id];
        RecoveryEventsAreSafe(c, op);
        LoggingKeepsSafe(h, w, Orphan.EventsOf(c, op));
        SendingKeepsSafe(h, Log(w, Orphan.EventsOf(c, op)), side, Orphan.SentBy(c, op));
        CallingKeepsSafe(h, Sent(Log(w, Orphan.EventsOf(c, op)), side, Orphan.SentBy(c, op)), side, id, Orphan.Continued(c, op));
      }
    }
  }

  lemma SendingKeepsSafe(h: Hashes, w: World, side: Role, msgs: set<Msg>)
    requires Safe(h, w)
    ensures Safe(h, Sent(w, side, msgs))
  {
  }

  // What a step may do to a node: keep the identity of the session and what its operator's
  // calls hold; move the session only to a state it has been in, to active or to
  // recovered; store no funding transaction but one stored before.
  ghost predicate OnlyRecovers(n: Node, k: Node) {
    && k.own == n.own && k.frame == n.frame && n.row.Some? && k.row.Some?
    && k.row.value.(state := n.row.value.state, updatedAt := n.row.value.updatedAt, meta := n.row.value.meta) == n.row.value
    && (k.row.value.state in {Active, Recovered} || exists r :: r in n.hist && r.state == k.row.value.state)
    && exists r :: r in n.hist && r.meta.fundingTx == k.row.value.meta.fundingTx
  }

  // Events that neither fund, open nor publish a channel.
  ghost predicate LogsOnlyRecoveries(log: seq<LndEvent>, longer: seq<LndEvent>) {
    log <= longer && forall e :: e in longer[|log|..] ==> e.SignedRaw? || e.PublishedRecovery?
  }

  // Each step of a recovery call, whatever happened since the one before, only recovers;
  // it touches no other node, and neither funds, opens nor publishes a channel.
  lemma RecoveryOnlyRecovers(h: Hashes, w: World, side: Role, id: nat, op: Orphan.Op)
    requires Safe(h, w) && MayRecover(w, side, id, op)
    ensures var x := RecoveryStepped(h, w, side, id, op);
            && OnlyRecovers(NodeOf(w, side), NodeOf(x, side)) && NodeOf(x, Other(side)) == NodeOf(w, Other(side))
            && LogsOnlyRecoveries(w.log, x.log)
  {
    var n := NodeOf(w, side);
    HeldRowsAreStored(h, w, side);
    hide Safe, OnlyRecovers, LogsOnlyRecoveries, Orphan.EventsOf, Orphan.SentBy, Orphan.Continued, Orphan.Asked, Orphan.Listening, RecoveryWritten;
    WritingOnlyRecovers(n, n.row.value.state, NO_PATCH, 0);
    CallsDoNotMatter(n);
    if Orphan.IsWrite(op) {
      RecoveryWriteOnlyRecovers(h, w, side, id, op);
    } else if op.Ask? || op.Hear? {
      hide Orphan.May;
      LoggingOnlyRecovers(w.log, []);
      assert w.log + [] == w.log;
    } else {
      RecoveryEventsAreSafe(n.calls[id], op);
      hide Orphan.May;
      LoggingOnlyRecovers(w.log, Orphan.EventsOf(n.calls[id], op));
    }
  }

  lemma LoggingOnlyRecovers(log: seq<LndEvent>, more: seq<LndEvent>)
    requires forall e :: e in more ==> e.SignedRaw? || e.PublishedRecovery?
    ensures LogsOnlyRecoveries(log, log + more)
  {
    assert (log + more)[|log|..] == more;
  }

  lemma RecoveryWriteOnlyRecovers(h: Hashes, w: World, side: Role, id: nat, op: Orphan.Op)
    requires Safe(h, w) && MayRecover(w, side, id, op) && Orphan.IsWrite(op) && NodeOf(w, side).row.value in NodeOf(w, side).hist
    ensures var x := RecoveryStepped(h, w, side, id, op);
            && OnlyRecovers(NodeOf(w, side), NodeOf(x, side)) && NodeOf(x, Other(side)) == NodeOf(w, Other(side))
            && LogsOnlyRecoveries(w.log, x.log)
  {
    hide Safe, StateFits, DocumentSafe, OnlyRecovers, LogsOnlyRecoveries, Orphan.NextState, Orphan.PatchOf, Orphan.Written, Orphan.Refused,
         Transition, RecoveryStepped;
    var n := NodeOf(w, side);
    var c := n.calls[id];
    RecoveryWritesSafely(h, w, side, id, op);
    RecoveryWrittenCases(h, w, side, id, op);
    LoggingOnlyRecovers(w.log, []);
    assert w.log + [] == w.log;
    WritingOnlyRecovers(n, Orphan.NextState(c, op), Orphan.PatchOf(h, c, op), op.now);
    CallsDoNotMatter(n);
  }

  lemma CallsDoNotMatter(n: Node)
    ensures forall k: Node, calls :: OnlyRecovers(n, k) ==> OnlyRecovers(n, k.(calls := calls))
  {
  }

  lemma WritingOnlyRecovers(n: Node, next: State, p: Patch, now: int)
    requires n.row.Some? && n.row.value in n.hist
    requires next in {Active, Recovered} || exists r :: r in n.hist && r.state == next
    requires p.fundingTx.Some? ==> exists r :: r in n.hist && r.meta.fundingTx == p.fundingTx
    ensures OnlyRecovers(n, n)
    ensures Transition(n.row.value, next, p, now).Ok? ==> OnlyRecovers(n, Stored(n, Transition(n.row.value, next, p, now).value))
  {
  }

  lemma StepKeepsSafe(h: Hashes, w: World, step: Step)
    requires Safe(h, w) && Enabled(h, w, step)
    ensures Safe(h, Apply(h, w, step))
  {
    match step
    case Operate(op) =>
      OperatorStepKeepsSafe(h, w, op);
    case Write(u) =>
      UpdatesFitTheRole(h, w, u);
      UpdatesStoreSafely(h, w, u);
      WritingKeepsSafe(h, w, SideOf(u), NextState(u), PatchOf(h, w, u), u.now);
    case Call(c) =>
      CallsPublishSafely(h, w, c);
      LoggingKeepsSafe(h, w, [EventOf(h, w, c)]);
    case CancelSession(side, now) =>
      CancelKeepsSafe(h, w, side, now);
    case HearProposal(side, sender, msg, now) =>
      ProposalKeepsSafe(h, w, side, sender, msg, now);
    case Recover(side, id, act) =>
      RecoveryKeepsSafe(h, w, side, id, act);
  }

  lemma CancelKeepsSafe(h: Hashes, w: World, side: Role, now: int)
    requires Safe(h, w) && NodeOf(w, side).row.Some?
    ensures Safe(h, StoredIfOk(w, side, CancelRow(NodeOf(w, side).row.value, now)))
  {
    var r := NodeOf(w, side).row.value;
    assert RowSafe(h, w.log, side, r);
    if CancelRow(r, now).Ok? {
      StoringKeepsSafe(h, w, side, CancelRow(r, now).value);
    }
  }

  lemma ProposalKeepsSafe(h: Hashes, w: World, side: Role, sender: Bytes, msg: Msg, now: int)
    requires Safe(h, w) && msg.Proposal?
    ensures Safe(h, StoredIfOk(w, side, UpsertFromProposal(NodeOf(w, side).row, sender, msg, now)))
  {
    var row := NodeOf(w, side).row;
    var r := UpsertFromProposal(row, sender, msg, now);
    if row.Some? {
      assert RowSafe(h, w.log, side, row.value);
    }
    if r.Ok? {
      StoringKeepsSafe(h, w, side, r.value);
    }
  }

  lemma StartIsSafe(h: Hashes, w: World)
    requires Starts(w)
    ensures Safe(h, w)
  {
  }

  lemma {:induction false} RunKeepsSafe(h: Hashes, w: World, steps: seq<Step>)
    requires Safe(h, w) && CanRun(h, w, steps)
    ensures Safe(h, Run(h, w, steps))
    decreases |steps|
  {
    if steps != [] {
      StepKeepsSafe(h, w, steps[0]);
      RunKeepsSafe(h, Apply(h, w, steps[0]), steps[1..]);
    }
  }

  // In every run, with any peer: a session keeps its role, and its state is always
  // one its role allows.
  lemma RolesFitStates(h: Hashes, w: World, steps: seq<Step>, side: Role)
    requires Starts(w) && CanRun(h, w, steps)
    ensures var row := NodeOf(Run(h, w, steps), side).row;
            row.Some? ==> row.value.role == side && StateFits(side, row.value.state)
  {
    StartIsSafe(h, w);
    RunKeepsSafe(h, w, steps);
    var n := NodeOf(Run(h, w, steps), side);
    if n.row.Some? {
      assert RowSafe(h, Run(h, w, steps).log, side, n.row.value);
    }
  }

  // In every run, with any peer: before a funding transaction with id T is published,
  // LND has acknowledged an open of T:0. If LND returned a readable point it was T:0.
  lemma CommitBeforeBroadcast(h: Hashes, w: World, steps: seq<Step>, j: nat)
    requires Starts(w) && CanRun(h, w, steps)
    requires j < |Run(h, w, steps).log| && Run(h, w, steps).log[j].PublishedFunding?
    ensures var log := Run(h, w, steps).log;
            var point := OutPoint(TxId(h, log[j].tx), 0);
            exists i :: 0 <= i < j && log[i].Opened? && log[i].expected == point &&
                        (log[i].actual.Point? && |log[i].actual.at.txid| == 32 ==> log[i].actual.at == point)
  {
    StartIsSafe(h, w);
    RunKeepsSafe(h, w, steps);
    var log := Run(h, w, steps).log;
    var txid := TxId(h, log[j].tx);
    assert AckedBefore(log, j, txid);
    var i :| 0 <= i < j && log[i].Opened? && log[i].expected == OutPoint(txid, 0) && !IsMismatch(log[i].expected, log[i].actual);
  }
}
