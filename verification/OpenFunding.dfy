// How often a node locks coins, whatever its peer sends: at most once, as long as no
// message speaks for the node's own side in a dual-funded open. A message that does makes
// the node forget the key of what it locked, and its next operator call locks again.
module OpenFunding {
  import opened Prelude
  import opened Bitcoin
  import opened Session
  import opened FundingPlan
  import opened Lnd
  import opened OpenWorld
  import opened OpenSafety
  import opened OpenAgreement
  import Orphan = OrphanRecovery
  import OpenRuns

  // The mode an accept is taken for, given what the node has on record.
  function AcceptMode(m: Meta, msg: Msg): Mode
    requires msg.Accept?
  {
    if msg.mode != NoMode then msg.mode else EffectiveMode(m.mode)
  }

  // A proposal heard by the initiator of the session, or an accept heard by its accepter,
  // for a dual-funded channel. Any other message is about the peer's side, or of a mode only.
  predicate SpeaksFor(side: Role, step: Step) {
    if side == Initiator then step.HearProposal? && step.side == Initiator && step.msg.Proposal? && step.msg.mode == DualMode && CheckProposal(step.sender, step.msg).Ok?
    else step.Write? && step.update.HeardAccept? && step.update.side == Accepter &&
         step.update.msg.Accept? && AcceptMode(step.update.from.meta, step.update.msg) == DualMode
  }

  // A document has the node's own transit output with the key that spends it.
  predicate HasOwn(side: Role, m: Meta) {
    IsPubkey(LocalKey(side, m).pub) && HasTransit(LocalTransit(side, m), true)
  }

  // What a document says of its own node's artifacts: nothing, or exactly them.
  predicate OwnKnown(side: Role, m: Meta, own: Option<Artifacts>) {
    PartyKnown(LocalKey(side, m), LocalTransit(side, m), own, true) && (side == Initiator ==> m.mode != NoMode)
  }

  // What a node locked is in its row, or in an operator call that has yet to write it,
  // or the row is closed.
  predicate OnRecord(side: Role, row: Option<Row>, frame: Option<Frame>) {
    && row.Some?
    && (HasOwn(side, row.value.meta) || IsTerminal(row.value.state) || (frame.Some? && frame.value.unsaved && HasOwn(side, frame.value.meta)))
    && (frame.Some? ==> HasOwn(side, frame.value.meta) || IsTerminal(frame.value.row.state))
  }

  ghost predicate FundsOnce(side: Role, n: Node, log: seq<LndEvent>) {
    && (forall r :: r in n.hist ==> OwnKnown(side, r.meta, n.own))
    && (n.row.Some? ==> n.row.value in n.hist)
    && (n.frame.Some? ==> n.row.Some? && OwnKnown(side, n.frame.value.meta, n.own))
    && LockedOnce(log, side, n.own)
    && (n.own.Some? ==> ValidArtifacts(n.own.value) && OnRecord(side, n.row, n.frame))
  }

  // ---- Documents --------------------------------------------------------------------------

  // What a later document may do to an earlier one.
  predicate KeepsOwn(side: Role, m: Meta, r: Meta, own: Option<Artifacts>) {
    OwnKnown(side, r, own) && (HasOwn(side, m) ==> HasOwn(side, r))
  }

  lemma MergingKeepsOwn(side: Role, m: Meta, writer: Meta, own: Option<Artifacts>)
    requires OwnKnown(side, m, own) && OwnKnown(side, writer, own)
    ensures KeepsOwn(side, m, Merge(m, Encode(writer)), own)
    ensures HasOwn(side, writer) ==> HasOwn(side, Merge(m, Encode(writer)))
  {
  }

  predicate LeavesOwnAlone(side: Role, p: Patch) {
    if side == Initiator then p.initKey.None? && p.initTransit.None? && p.mode != Some(NoMode)
    else p.accKey.None? && p.accTransit.None?
  }

  lemma PatchingKeepsOwn(side: Role, m: Meta, p: Patch, own: Option<Artifacts>)
    requires OwnKnown(side, m, own) && LeavesOwnAlone(side, p)
    ensures KeepsOwn(side, m, Merge(m, p), own)
  {
  }

  // ---- Nodes --------------------------------------------------------------------------------

  lemma StoringFundsOnce(side: Role, n: Node, log: seq<LndEvent>, r: Row)
    requires FundsOnce(side, n, log) && OwnKnown(side, r.meta, n.own)
    requires n.row.Some? ==> KeepsOwn(side, n.row.value.meta, r.meta, n.own) && Absorbs(n.row.value.state, r.state)
    ensures FundsOnce(side, Stored(n, r), log)
  {
    hide OwnKnown, HasOwn, LockedOnce;
  }

  lemma LoggingFundsOnce(side: Role, n: Node, log: seq<LndEvent>, events: seq<LndEvent>)
    requires FundsOnce(side, n, log) && forall e :: e in events ==> !FundedBy(e, side)
    ensures FundsOnce(side, n, log + events)
  {
    OpenRuns.LoggingKeepsLocks(log, events, side, n.own);
    hide OwnKnown, LockedOnce;
  }

  lemma WritingFundsOnce(w: World, writer: Role, next: State, p: Patch, now: int, side: Role)
    requires FundsOnce(side, NodeOf(w, side), w.log)
    requires writer == side && NodeOf(w, side).row.Some? ==>
               KeepsOwn(side, NodeOf(w, side).row.value.meta, Merge(NodeOf(w, side).row.value.meta, p), NodeOf(w, side).own)
    ensures var x := Written(w, writer, next, p, now); FundsOnce(side, NodeOf(x, side), x.log)
  {
    hide FundsOnce, KeepsOwn, Merge;
    var row := NodeOf(w, side).row;
    if writer == side && row.Some? && Transition(row.value, next, p, now).Ok? {
      KeptIsKnown(side, row.value.meta, Merge(row.value.meta, p), NodeOf(w, side).own);
      StoringFundsOnce(side, NodeOf(w, side), w.log, Transition(row.value, next, p, now).value);
    }
  }

  lemma KeptIsKnown(side: Role, m: Meta, r: Meta, own: Option<Artifacts>)
    requires KeepsOwn(side, m, r, own)
    ensures OwnKnown(side, r, own)
  {
  }

  // ---- Steps ----------------------------------------------------------------------------------

  lemma UpdateFundsOnce(h: Hashes, w: World, u: Update, side: Role)
    requires FundsOnce(side, NodeOf(w, side), w.log) && MayUpdate(h, w, u) && !SpeaksFor(side, Write(u))
    ensures var x := Updated(h, w, u); FundsOnce(side, NodeOf(x, side), x.log)
  {
    var n := NodeOf(w, side);
    if SideOf(u) == side && n.row.Some? {
      assert OwnKnown(side, n.row.value.meta, n.own) && OwnKnown(side, u.from.meta, n.own);
      hide FundsOnce;
      if u.HeardAccept? {
        HeardDocIsOwn(h, side, u.from, u.sender, u.msg, n.own);
        MergingKeepsOwn(side, n.row.value.meta, HearAccept(h, u.from, u.sender, u.msg).value, n.own);
      } else {
        hide HasPlan, BuildDualFundingPlan, AssembledTx, OpenAcknowledged, SignEvent;
        assert LeavesOwnAlone(side, PatchOf(h, w, u));
        PatchingKeepsOwn(side, n.row.value.meta, PatchOf(h, w, u), n.own);
      }
    }
    hide FundsOnce, PatchOf, NextState, MayUpdate, KeepsOwn;
    WritingFundsOnce(w, SideOf(u), NextState(u), PatchOf(h, w, u), u.now, side);
  }

  lemma HeardDocIsOwn(h: Hashes, side: Role, from: Row, sender: Bytes, msg: Msg, own: Option<Artifacts>)
    requires OwnKnown(side, from.meta, own) && msg.Accept? && HearAccept(h, from, sender, msg).Ok?
    requires side == Accepter ==> AcceptMode(from.meta, msg) != DualMode
    ensures OwnKnown(side, HearAccept(h, from, sender, msg).value, own)
  {
  }

  lemma OperatorFundsOnce(h: Hashes, w: World, op: OperatorStep, side: Role)
    requires FundsOnce(side, NodeOf(w, side), w.log) && OperatorMay(h, w, op)
    ensures var x := Operated(h, w, op); FundsOnce(side, NodeOf(x, side), x.log)
  {
    match op
    case Begin(s) =>
    case Fund(s, multisig, transitKey, at) =>
      LockingFundsOnce(h, w, s, FundedArtifacts(h, NodeOf(w, s).frame.value.row, multisig, transitKey, at), side);
    case Countersign(answer) =>
      CountersigningFundsOnce(h, w, answer, side);
    case Save(s, next, now) =>
      if s == side {
        SavingFundsOnce(w, side, next, now);
      }
    case Send(s) =>
    case End(s) =>
  }

  lemma LockingFundsOnce(h: Hashes, w: World, s: Role, own: Artifacts, side: Role)
    requires FundsOnce(side, NodeOf(w, side), w.log) && NodeOf(w, s).frame.Some? && ValidArtifacts(own)
    requires CanFund(s, NodeOf(w, s).frame.value)
    ensures var x := Locked(w, s, own); FundsOnce(side, NodeOf(x, side), x.log)
  {
    var n, e := NodeOf(w, side), SentOutput(s, own.transit.sat, own.transit.script, TransitPoint(own.transit));
    if s == side {
      assert n.own.None?;
      assert forall v :: v in w.log ==> !FundedBy(v, side);
      OpenRuns.FirstLock(w.log, side, e, own);
      assert HasOwn(side, WithArtifacts(side, n.frame.value.meta, own));
      hide LockedOnce;
    } else {
      hide FundsOnce;
      LoggingFundsOnce(side, n, w.log, [e]);
    }
  }

  lemma CountersigningFundsOnce(h: Hashes, w: World, answer: Option<seq<Bytes>>, side: Role)
    requires FundsOnce(side, NodeOf(w, side), w.log) && OperatorMay(h, w, Countersign(answer))
    ensures var x := Operated(h, w, Countersign(answer)); FundsOnce(side, NodeOf(x, side), x.log)
  {
    var f := w.accepter.frame.value;
    assert forall e :: e in CountersignEvents(h, f, answer) ==> !FundedBy(e, side);
    LoggingFundsOnce(side, NodeOf(w, side), w.log, CountersignEvents(h, f, answer));
    var m := CountersignedMeta(h, f, answer);
    assert m.accKey == f.meta.accKey && m.accTransit == f.meta.accTransit;
    hide CountersignEvents, CountersignedMeta, LockedOnce, BuildDualFundingPlan;
  }

  lemma SavingFundsOnce(w: World, side: Role, next: State, now: int)
    requires FundsOnce(side, NodeOf(w, side), w.log) && NodeOf(w, side).frame.Some?
    requires !IsTerminal(NodeOf(w, side).frame.value.row.state)
    ensures var x := Saved(w, side, next, now); FundsOnce(side, NodeOf(x, side), x.log)
  {
    var n := NodeOf(w, side);
    var m := n.frame.value.meta;
    assert OwnKnown(side, n.row.value.meta, n.own) && OwnKnown(side, m, n.own);
    MergingKeepsOwn(side, n.row.value.meta, m, n.own);
    assert n.own.Some? ==> HasOwn(side, m);
    SavedCases(w, side, next, now);
    MovedRow(n.row.value, next, Encode(m), now);
    hide OwnKnown, Encode, Merge, HasOwn, FundsOnce, KeepsOwn, Saved, Transition, Absorbs;
    var t := Transition(n.row.value, next, Encode(m), now);
    if t.Ok? {
      KeptIsKnown(side, n.row.value.meta, t.value.meta, n.own);
      StoringFundsOnce(side, n, w.log, t.value);
      ReframingFundsOnce(side, Stored(n, t.value), w.log, Frame(t.value, m, false));
    } else {
      ReframingFundsOnce(side, n, w.log, n.frame.value.(unsaved := false));
    }
  }

  lemma ReframingFundsOnce(side: Role, n: Node, log: seq<LndEvent>, f: Frame)
    requires FundsOnce(side, n, log) && n.row.Some? && OwnKnown(side, f.meta, n.own)
    requires n.own.Some? ==> HasOwn(side, f.meta) && (HasOwn(side, n.row.value.meta) || IsTerminal(n.row.value.state))
    ensures FundsOnce(side, n.(frame := Some(f)), log)
  {
    hide OwnKnown, LockedOnce, HasOwn;
  }

  lemma ProposalFundsOnce(w: World, s: Role, sender: Bytes, msg: Msg, now: int, side: Role)
    requires FundsOnce(side, NodeOf(w, side), w.log) && msg.Proposal? && (s == side == Initiator ==> msg.mode != DualMode || CheckProposal(sender, msg).Err?)
    requires side == Initiator ==> NodeOf(w, side).row.Some?
    ensures var x := StoredIfOk(w, s, UpsertFromProposal(NodeOf(w, s).row, sender, msg, now));
            FundsOnce(side, NodeOf(x, side), x.log)
  {
    var n := NodeOf(w, side);
    var r := UpsertFromProposal(n.row, sender, msg, now);
    assert r.Ok? ==> CheckProposal(sender, msg).Ok?;
    if s == side && r.Ok? {
      var m := if n.row.Some? then n.row.value.meta else EMPTY_META;
      assert OwnKnown(side, m, n.own);
      PatchingKeepsOwn(side, m, ProposalPatch(msg), n.own);
      hide OwnKnown, Merge, ProposalPatch, CheckProposal, FundsOnce;
      StoringFundsOnce(side, n, w.log, r.value);
    }
  }

  // Recovery calls write back documents the node has stored, with other recovery fields.
  lemma RecoveryFieldsKeepOwn(side: Role, from: Meta, m: Meta, own: Option<Artifacts>)
    requires OwnKnown(side, from, own)
    requires m == from.(orphanRate := m.orphanRate, initSig := m.initSig, accSig := m.accSig, orphanTxid := m.orphanTxid)
    ensures OwnKnown(side, m, own)
  {
  }

  lemma RecoveryPatchKeepsOwn(h: Hashes, w: World, side: Role, id: nat, op: Orphan.Op)
    requires FundsOnce(side, NodeOf(w, side), w.log) && Safe(h, w) && MayRecover(w, side, id, op) && Orphan.IsWrite(op)
    ensures var n := NodeOf(w, side);
            KeepsOwn(side, n.row.value.meta, Merge(n.row.value.meta, Orphan.PatchOf(h, n.calls[id], op)), n.own)
  {
    HeldRowsAreStored(h, w, side);
    var n := NodeOf(w, side);
    var c, m := n.calls[id], n.row.value.meta;
    assert OwnKnown(side, m, n.own);
    if op.SaveSwept? {
      PatchingKeepsOwn(side, m, NO_PATCH, n.own);
    } else {
      var from := OpenRuns.DocumentSource(h, c, op);
      assert OwnKnown(side, from.meta, n.own);
      hide FundsOnce, Safe, OwnKnown, KeepsOwn, Encode, Merge, Orphan.DocumentOf, Orphan.RowsOf;
      RecoveryFieldsKeepOwn(side, from.meta, Orphan.DocumentOf(h, c, op), n.own);
      MergingKeepsOwn(side, m, Orphan.DocumentOf(h, c, op), n.own);
    }
  }

  lemma RecallingFundsOnce(side: Role, n: Node, log: seq<LndEvent>, calls: map<nat, Orphan.Call>)
    requires FundsOnce(side, n, log)
    ensures FundsOnce(side, n.(calls := calls), log)
  {
    hide OwnKnown, LockedOnce;
  }

  lemma RecoveryFundsOnce(h: Hashes, w: World, s: Role, id: nat, op: Orphan.Op, side: Role)
    requires FundsOnce(side, NodeOf(w, side), w.log) && Safe(h, w) && MayRecover(w, s, id, op)
    ensures var x := RecoveryStepped(h, w, s, id, op); FundsOnce(side, NodeOf(x, side), x.log)
  {
    hide FundsOnce, Safe;
    if op.Ask? || op.Hear? {
      hide Orphan.Asked, Orphan.Listening, Orphan.CheckOrphanMessage, Orphan.PlanRecovery;
      var x := RecoveryStepped(h, w, s, id, op);
      RecallingFundsOnce(side, NodeOf(w, side), w.log, NodeOf(x, side).calls);
    } else if Orphan.IsWrite(op) {
      RecoveryWriteFundsOnce(h, w, s, id, op, side);
    } else {
      hide Orphan.EventsOf, Orphan.SentBy, Orphan.Continued;
      var events := Orphan.EventsOf(NodeOf(w, s).calls[id], op);
      RecoveryEventsAreSafe(NodeOf(w, s).calls[id], op);
      LoggingFundsOnce(side, NodeOf(w, side), w.log, events);
      var x := RecoveryStepped(h, w, s, id, op);
      RecallingFundsOnce(side, NodeOf(w, side), w.log + events, NodeOf(x, side).calls);
    }
  }

  lemma RecoveryWriteFundsOnce(h: Hashes, w: World, s: Role, id: nat, op: Orphan.Op, side: Role)
    requires FundsOnce(side, NodeOf(w, side), w.log) && Safe(h, w) && MayRecover(w, s, id, op) && Orphan.IsWrite(op)
    ensures var x := RecoveryStepped(h, w, s, id, op); FundsOnce(side, NodeOf(x, side), x.log)
  {
    hide FundsOnce, Safe, KeepsOwn, Merge, Transition, Orphan.NextState, Orphan.PatchOf, Orphan.Written, Orphan.Refused, RecoveryStepped;
    var c := NodeOf(w, s).calls[id];
    if s == side {
      RecoveryPatchKeepsOwn(h, w, side, id, op);
    }
    RecoveryWrittenCases(h, w, s, id, op);
    WritingFundsOnce(w, s, Orphan.NextState(c, op), Orphan.PatchOf(h, c, op), op.now, side);
    var y := Written(w, s, Orphan.NextState(c, op), Orphan.PatchOf(h, c, op), op.now);
    var x := RecoveryStepped(h, w, s, id, op);
    RecallingFundsOnce(side, NodeOf(y, side), y.log, NodeOf(x, side).calls);
  }

  lemma CallFundsOnce(h: Hashes, w: World, c: LndCall, side: Role)
    requires FundsOnce(side, NodeOf(w, side), w.log) && MayCall(h, w, c)
    ensures FundsOnce(side, NodeOf(w, side), w.log + [EventOf(h, w, c)])
  {
    assert !EventOf(h, w, c).SentOutput?;
    hide FundsOnce, EventOf, MayCall;
    LoggingFundsOnce(side, NodeOf(w, side), w.log, [EventOf(h, w, c)]);
  }

  lemma CancelFundsOnce(w: World, s: Role, now: int, side: Role)
    requires FundsOnce(side, NodeOf(w, side), w.log) && NodeOf(w, s).row.Some?
    ensures var x := StoredIfOk(w, s, CancelRow(NodeOf(w, s).row.value, now)); FundsOnce(side, NodeOf(x, side), x.log)
  {
    var row := NodeOf(w, s).row.value;
    if s == side && CancelRow(row, now).Ok? {
      StoringFundsOnce(side, NodeOf(w, side), w.log, CancelRow(row, now).value);
    }
  }

  lemma StepFundsOnce(h: Hashes, w: World, step: Step, side: Role)
    requires Safe(h, w) && FundsOnce(side, NodeOf(w, side), w.log) && Enabled(h, w, step) && !SpeaksFor(side, step)
    ensures var x := Apply(h, w, step); FundsOnce(side, NodeOf(x, side), x.log)
  {
    assert w.initiator.row.Some?;
    hide Safe, FundsOnce, OperatorMay, Operated, MayUpdate, Updated, MayCall, EventOf, MayRecover, RecoveryStepped, StoredIfOk,
         UpsertFromProposal, CancelRow;
    match step
    case Operate(op) => OperatorFundsOnce(h, w, op, side);
    case Write(u) => UpdateFundsOnce(h, w, u, side);
    case Call(c) => CallFundsOnce(h, w, c, side);
    case CancelSession(s, now) => CancelFundsOnce(w, s, now, side);
    case HearProposal(s, sender, msg, now) => ProposalFundsOnce(w, s, sender, msg, now, side);
    case Recover(s, id, act) => RecoveryFundsOnce(h, w, s, id, act, side);
  }

  lemma {:induction false} RunFundsOnce(h: Hashes, w: World, steps: seq<Step>, side: Role)
    requires Safe(h, w) && FundsOnce(side, NodeOf(w, side), w.log) && CanRun(h, w, steps)
    requires forall i :: 0 <= i < |steps| ==> !SpeaksFor(side, steps[i])
    ensures var x := Run(h, w, steps); FundsOnce(side, NodeOf(x, side), x.log)
    decreases |steps|
  {
    hide Safe, FundsOnce, Apply, Enabled, SpeaksFor;
    if steps != [] {
      StepKeepsSafe(h, w, steps[0]);
      StepFundsOnce(h, w, steps[0], side);
      assert forall i :: 0 <= i < |steps| - 1 ==> steps[1..][i] == steps[i + 1];
      RunFundsOnce(h, Apply(h, w, steps[0]), steps[1..], side);
    }
  }

  // In every run with any peer in which no message speaks for a node's own side, that
  // node locks coins at most once.
  lemma LocksOnceUnlessSpokenFor(h: Hashes, w: World, steps: seq<Step>, side: Role, i: nat, j: nat)
    requires Starts(w) && CanRun(h, w, steps)
    requires forall k :: 0 <= k < |steps| ==> !SpeaksFor(side, steps[k])
    requires var log := Run(h, w, steps).log; i < |log| && j < |log| && FundedBy(log[i], side) && FundedBy(log[j], side)
    ensures i == j
  {
    hide SpeaksFor, CanRun, Run, Safe;
    StartIsSafe(h, w);
    RunFundsOnce(h, w, steps, side);
  }

  // ---- Why the condition --------------------------------------------------------------------

  // A message a node hears takes from it the key to its own output if and only if it
  // speaks for the node's side: a proposal, if the node is the initiator and the proposal
  // for a dual-funded channel; an accept, if it is the accepter and the accept is.
  lemma SpokenForForgets(h: Hashes, r: Row, sender: Bytes, msg: Msg, now: int)
    requires HasOwn(r.role, r.meta)
    ensures msg.Proposal? && UpsertFromProposal(Some(r), sender, msg, now).Ok? ==>
              (HasOwn(r.role, UpsertFromProposal(Some(r), sender, msg, now).value.meta) <==> !SpeaksFor(r.role, HearProposal(r.role, sender, msg, now)))
    ensures msg.Accept? && HearAccept(h, r, sender, msg).Ok? ==>
              (HasOwn(r.role, Merge(r.meta, Encode(HearAccept(h, r, sender, msg).value))) <==>
               !SpeaksFor(r.role, Write(HeardAccept(r.role, r, sender, msg, now))))
  {
  }

  // A node that has locked coins, its session open and its operator idle.
  ghost predicate LockedAndOpen(w: World, side: Role) {
    var n := NodeOf(w, side);
    && (exists e :: e in w.log && FundedBy(e, side))
    && n.frame.None? && n.row.Some? && n.row.value in n.hist && n.row.value.role == side && !IsTerminal(n.row.value.state)
  }

  // Coins locked twice by one side.
  ghost predicate LockedTwice(log: seq<LndEvent>, side: Role) {
    exists i, j :: 0 <= i < j < |log| && FundedBy(log[i], side) && FundedBy(log[j], side)
  }

  lemma OneMoreLock(log: seq<LndEvent>, side: Role, e: LndEvent)
    requires (exists v :: v in log && FundedBy(v, side)) && FundedBy(e, side)
    ensures LockedTwice(log + [e], side)
  {
    var v :| v in log && FundedBy(v, side);
    var i :| 0 <= i < |log| && log[i] == v;
    assert (log + [e])[i] == v && (log + [e])[|log|] == e;
  }

  // A dual-mode proposal whose terms can be met.
  predicate Fundable(sender: Bytes, msg: Msg) {
    && msg.Proposal? && msg.mode == DualMode && CheckProposal(sender, msg).Ok?
    && TransitContribution(msg.cap, EffectiveFeeRate(msg.fee)).Ok? && TransitContribution(msg.cap, EffectiveFeeRate(msg.fee)).value > 0
  }

  // From a proposal just heard, a node without its own key locks coins: two steps.
  lemma HeardThenLocks(h: Hashes, w: World, side: Role, multisig: KeyDesc, transitKey: KeyDesc, at: OutPoint) returns (steps: seq<Step>)
    requires var n := NodeOf(w, side);
             && n.frame.None? && n.row.Some? && (exists e :: e in w.log && FundedBy(e, side))
             && CanFund(side, Frame(n.row.value, n.row.value.meta, false))
    requires IsPubkey(multisig.pub) && IsPubkey(transitKey.pub) && IsTxid(at.txid)
    ensures CanRun(h, w, steps) && LockedTwice(Run(h, w, steps).log, side)
  {
    hide LockedTwice;
    var begin, fund := Operate(Begin(side)), Operate(Fund(side, multisig, transitKey, at));
    var r := NodeOf(w, side).row.value;
    var w1 := Framed(w, side, Some(Frame(r, r.meta, false)));
    assert Enabled(h, w, begin) && Apply(h, w, begin) == w1;
    assert Enabled(h, w1, fund);
    var own := FundedArtifacts(h, r, multisig, transitKey, at);
    var w2 := Locked(w1, side, own);
    assert Apply(h, w1, fund) == w2;
    OneMoreLock(w.log, side, SentOutput(side, own.transit.sat, own.transit.script, TransitPoint(own.transit)));
    hide Enabled, Apply, CanRun, Run;
    OneStep(h, w, begin);
    OneStep(h, w1, fund);
    RunsCompose(h, w, [begin], [fund]);
    steps := [begin] + [fund];
  }

  // And so the condition is exact for the initiator: from any world in which it has locked
  // coins, a proposal that speaks for it can be followed by a second lock.
  lemma InitiatorLocksAgain(h: Hashes, w: World, sender: Bytes, msg: Msg, now: int, multisig: KeyDesc, transitKey: KeyDesc, at: OutPoint)
    requires !w.honest && LockedAndOpen(w, Initiator) && Fundable(sender, msg)
    requires IsPubkey(multisig.pub) && IsPubkey(transitKey.pub) && IsTxid(at.txid)
    ensures exists rest :: CanRun(h, w, [HearProposal(Initiator, sender, msg, now)] + rest)
                           && LockedTwice(Run(h, w, [HearProposal(Initiator, sender, msg, now)] + rest).log, Initiator)
  {
    var hear := HearProposal(Initiator, sender, msg, now);
    var r := UpsertFromProposal(w.initiator.row, sender, msg, now).value;
    var w1 := StoredRow(w, Initiator, r);
    assert Enabled(h, w, hear) && Apply(h, w, hear) == w1;
    assert CanFund(Initiator, Frame(r, r.meta, false));
    hide Enabled, Apply, CanRun, Run, CanFund, LockedTwice, UpsertFromProposal;
    var rest := HeardThenLocks(h, w1, Initiator, multisig, transitKey, at);
    OneStep(h, w, hear);
    RunsCompose(h, w, [hear], rest);
  }

  // ... and for the accepter, who needs a proposal of its peer's side to operate again.
  lemma AccepterLocksAgain(h: Hashes, w: World, sender: Bytes, msg: Msg, prop: Msg, now: int, multisig: KeyDesc, transitKey: KeyDesc, at: OutPoint)
    requires !w.honest && LockedAndOpen(w, Accepter) && Fundable(sender, prop)
    requires msg.Accept? && HearAccept(h, w.accepter.row.value, sender, msg).Ok? && AcceptMode(w.accepter.row.value.meta, msg) == DualMode
    requires IsPubkey(multisig.pub) && IsPubkey(transitKey.pub) && IsTxid(at.txid)
    ensures var heard := [Write(HeardAccept(Accepter, w.accepter.row.value, sender, msg, now))];
            exists rest :: CanRun(h, w, heard + rest) && LockedTwice(Run(h, w, heard + rest).log, Accepter)
  {
    var row := w.accepter.row.value;
    var first := Write(HeardAccept(Accepter, row, sender, msg, now));
    var r := AcceptedRow(h, row, sender, msg, now);
    var w1 := StoredRow(w, Accepter, r);
    assert Enabled(h, w, first) && Apply(h, w, first) == w1;
    var hear := HearProposal(Accepter, sender, prop, now);
    var r2 := UpsertFromProposal(Some(r), sender, prop, now).value;
    var w2 := StoredRow(w1, Accepter, r2);
    assert Enabled(h, w1, hear) && Apply(h, w1, hear) == w2;
    hide Enabled, Apply, CanRun, Run, LockedTwice, HearAccept, Transition;
    assert CanFund(Accepter, Frame(r2, r2.meta, false));
    hide CanFund, UpsertFromProposal;
    var rest := HeardThenLocks(h, w2, Accepter, multisig, transitKey, at);
    OneStep(h, w, first);
    OneStep(h, w1, hear);
    RunsCompose(h, w1, [hear], rest);
    RunsCompose(h, w, [first], [hear] + rest);
  }

  // The row an accept about its own side leaves the accepter with: its key is gone.
  lemma AcceptedRow(h: Hashes, row: Row, sender: Bytes, msg: Msg, now: int) returns (r: Row)
    requires !IsTerminal(row.state) && row.role == Accepter
    requires msg.Accept? && HearAccept(h, row, sender, msg).Ok? && AcceptMode(row.meta, msg) == DualMode
    ensures Transition(row, Accepted, Encode(HearAccept(h, row, sender, msg).value), now) == Ok(r)
    ensures r.role == Accepter && r.state == Accepted && r.meta.mode == DualMode && !HasTransit(r.meta.accTransit, true)
  {
    r := Transition(row, Accepted, Encode(HearAccept(h, row, sender, msg).value), now).value;
  }
}
