// The stored funding transaction and the stored funding id, with any peer. They stay
// together except for one write: the one after a failed broadcast stores a transaction
// without its id, and another execution may have stored another id meanwhile.
module OpenCoherence {
  import opened Prelude
  import opened Bitcoin
  import opened Session
  import opened FundingPlan
  import opened Lnd
  import opened OpenWorld
  import opened OpenHistory
  import opened OpenSafety
  import OpenRuns
  import Orphan = OrphanRecovery

  // A document's funding transaction and funding id are both there or neither, and match.
  ghost predicate Coherent(h: Hashes, m: Meta) {
    && (m.fundingTx.Some? <==> m.fundingId != [])
    && (m.fundingTx.Some? ==> TxId(h, m.fundingTx.value) == m.fundingId)
  }

  // Only the write after a failed broadcast stores a transaction without its id.
  predicate WritesNoId(u: Update) {
    u.SaveSigned? && u.after == BroadcastFailed
  }

  // With any peer, every write of the service keeps a coherent row coherent, except the
  // write after a failed broadcast: that one does if and only if the row still records
  // the id of the transaction that failed.
  lemma WritesKeepCoherence(h: Hashes, w: World, u: Update, m: Meta)
    requires HashWidths(h) && MayUpdate(h, w, u) && Coherent(h, m) && Coherent(h, u.from.meta)
    ensures Coherent(h, Merge(m, PatchOf(h, w, u))) <==> (WritesNoId(u) ==> m.fundingId == PlanOf(h, u.from).txid)
  {
    hide BuildDualFundingPlan, CheckExecuteArtifacts, WithoutWitness, FinalTx;
    match u
    case Submit(from, now) =>
      PlanIdIsTxid(h, from);
    case SaveSigned(from, submitted, stack, actual, after, now) =>
      AssembledTxIsAcked(h, w, from, stack, actual);
      PlanIdIsTxid(h, from);
    case _ =>
  }

  lemma PlanIdIsTxid(h: Hashes, r: Row)
    requires HashWidths(h) && HasPlan(h, r)
    ensures PlanOf(h, r).txid == TxId(h, PlanOf(h, r).tx) && |PlanOf(h, r).txid| == 32
  {
  }

  // The operator calls and recovery calls write whole documents, which keep coherence.
  lemma DocumentWritesKeepCoherence(h: Hashes, m: Meta, writer: Meta)
    requires Coherent(h, m) && Coherent(h, writer)
    ensures Coherent(h, Merge(m, Encode(writer)))
  {
    hide WithoutWitness;
  }

  // ---- Steps ------------------------------------------------------------------------------

  ghost predicate RowsCoherent(h: Hashes, n: Node) {
    forall r :: r in n.hist ==> Coherent(h, r.meta)
  }

  ghost predicate NodeCoherent(h: Hashes, n: Node) {
    RowsCoherent(h, n) && (n.frame.Some? ==> Coherent(h, n.frame.value.meta))
  }

  // The write after a failed broadcast lands on a row with another id: one more execution
  // has been submitted since this one was, for other artifacts of the peer.
  predicate Strays(h: Hashes, w: World, step: Step) {
    && step.Write? && WritesNoId(step.update) && HasPlan(h, step.update.from)
    && w.initiator.row.Some? && !IsTerminal(w.initiator.row.value.state)
    && w.initiator.row.value.meta.fundingId != PlanOf(h, step.update.from).txid
  }

  lemma StoringKeepsCoherent(h: Hashes, n: Node, r: Row)
    requires NodeCoherent(h, n)
    ensures NodeCoherent(h, Stored(n, r)) <==> Coherent(h, r.meta)
    ensures RowsCoherent(h, Stored(n, r)) <==> Coherent(h, r.meta)
  {
    hide Coherent;
  }

  lemma UpdateCoherence(h: Hashes, w: World, u: Update, side: Role)
    requires HashWidths(h) && MayUpdate(h, w, u) && NodeCoherent(h, NodeOf(w, side))
    requires NodeOf(w, side).row.Some? ==> NodeOf(w, side).row.value in NodeOf(w, side).hist
    ensures var k := NodeOf(Updated(h, w, u), side);
            && (NodeCoherent(h, k) <==> !(side == Initiator && Strays(h, w, Write(u))))
            && (RowsCoherent(h, k) <==> NodeCoherent(h, k))
  {
    hide Coherent, MayUpdate, PatchOf, NextState, Merge, NodeCoherent, RowsCoherent, HasPlan, PlanOf;
    var n := NodeOf(w, side);
    CoherentNode(h, n);
    UpdateSource(h, w, u);
    if SideOf(u) == side && n.row.Some? {
      CoherentRow(h, n, u.from);
      CoherentRow(h, n, n.row.value);
      WritesKeepCoherence(h, w, u, n.row.value.meta);
      StrayingIsRefused(h, w, u, n.row.value);
      var t := Transition(n.row.value, NextState(u), PatchOf(h, w, u), u.now);
      if t.Ok? {
        MovedRow(n.row.value, NextState(u), PatchOf(h, w, u), u.now);
        StoringKeepsCoherent(h, n, t.value);
      }
    }
  }

  lemma UpdateSource(h: Hashes, w: World, u: Update)
    requires MayUpdate(h, w, u)
    ensures u.from in NodeOf(w, SideOf(u)).hist && (WritesNoId(u) ==> SideOf(u) == Initiator)
  {
    hide HasPlan, PlanOf;
  }

  lemma CoherentRow(h: Hashes, n: Node, r: Row)
    requires RowsCoherent(h, n) && r in n.hist
    ensures Coherent(h, r.meta)
  {
  }

  lemma CoherentNode(h: Hashes, n: Node)
    requires NodeCoherent(h, n)
    ensures RowsCoherent(h, n)
  {
  }

  // The guard refuses the write after a failed broadcast exactly to a closed row.
  lemma StrayingIsRefused(h: Hashes, w: World, u: Update, row: Row)
    requires MayUpdate(h, w, u)
    ensures WritesNoId(u) ==> (Transition(row, NextState(u), PatchOf(h, w, u), u.now).Ok? <==> !IsTerminal(row.state)) && HasPlan(h, u.from) && SideOf(u) == Initiator
  {
    hide HasPlan, PlanOf, PatchOf, Merge;
  }

  lemma OperatorCoherence(h: Hashes, w: World, op: OperatorStep, side: Role)
    requires HashWidths(h) && OperatorMay(h, w, op) && NodeCoherent(h, NodeOf(w, side))
    requires var n := NodeOf(w, side); (n.row.Some? ==> n.row.value in n.hist) && (n.frame.Some? ==> n.row.Some?)
    ensures NodeCoherent(h, NodeOf(Operated(h, w, op), side))
  {
    if op.Save? {
      hide CanSave, Saved;
      if op.side == side {
        SavingCoherence(h, w, side, op.next, op.now);
      } else {
        SavingLeavesOther(w, op.side, op.next, op.now);
      }
    } else if op.Countersign? {
      CountersignedIsCoherent(h, w.accepter.frame.value, op.answer);
      hide Coherent, CanCountersign, CountersignedMeta, CountersignEvents;
    } else {
      hide TxId, FundedArtifacts, CanSend, CanFund;
    }
  }

  lemma SavingCoherence(h: Hashes, w: World, side: Role, next: State, now: int)
    requires NodeCoherent(h, NodeOf(w, side))
    requires var n := NodeOf(w, side); n.row.Some? && n.row.value in n.hist && n.frame.Some?
    ensures NodeCoherent(h, NodeOf(Saved(w, side, next, now), side))
  {
    hide Coherent, Encode, Merge, Transition, Saved;
    var n := NodeOf(w, side);
    SavedCases(w, side, next, now);
    MovedRow(n.row.value, next, Encode(n.frame.value.meta), now);
    DocumentWritesKeepCoherence(h, n.row.value.meta, n.frame.value.meta);
  }

  lemma CountersignedIsCoherent(h: Hashes, f: Frame, answer: Option<seq<Bytes>>)
    requires HashWidths(h) && CanCountersign(h, f)
    ensures Coherent(h, CountersignedMeta(h, f, answer))
  {
    var m := CountersignedMeta(h, f, answer);
    assert |m.fundingId| == 32;
  }

  lemma ProposalCoherence(h: Hashes, w: World, s: Role, sender: Bytes, msg: Msg, now: int, side: Role)
    requires msg.Proposal? && NodeCoherent(h, NodeOf(w, side))
    requires var n := NodeOf(w, side); n.row.Some? ==> n.row.value in n.hist
    ensures NodeCoherent(h, NodeOf(StoredIfOk(w, s, UpsertFromProposal(NodeOf(w, s).row, sender, msg, now)), side))
  {
    hide TxId, CheckProposal;
  }

  lemma CancelCoherence(h: Hashes, w: World, s: Role, now: int, side: Role)
    requires NodeOf(w, s).row.Some? && NodeCoherent(h, NodeOf(w, side))
    requires var n := NodeOf(w, side); n.row.Some? ==> n.row.value in n.hist
    ensures NodeCoherent(h, NodeOf(StoredIfOk(w, s, CancelRow(NodeOf(w, s).row.value, now)), side))
  {
    hide Coherent;
  }

  lemma RecoveryPatchIsCoherent(h: Hashes, w: World, side: Role, id: nat, op: Orphan.Op)
    requires Safe(h, w) && NodeCoherent(h, NodeOf(w, side)) && MayRecover(w, side, id, op) && Orphan.IsWrite(op)
    ensures var n := NodeOf(w, side); Coherent(h, Merge(n.row.value.meta, Orphan.PatchOf(h, n.calls[id], op)))
  {
    HeldRowsAreStored(h, w, side);
    hide Safe, Orphan.RowsOf, Orphan.DocumentOf, Encode;
    var n := NodeOf(w, side);
    var c := n.calls[id];
    assert Coherent(h, n.row.value.meta);
    if !op.SaveSwept? {
      var from := OpenRuns.DocumentSource(h, c, op);
      assert Coherent(h, from.meta);
      assert Coherent(h, Orphan.DocumentOf(h, c, op));
      hide Coherent, NodeCoherent;
      DocumentWritesKeepCoherence(h, n.row.value.meta, Orphan.DocumentOf(h, c, op));
    }
  }

  lemma RecoveryCoherence(h: Hashes, w: World, s: Role, id: nat, op: Orphan.Op, side: Role)
    requires Safe(h, w) && NodeCoherent(h, NodeOf(w, side)) && MayRecover(w, s, id, op)
    ensures NodeCoherent(h, NodeOf(RecoveryStepped(h, w, s, id, op), side))
  {
    if Orphan.IsWrite(op) {
      RecoveryWriteCoherence(h, w, s, id, op, side);
    } else {
      hide Safe, NodeCoherent, Orphan.EventsOf, Orphan.SentBy, Orphan.Continued, Orphan.Asked, Orphan.Listening, Orphan.PlanRecovery,
           Orphan.CheckOrphanMessage;
      CallsHoldNoDocument(h, NodeOf(w, side));
    }
  }

  lemma RecoveryWriteCoherence(h: Hashes, w: World, s: Role, id: nat, op: Orphan.Op, side: Role)
    requires Safe(h, w) && NodeCoherent(h, NodeOf(w, side)) && MayRecover(w, s, id, op) && Orphan.IsWrite(op)
    ensures NodeCoherent(h, NodeOf(RecoveryStepped(h, w, s, id, op), side))
  {
    hide Safe, NodeCoherent, RowsCoherent, Coherent, Merge, Transition, Orphan.NextState, Orphan.PatchOf, Orphan.Written, Orphan.Refused, RecoveryStepped;
    RecoveryWrittenCases(h, w, s, id, op);
    var n := NodeOf(w, s);
    var t := Transition(n.row.value, Orphan.NextState(n.calls[id], op), Orphan.PatchOf(h, n.calls[id], op), op.now);
    CallsHoldNoDocument(h, NodeOf(w, side));
    if s == side && t.Ok? {
      RecoveryPatchIsCoherent(h, w, side, id, op);
      MovedRow(n.row.value, Orphan.NextState(n.calls[id], op), Orphan.PatchOf(h, n.calls[id], op), op.now);
      StoringKeepsCoherent(h, n, t.value);
      CallsHoldNoDocument(h, Stored(n, t.value));
    }
  }

  lemma CallsHoldNoDocument(h: Hashes, n: Node)
    requires NodeCoherent(h, n)
    ensures forall calls :: NodeCoherent(h, n.(calls := calls))
  {
    hide Coherent;
  }

  // A step leaves every row of a coherent node coherent if and only if it does not stray.
  lemma StepCoherence(h: Hashes, w: World, step: Step, side: Role)
    requires HashWidths(h) && Safe(h, w) && Enabled(h, w, step) && NodeCoherent(h, NodeOf(w, side))
    ensures var k := NodeOf(Apply(h, w, step), side);
            && (NodeCoherent(h, k) <==> !(side == Initiator && Strays(h, w, step)))
            && (RowsCoherent(h, k) <==> NodeCoherent(h, k))
  {
    HeldRowsAreStored(h, w, side);
    assert NodeOf(w, side).frame.Some? ==> NodeOf(w, side).row.Some?;
    hide Safe, Coherent, OperatorMay, Operated, MayUpdate, Updated, MayCall, EventOf, MayRecover, RecoveryStepped, StoredIfOk, UpsertFromProposal,
         CancelRow;
    match step
    case Operate(op) => OperatorCoherence(h, w, op, side);
    case Write(u) => UpdateCoherence(h, w, u, side);
    case Call(c) =>
    case CancelSession(s, now) => CancelCoherence(h, w, s, now, side);
    case HearProposal(s, sender, msg, now) => ProposalCoherence(h, w, s, sender, msg, now, side);
    case Recover(s, id, act) => RecoveryCoherence(h, w, s, id, act, side);
  }

  // ---- Runs ---------------------------------------------------------------------------------

  predicate NeverStrays(h: Hashes, w: World, steps: seq<Step>)
    requires CanRun(h, w, steps)
    decreases |steps|
  {
    steps == [] || (!Strays(h, w, steps[0]) && NeverStrays(h, Apply(h, w, steps[0]), steps[1..]))
  }

  ghost predicate AllRowsCoherent(h: Hashes, w: World) {
    RowsCoherent(h, w.initiator) && RowsCoherent(h, w.accepter)
  }

  lemma IncoherenceStays(h: Hashes, w: World, steps: seq<Step>)
    requires CanRun(h, w, steps) && AllRowsCoherent(h, Run(h, w, steps))
    ensures AllRowsCoherent(h, w)
  {
    RunIsLater(h, w, steps);
    hide Coherent, CanRun, Run;
  }

  lemma {:induction false} RunCoherence(h: Hashes, w: World, steps: seq<Step>)
    requires HashWidths(h) && Safe(h, w) && CanRun(h, w, steps)
    requires NodeCoherent(h, w.initiator) && NodeCoherent(h, w.accepter)
    ensures AllRowsCoherent(h, Run(h, w, steps)) <==> NeverStrays(h, w, steps)
    decreases |steps|
  {
    hide Safe, Coherent, Apply, Enabled, Strays;
    if steps != [] {
      var x := Apply(h, w, steps[0]);
      StepKeepsSafe(h, w, steps[0]);
      StepCoherence(h, w, steps[0], Initiator);
      StepCoherence(h, w, steps[0], Accepter);
      if Strays(h, w, steps[0]) {
        if AllRowsCoherent(h, Run(h, x, steps[1..])) {
          IncoherenceStays(h, x, steps[1..]);
        }
      } else {
        RunCoherence(h, x, steps[1..]);
      }
    }
  }

  // In every run with any peer: every row ever stored is coherent if and only if no write
  // after a failed broadcast landed on a row with another funding id.
  lemma CoherentIffNeverStrays(h: Hashes, w: World, steps: seq<Step>)
    requires HashWidths(h) && Starts(w) && CanRun(h, w, steps)
    ensures (forall side, r :: r in NodeOf(Run(h, w, steps), side).hist ==> Coherent(h, r.meta)) <==> NeverStrays(h, w, steps)
  {
    StartIsSafe(h, w);
    hide Safe, CanRun, Run, NeverStrays;
    RunCoherence(h, w, steps);
    var x := Run(h, w, steps);
    hide Coherent;
    assert NodeOf(x, Initiator) == x.initiator && NodeOf(x, Accepter) == x.accepter;
  }
}
