// The recovery fee rate of a node, with any peer. A recovery call checks the recorded rate
// in the row it read, and records its own later; in between other calls run. So the rate
// stays what it is as long as no call starts at another rate than an unfinished one, and
// a call that does can change it.
module OpenRates {
  import opened Prelude
  import opened Bitcoin
  import opened Session
  import opened FundingPlan
  import opened Lnd
  import opened OpenWorld
  import opened OpenSafety
  import Orphan = OrphanRecovery

  // The rate a node has recorded, 0 when none.
  function RateOf(n: Node): int {
    if n.row.Some? then n.row.value.meta.orphanRate else 0
  }

  // ---- The condition ---------------------------------------------------------------------

  predicate StartsRecovery(step: Step) {
    step.Recover? && (step.act.Ask? || (step.act.Hear? && Orphan.IsOrphanMessage(step.act.msg)))
  }

  // The rate a call that starts now will work at.
  function RateAsked(w: World, step: Step): int
    requires StartsRecovery(step)
  {
    Orphan.ChosenRate(if step.act.Ask? then step.act.asked else step.act.msg.rate, RateOf(NodeOf(w, step.side)))
  }

  // A recovery call starts while another of the same node is unfinished at another rate.
  predicate Clashes(w: World, step: Step) {
    StartsRecovery(step) &&
    exists id :: id in NodeOf(w, step.side).calls && NodeOf(w, step.side).calls[id].rate != RateAsked(w, step)
  }

  // No step of a run clashes.
  predicate CalmRun(h: Hashes, w: World, steps: seq<Step>)
    requires CanRun(h, w, steps)
    decreases |steps|
  {
    steps == [] || (!Clashes(w, steps[0]) && CalmRun(h, Apply(h, w, steps[0]), steps[1..]))
  }

  // ---- The invariant ---------------------------------------------------------------------

  predicate Fits(m: Meta, rate: int) {
    m.orphanRate == 0 || m.orphanRate == rate
  }

  // A call that has not come to record its own signature and rate.
  predicate Unrecorded(c: Orphan.Call) {
    c.stage.Heard? || c.stage.Planned? || c.stage.Ready?
  }

  predicate WellHeard(c: Orphan.Call) {
    c.stage.Heard? ==> c.msg.Some? && Orphan.IsOrphanMessage(c.msg.value)
  }

  // Whatever the node holds records its rate or none, and its calls work at one rate,
  // the node's once any has recorded it.
  ghost predicate Steady(n: Node) {
    && RateOf(n) >= 0
    && (forall r :: r in n.hist ==> Fits(r.meta, RateOf(n)))
    && (n.frame.Some? ==> Fits(n.frame.value.meta, RateOf(n)))
    && (forall id :: id in n.calls ==> n.calls[id].rate > 0 && (RateOf(n) == 0 || n.calls[id].rate == RateOf(n)))
    && (forall id :: id in n.calls ==> WellHeard(n.calls[id]) && (Unrecorded(n.calls[id]) || n.calls[id].rate == RateOf(n)))
    && (forall i, j :: i in n.calls && j in n.calls ==> n.calls[i].rate == n.calls[j].rate)
  }

  // A row with the node's rate, or with the rate of its calls if it had none, may follow.
  lemma StoringKeepsSteady(n: Node, r: Row)
    requires Steady(n)
    requires var rate := r.meta.orphanRate;
             rate == RateOf(n) || (rate > 0 && RateOf(n) == 0 && forall id :: id in n.calls ==> n.calls[id].rate == rate)
    ensures Steady(Stored(n, r))
  {
  }

  lemma MergedRate(m: Meta, p: Patch)
    ensures Merge(m, p).orphanRate == Or(p.orphanRate, m.orphanRate)
  {
  }

  lemma EncodedRate(m: Meta)
    ensures Encode(m).orphanRate == Unless(m.orphanRate <= 0, m.orphanRate)
  {
  }

  // A write may record the node's rate, or none, or one all its calls work at.
  predicate RecordsRate(n: Node, p: Patch) {
    p.orphanRate in {None, Some(RateOf(n))} ||
    (p.orphanRate.Some? && p.orphanRate.value > 0 && RateOf(n) in {0, p.orphanRate.value} &&
     forall id :: id in n.calls ==> n.calls[id].rate == p.orphanRate.value)
  }

  lemma WritingKeepsSteady(w: World, writer: Role, next: State, p: Patch, now: int, side: Role)
    requires Steady(NodeOf(w, side)) && (writer == side ==> RecordsRate(NodeOf(w, side), p))
    ensures Steady(NodeOf(Written(w, writer, next, p, now), side))
  {
    hide Steady, Merge;
    var n := NodeOf(w, side);
    if writer == side && n.row.Some? && Transition(n.row.value, next, p, now).Ok? {
      MergedRate(n.row.value.meta, p);
      StoringKeepsSteady(n, Transition(n.row.value, next, p, now).value);
    }
  }

  // ---- Steps -------------------------------------------------------------------------------

  lemma UpdateKeepsSteady(h: Hashes, w: World, u: Update, side: Role)
    requires Steady(NodeOf(w, side)) && MayUpdate(h, w, u)
    ensures Steady(NodeOf(Updated(h, w, u), side))
  {
    var n := NodeOf(w, side);
    assert SideOf(u) == side ==> Fits(u.from.meta, RateOf(n)) && RateOf(n) >= 0;
    hide Steady, HasPlan, SubmitPatch, SignedPatch, SiteApplies, Encode;
    if u.HeardAccept? {
      EncodedRate(HearAccept(h, u.from, u.sender, u.msg).value);
    } else {
      PlainPatchesHaveNoRate(h, w, u);
      hide PatchOf;
    }
    WritingKeepsSteady(w, SideOf(u), NextState(u), PatchOf(h, w, u), u.now, side);
  }

  lemma PlainPatchesHaveNoRate(h: Hashes, w: World, u: Update)
    requires MayUpdate(h, w, u) && !u.HeardAccept?
    ensures PatchOf(h, w, u).orphanRate == None
  {
    hide HasPlan, PlanOf, AssembledTx, ExecuteMeta;
  }

  // What a document of an operator's call records: what it did before, or the row read.
  lemma FrameRate(h: Hashes, w: World, op: OperatorStep, side: Role)
    requires OperatorMay(h, w, op) && !op.Save?
    ensures var n, k := NodeOf(w, side), NodeOf(Operated(h, w, op), side);
            && k.row == n.row && k.hist == n.hist && k.calls == n.calls
            && (k.frame.Some? ==> k.frame.value.meta.orphanRate == RateOf(n) ||
                                  (n.frame.Some? && k.frame.value.meta.orphanRate == n.frame.value.meta.orphanRate))
  {
    hide BuildDualFundingPlan, CountersignEvents, FundedArtifacts, CanSend, CanFund, Saved;
  }

  lemma OperatorKeepsSteady(h: Hashes, w: World, op: OperatorStep, side: Role)
    requires Safe(h, w) && Steady(NodeOf(w, side)) && OperatorMay(h, w, op)
    ensures Steady(NodeOf(Operated(h, w, op), side))
  {
    if op.Save? {
      assert NodeOf(w, side).frame.Some? ==> NodeOf(w, side).row.Some?;
      hide Safe, Steady, Transition, CanSave, Saved;
      if op.side == side {
        SavingKeepsSteady(w, side, op.next, op.now);
      } else {
        SavingLeavesOther(w, op.side, op.next, op.now);
      }
    } else {
      hide Safe, Operated, OperatorMay;
      FrameRate(h, w, op, side);
    }
  }

  lemma SavingKeepsSteady(w: World, side: Role, next: State, now: int)
    requires Steady(NodeOf(w, side)) && NodeOf(w, side).frame.Some? && NodeOf(w, side).row.Some?
    ensures Steady(NodeOf(Saved(w, side, next, now), side))
  {
    var n := NodeOf(w, side);
    var m := n.frame.value.meta;
    assert Fits(m, RateOf(n)) && RateOf(n) >= 0;
    hide Steady, Encode, Merge, Transition, Saved;
    SavedCases(w, side, next, now);
    MovedRow(n.row.value, next, Encode(m), now);
    MergedRate(n.row.value.meta, Encode(m));
    EncodedRate(m);
    var t := Transition(n.row.value, next, Encode(m), now);
    if t.Ok? {
      StoringKeepsSteady(n, t.value);
      ReframingKeepsSteady(Stored(n, t.value), Frame(t.value, m, false));
    } else {
      ReframingKeepsSteady(n, n.frame.value.(unsaved := false));
    }
  }

  lemma ReframingKeepsSteady(n: Node, f: Frame)
    requires Steady(n) && Fits(f.meta, RateOf(n))
    ensures Steady(n.(frame := Some(f)))
  {
  }

  lemma ProposalKeepsSteady(w: World, s: Role, sender: Bytes, msg: Msg, now: int, side: Role)
    requires Steady(NodeOf(w, side)) && msg.Proposal?
    requires NodeOf(w, side).row.None? ==> NodeOf(w, side).hist == {}
    ensures Steady(NodeOf(StoredIfOk(w, s, UpsertFromProposal(NodeOf(w, s).row, sender, msg, now)), side))
  {
    var r := UpsertFromProposal(NodeOf(w, side).row, sender, msg, now);
    if s == side && r.Ok? {
      hide CheckProposal;
      assert r.value.meta.orphanRate == RateOf(NodeOf(w, side));
      hide Steady, UpsertFromProposal;
      StoringKeepsSteady(NodeOf(w, side), r.value);
    }
  }

  lemma CancelKeepsSteady(w: World, s: Role, now: int, side: Role)
    requires Steady(NodeOf(w, side)) && NodeOf(w, s).row.Some?
    ensures Steady(NodeOf(StoredIfOk(w, s, CancelRow(NodeOf(w, s).row.value, now)), side))
  {
  }

  // A call that starts at the rate of the others.
  lemma StartingKeepsSteady(n: Node, id: nat, c: Orphan.Call)
    requires Steady(n) && c.rate > 0 && (RateOf(n) == 0 || c.rate == RateOf(n)) && Unrecorded(c) && WellHeard(c)
    requires forall i :: i in n.calls ==> n.calls[i].rate == c.rate
    ensures Steady(n.(calls := n.calls[id := c]))
  {
  }

  // A call that goes on at its rate, or ends.
  lemma GoingOnKeepsSteady(n: Node, id: nat, c: Option<Orphan.Call>)
    requires Steady(n) && id in n.calls
    requires c.Some? ==> c.value.rate == n.calls[id].rate && WellHeard(c.value) && (Unrecorded(c.value) || c.value.rate == RateOf(n))
    ensures Steady(n.(calls := if c.Some? then n.calls[id := c.value] else n.calls - {id}))
  {
  }

  lemma StartedRate(w: World, side: Role, id: nat, op: Orphan.Op)
    requires MayRecover(w, side, id, op) && (op.Ask? || op.Hear?)
    ensures var row := NodeOf(w, side).row.value;
            var c := if op.Ask? then Orphan.Asked(row, op.asked) else Orphan.Listening(row, op.msg);
            c.rate == RateAsked(w, Step.Recover(side, id, op)) > 0 && Unrecorded(c) && WellHeard(c) && (RateOf(NodeOf(w, side)) > 0 ==> c.rate == RateOf(NodeOf(w, side)))
  {
    hide BuildOrphanPlan;
  }

  // Every write of a recovery call records its rate, or the node's.
  lemma RecoveryRecordsRate(h: Hashes, w: World, side: Role, id: nat, op: Orphan.Op)
    requires Steady(NodeOf(w, side)) && MayRecover(w, side, id, op) && Orphan.IsWrite(op)
    requires forall i :: i in NodeOf(w, side).calls ==> Orphan.RowsOf(NodeOf(w, side).calls[i]) <= NodeOf(w, side).hist
    ensures RecordsRate(NodeOf(w, side), Orphan.PatchOf(h, NodeOf(w, side).calls[id], op))
  {
    var n := NodeOf(w, side);
    var c := n.calls[id];
    assert op.SaveDone? ==> c.stage.half in Orphan.RowsOf(c) && Fits(c.stage.half.meta, RateOf(n));
    assert c.rate > 0 && (RateOf(n) == 0 || c.rate == RateOf(n));
    assert forall i :: i in n.calls ==> n.calls[i].rate == c.rate;
    hide Steady, Encode, Orphan.RecoveryTx, Orphan.RowsOf;
    if !op.SaveSwept? {
      EncodedRate(Orphan.DocumentOf(h, c, op));
    }
  }

  lemma RecoveryKeepsSteady(h: Hashes, w: World, s: Role, id: nat, op: Orphan.Op, side: Role)
    requires Safe(h, w) && Steady(NodeOf(w, side)) && MayRecover(w, s, id, op) && !Clashes(w, Step.Recover(s, id, op))
    ensures Steady(NodeOf(RecoveryStepped(h, w, s, id, op), side))
  {
    HeldRowsAreStored(h, w, side);
    hide Safe;
    if s == side {
      if op.Ask? || op.Hear? {
        StartedRate(w, side, id, op);
        hide Orphan.PlanRecovery, Orphan.CheckOrphanMessage, Steady;
        var row := NodeOf(w, side).row.value;
        StartingKeepsSteady(NodeOf(w, side), id, if op.Ask? then Orphan.Asked(row, op.asked) else Orphan.Listening(row, op.msg));
      } else if Orphan.IsWrite(op) {
        RecoveryWriteKeepsSteady(h, w, side, id, op);
      } else {
        assert Unrecorded(NodeOf(w, side).calls[id]) || NodeOf(w, side).calls[id].rate == RateOf(NodeOf(w, side));
        if Orphan.Continued(NodeOf(w, side).calls[id], op).Some? {
          ContinuedRate(NodeOf(w, side).calls[id], op);
        }
        hide Steady, Orphan.EventsOf, Orphan.SentBy, Orphan.Continued;
        GoingOnKeepsSteady(NodeOf(w, side), id, Orphan.Continued(NodeOf(w, side).calls[id], op));
      }
    } else {
      OtherNodeStays(h, w, s, id, op);
    }
  }

  lemma OtherNodeStays(h: Hashes, w: World, s: Role, id: nat, op: Orphan.Op)
    requires MayRecover(w, s, id, op)
    ensures NodeOf(RecoveryStepped(h, w, s, id, op), Other(s)) == NodeOf(w, Other(s))
  {
    hide Transition, Orphan.NextState, Orphan.PatchOf, Orphan.Written, Orphan.Refused, Orphan.EventsOf, Orphan.SentBy, Orphan.Continued,
         Orphan.PlanRecovery, Orphan.CheckOrphanMessage, Orphan.Asked, Orphan.Listening;
  }

  lemma ContinuedRate(c: Orphan.Call, op: Orphan.Op)
    requires Orphan.May(c, op) && !Orphan.IsWrite(op) && Orphan.Continued(c, op).Some?
    ensures var d := Orphan.Continued(c, op).value;
            d.rate == c.rate && WellHeard(d) && (Unrecorded(c) ==> Unrecorded(d))
  {
  }

  // After its own write a call either has yet to record its signature, or the row has its rate.
  lemma WrittenRate(h: Hashes, c: Orphan.Call, op: Orphan.Op, r: Row, stored: Meta)
    requires Orphan.May(c, op) && Orphan.IsWrite(op) && c.rate > 0 && r.meta == Merge(stored, Orphan.PatchOf(h, c, op))
    requires op.SaveDone? ==> Fits(c.stage.half.meta, c.rate) && stored.orphanRate == c.rate
    requires op.SaveSwept? ==> stored.orphanRate == c.rate
    ensures Orphan.Written(c, op, r).Some? ==>
              var d := Orphan.Written(c, op, r).value; d.rate == c.rate && WellHeard(d) && (Unrecorded(d) || r.meta.orphanRate == d.rate)
    ensures !op.SaveDone? && !op.SaveSwept? ==> r.meta.orphanRate == c.rate
  {
    MergedRate(stored, Orphan.PatchOf(h, c, op));
    if !op.SaveSwept? {
      EncodedRate(Orphan.DocumentOf(h, c, op));
    }
    hide Orphan.PlanRecovery, Encode, Merge, Orphan.RecoveryTx;
  }

  // What an invariant node says of one of its calls.
  lemma SteadyCall(n: Node, id: nat)
    requires Steady(n) && id in n.calls && Orphan.RowsOf(n.calls[id]) <= n.hist
    ensures var c := n.calls[id];
            && c.rate > 0 && RateOf(n) in {0, c.rate} && WellHeard(c) && (Unrecorded(c) || c.rate == RateOf(n))
            && (c.stage.Published? ==> Fits(c.stage.half.meta, c.rate))
  {
  }

  lemma RecoveryWriteKeepsSteady(h: Hashes, w: World, side: Role, id: nat, op: Orphan.Op)
    requires Steady(NodeOf(w, side)) && MayRecover(w, side, id, op) && Orphan.IsWrite(op)
    requires forall i :: i in NodeOf(w, side).calls ==> Orphan.RowsOf(NodeOf(w, side).calls[i]) <= NodeOf(w, side).hist
    ensures Steady(NodeOf(RecoveryStepped(h, w, side, id, op), side))
  {
    hide Steady, Transition, Orphan.NextState, Orphan.PatchOf, Orphan.Written, RecoveryStepped, RecordsRate, Orphan.RowsOf, Merge, Fits,
         Unrecorded, WellHeard;
    var n := NodeOf(w, side);
    var c := n.calls[id];
    var next, p := Orphan.NextState(c, op), Orphan.PatchOf(h, c, op);
    var t := Transition(n.row.value, next, p, op.now);
    SteadyCall(n, id);
    RecoveryWrittenCases(h, w, side, id, op);
    if t.Ok? {
      RecoveryRecordsRate(h, w, side, id, op);
      WritingKeepsSteady(w, side, next, p, op.now, side);
      MovedRow(n.row.value, next, p, op.now);
      LateWritesFollow(c, op);
      WrittenRate(h, c, op, t.value, n.row.value.meta);
      GoingOnKeepsSteady(Stored(n, t.value), id, Orphan.Written(c, op, t.value));
    } else {
      GoingOnKeepsSteady(n, id, Orphan.Refused(c, op));
    }
  }

  lemma LateWritesFollow(c: Orphan.Call, op: Orphan.Op)
    requires Orphan.May(c, op) && Orphan.IsWrite(op)
    ensures op.SaveDone? || op.SaveSwept? ==> !Unrecorded(c)
    ensures op.SaveDone? ==> c.stage.Published?
  {
  }

  lemma StepKeepsSteady(h: Hashes, w: World, step: Step, side: Role)
    requires Safe(h, w) && Steady(NodeOf(w, side)) && Enabled(h, w, step) && !Clashes(w, step)
    ensures Steady(NodeOf(Apply(h, w, step), side))
  {
    assert NodeOf(w, side).row.None? ==> NodeOf(w, side).hist == {};
    hide Safe, Steady, OperatorMay, Operated, MayUpdate, Updated, MayCall, EventOf, RecoveryStepped, MayRecover, StoredIfOk, UpsertFromProposal, CancelRow;
    match step
    case Operate(op) => OperatorKeepsSteady(h, w, op, side);
    case Write(u) => UpdateKeepsSteady(h, w, u, side);
    case Call(c) =>
    case CancelSession(s, now) => CancelKeepsSteady(w, s, now, side);
    case HearProposal(s, sender, msg, now) => ProposalKeepsSteady(w, s, sender, msg, now, side);
    case Recover(s, id, act) => RecoveryKeepsSteady(h, w, s, id, act, side);
  }

  lemma {:induction false} RunKeepsSteady(h: Hashes, w: World, steps: seq<Step>, side: Role)
    requires Safe(h, w) && Steady(NodeOf(w, side)) && CanRun(h, w, steps) && CalmRun(h, w, steps)
    ensures Steady(NodeOf(Run(h, w, steps), side)) && Safe(h, Run(h, w, steps))
    decreases |steps|
  {
    hide Safe, Steady, Apply, Enabled, Clashes;
    if steps != [] {
      StepKeepsSafe(h, w, steps[0]);
      StepKeepsSteady(h, w, steps[0], side);
      RunKeepsSteady(h, Apply(h, w, steps[0]), steps[1..], side);
    }
  }

  // With any peer, in every run in which no recovery call starts at another rate than an
  // unfinished one: once a node records a rate, every later row records the same one.
  lemma RecordedRateStays(h: Hashes, w: World, steps: seq<Step>, side: Role, r: Row)
    requires Starts(w) && CanRun(h, w, steps) && CalmRun(h, w, steps)
    requires r in NodeOf(Run(h, w, steps), side).hist && r.meta.orphanRate > 0
    ensures var row := NodeOf(Run(h, w, steps), side).row; row.Some? && row.value.meta.orphanRate == r.meta.orphanRate
  {
    hide CanRun, Run, CalmRun, Safe;
    StartIsSafe(h, w);
    RunKeepsSteady(h, w, steps, side);
  }

  // ---- Why the condition ---------------------------------------------------------------------

  // The state an unrecorded call will write.
  function Heading(c: Orphan.Call): State {
    Orphan.ProgressState(c.row.state)
  }

  // A call that stands by, whatever another one did to the node.
  predicate Later(n: Node, k: Node, id: nat) {
    && n.hist <= k.hist
    && forall j :: j != id && j in n.calls ==> j in k.calls && k.calls[j] == n.calls[j]
  }

  // The row now records this call's rate, in the state the call was heading for.
  predicate HasRecorded(c: Orphan.Call, k: Node) {
    && k.row.Some? && k.row.value in k.hist
    && k.row.value.meta.orphanRate == c.rate && k.row.value.state == Heading(c)
  }

  // What an unrecorded call does next: record its rate over whatever the row records.
  lemma RecordingStep(h: Hashes, w: World, side: Role, id: nat) returns (step: Step)
    requires NodeOf(w, side).row.Some? && id in NodeOf(w, side).calls
    requires var c := NodeOf(w, side).calls[id];
             (c.stage.Heard? || c.stage.Ready?) && WellHeard(c) && c.rate > 0 && Admits(NodeOf(w, side).row.value.state, Heading(c))
    ensures Enabled(h, w, step)
    ensures var n, k := NodeOf(w, side), NodeOf(Apply(h, w, step), side);
            HasRecorded(n.calls[id], k) && Later(n, k, id)
  {
    hide Orphan.PlanRecovery, BuildOrphanPlan, Merge, Encode;
    var n := NodeOf(w, side);
    var c := n.calls[id];
    var op := if c.stage.Heard? then Orphan.SaveHeard(0) else Orphan.SaveSigned(0);
    step := Step.Recover(side, id, op);
    MergedRate(n.row.value.meta, Orphan.PatchOf(h, c, op));
    EncodedRate(Orphan.DocumentOf(h, c, op));
    RecoveryWrittenCases(h, w, side, id, op);
    hide Orphan.Written, RecoveryStepped;
  }

  // Left to itself an unrecorded call records its rate.
  lemma CallRecordsItsRate(h: Hashes, w: World, side: Role, id: nat) returns (steps: seq<Step>)
    requires NodeOf(w, side).row.Some? && id in NodeOf(w, side).calls
    requires var c := NodeOf(w, side).calls[id];
             Unrecorded(c) && WellHeard(c) && c.rate > 0 && Admits(NodeOf(w, side).row.value.state, Heading(c))
    ensures CanRun(h, w, steps)
    ensures var n, k := NodeOf(w, side), NodeOf(Run(h, w, steps), side);
            HasRecorded(n.calls[id], k) && Later(n, k, id)
  {
    var c := NodeOf(w, side).calls[id];
    if c.stage.Planned? {
      var sign := Step.Recover(side, id, Orphan.Sign([0x30]));
      assert Enabled(h, w, sign);
      var x := Apply(h, w, sign);
      assert NodeOf(x, side).calls[id].stage.Ready? && NodeOf(x, side).calls[id].(stage := c.stage) == c;
      assert NodeOf(x, side).row == NodeOf(w, side).row && Later(NodeOf(w, side), NodeOf(x, side), id);
      hide Enabled, Apply, CanRun, Run, Admits;
      var record := RecordingStep(h, x, side, id);
      OneStep(h, w, sign);
      OneStep(h, x, record);
      RunsCompose(h, w, [sign], [record]);
      steps := [sign] + [record];
    } else {
      hide Enabled, Apply, CanRun, Run, Admits, HasRecorded, Later;
      var record := RecordingStep(h, w, side, id);
      OneStep(h, w, record);
      steps := [record];
    }
  }

  // Two unrecorded calls of one node at different rates can leave one rate and then the
  // other: some row records the first and the last row the second.
  lemma TwoRatesGetRecorded(h: Hashes, w: World, side: Role, i: nat, j: nat) returns (steps: seq<Step>)
    requires var n := NodeOf(w, side);
             && n.row.Some? && i in n.calls && j in n.calls && i != j
             && Unrecorded(n.calls[i]) && WellHeard(n.calls[i]) && n.calls[i].rate > 0
             && Unrecorded(n.calls[j]) && WellHeard(n.calls[j]) && n.calls[j].rate > 0
             && Admits(n.row.value.state, Heading(n.calls[i])) && Admits(Heading(n.calls[i]), Heading(n.calls[j]))
    ensures CanRun(h, w, steps) && RateChanges(NodeOf(Run(h, w, steps), side), NodeOf(w, side).calls[i].rate, NodeOf(w, side).calls[j].rate)
  {
    hide CanRun, Run, Admits, Unrecorded, WellHeard;
    var first := CallRecordsItsRate(h, w, side, i);
    var x := Run(h, w, first);
    var rest := CallRecordsItsRate(h, x, side, j);
    RunsCompose(h, w, first, rest);
    steps := first + rest;
  }

  // A row the node has stored records one rate, its present row another.
  ghost predicate RateChanges(n: Node, before: int, after: int) {
    && (exists r :: r in n.hist && r.meta.orphanRate == before)
    && n.row.Some? && n.row.value.meta.orphanRate == after
  }

  // A call that starts in a clash meets one that has yet to record its rate.
  lemma ClashingCalls(w: World, step: Step) returns (i: nat, c: Orphan.Call)
    requires StartsRecovery(step) && MayRecover(w, step.side, step.id, step.act) && Clashes(w, step) && Steady(NodeOf(w, step.side))
    ensures var n := NodeOf(w, step.side);
            && i in n.calls && i != step.id && Unrecorded(n.calls[i]) && WellHeard(n.calls[i])
            && Unrecorded(c) && WellHeard(c) && c.row == n.row.value
            && 0 < n.calls[i].rate && 0 < c.rate != n.calls[i].rate
    ensures forall h :: RecoveryStepped(h, w, step.side, step.id, step.act) == WithCall(w, step.side, step.id, Some(c))
  {
    hide Orphan.PlanRecovery, Orphan.CheckOrphanMessage;
    var side, op := step.side, step.act;
    var n := NodeOf(w, side);
    i :| i in n.calls && n.calls[i].rate != RateAsked(w, step);
    StartedRate(w, side, step.id, op);
    c := if op.Ask? then Orphan.Asked(n.row.value, op.asked) else Orphan.Listening(n.row.value, op.msg);
    hide WellHeard;
  }

  // So the condition is exact: wherever a call starts that clashes with an unfinished one,
  // both have yet to record their rates, and there is a way to go on in which the rate
  // changes, unless the states the two calls write are refused.
  lemma ClashCanChangeTheRate(h: Hashes, w: World, step: Step)
    requires Safe(h, w) && Enabled(h, w, step) && Clashes(w, step) && Steady(NodeOf(w, step.side))
    requires forall id :: id in NodeOf(w, step.side).calls ==>
               var other := Heading(NodeOf(w, step.side).calls[id]);
               Admits(NodeOf(w, step.side).row.value.state, other) &&
               Admits(other, Orphan.ProgressState(NodeOf(w, step.side).row.value.state))
    ensures exists steps, before, after ::
              && CanRun(h, w, [step] + steps) && 0 < before && 0 < after != before
              && RateChanges(NodeOf(Run(h, w, [step] + steps), step.side), before, after)
  {
    hide Safe, Steady, RecoveryStepped, CanRun, Run, Admits, Unrecorded, WellHeard, Orphan.PlanRecovery, Orphan.CheckOrphanMessage;
    var side, n := step.side, NodeOf(w, step.side);
    var i, c := ClashingCalls(w, step);
    var x := WithCall(w, side, step.id, Some(c));
    assert Apply(h, w, step) == x;
    hide Apply, Enabled, RateChanges;
    var rest := TwoRatesGetRecorded(h, x, side, i, step.id);
    OneStep(h, w, step);
    RunsCompose(h, w, [step], rest);
    assert 0 < n.calls[i].rate && 0 < c.rate != n.calls[i].rate && RateChanges(NodeOf(Run(h, w, [step] + rest), side), n.calls[i].rate, c.rate);
  }

  // ... in every run with any peer: the first clash can be followed by a change of rate.
  lemma FirstClashCanChangeTheRate(h: Hashes, w: World, steps: seq<Step>, step: Step)
    requires Starts(w) && CanRun(h, w, steps) && CalmRun(h, w, steps)
    requires var x := Run(h, w, steps);
             && Enabled(h, x, step) && Clashes(x, step)
             && forall id :: id in NodeOf(x, step.side).calls ==>
                  var other := Heading(NodeOf(x, step.side).calls[id]);
                  Admits(NodeOf(x, step.side).row.value.state, other) &&
                  Admits(other, Orphan.ProgressState(NodeOf(x, step.side).row.value.state))
    ensures exists rest, before, after ::
              && CanRun(h, w, steps + ([step] + rest)) && 0 < before && 0 < after != before
              && RateChanges(NodeOf(Run(h, w, steps + ([step] + rest)), step.side), before, after)
  {
    hide CanRun, Run, CalmRun, Safe, Steady, Apply, Enabled, Admits, Heading, RateChanges, Orphan.ProgressState;
    StartIsSafe(h, w);
    StartIsSteady(w, step.side);
    RunKeepsSteady(h, w, steps, step.side);
    var x := Run(h, w, steps);
    ClashCanChangeTheRate(h, x, step);
    var rest, before, after :|
      && CanRun(h, x, [step] + rest) && 0 < before && 0 < after != before
      && RateChanges(NodeOf(Run(h, x, [step] + rest), step.side), before, after);
    RunsCompose(h, w, steps, [step] + rest);
  }

  lemma StartIsSteady(w: World, side: Role)
    requires Starts(w)
    ensures Steady(NodeOf(w, side))
  {
  }
}
