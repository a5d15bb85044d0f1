// What no step undoes: rows once stored, packets once sent, calls to LND once made.
module OpenHistory {
  import opened Prelude
  import opened Bitcoin
  import opened Session
  import opened FundingPlan
  import opened Lnd
  import opened OpenWorld
  import Orphan = OrphanRecovery

  ghost predicate Keeps(n: Node, k: Node) {
    k.pub == n.pub && n.hist <= k.hist && (n.row.Some? ==> k.row.Some?)
  }

  ghost predicate Later(w: World, x: World) {
    && x.honest == w.honest
    && Keeps(w.initiator, x.initiator) && Keeps(w.accepter, x.accepter)
    && w.net <= x.net && (forall e :: e in w.log ==> e in x.log)
  }

  lemma LaterIsTransitive(w: World, x: World, y: World)
    requires Later(w, x) && Later(x, y)
    ensures Later(w, y)
  {
  }

  lemma LaterIsReflexive(w: World)
    ensures Later(w, w)
  {
  }

  lemma StoringIsLater(w: World, side: Role, r: Result<Row, Error>)
    ensures Later(w, StoredIfOk(w, side, r))
  {
  }

  lemma WritingIsLater(w: World, side: Role, next: State, p: Patch, now: int)
    ensures Later(w, Written(w, side, next, p, now))
  {
    hide Transition;
  }

  lemma LoggingIsLater(w: World, events: seq<LndEvent>)
    ensures Later(w, Log(w, events))
  {
  }

  lemma OperatorStepIsLater(h: Hashes, w: World, op: OperatorStep)
    requires OperatorMay(h, w, op)
    ensures Later(w, Operated(h, w, op))
  {
    hide Transition, BuildDualFundingPlan, CountersignedMeta, CountersignEvents, FundedArtifacts, Funded, CanSend, CanFund, CanCountersign;
  }

  lemma CallingIsLater(w: World, side: Role, id: nat, c: Option<Orphan.Call>)
    ensures Later(w, WithCall(w, side, id, c))
  {
  }

  lemma RecoveryIsLater(h: Hashes, w: World, side: Role, id: nat, op: Orphan.Op)
    requires MayRecover(w, side, id, op)
    ensures Later(w, RecoveryStepped(h, w, side, id, op))
  {
    hide Later, Written, Orphan.NextState, Orphan.PatchOf, Orphan.Written, Orphan.Refused, Orphan.EventsOf, Orphan.SentBy, Orphan.Continued,
         Orphan.Asked, Orphan.Listening, Orphan.PlanRecovery, Orphan.CheckOrphanMessage, WithCall, Log, Sent;
    var x := RecoveryStepped(h, w, side, id, op);
    if op.Ask? || op.Hear? {
      CallingIsLater(w, side, id, Some(if op.Ask? then Orphan.Asked(NodeOf(w, side).row.value, op.asked)
                                       else Orphan.Listening(NodeOf(w, side).row.value, op.msg)));
    } else {
      var c := NodeOf(w, side).calls[id];
      if Orphan.IsWrite(op) {
        var y := Written(w, side, Orphan.NextState(c, op), Orphan.PatchOf(h, c, op), op.now);
        WritingIsLater(w, side, Orphan.NextState(c, op), Orphan.PatchOf(h, c, op), op.now);
        CallsAreNoHistory(w, y, side, id);
      } else {
        var y := Sent(Log(w, Orphan.EventsOf(c, op)), side, Orphan.SentBy(c, op));
        SpeakingIsLater(w, Orphan.EventsOf(c, op), side, Orphan.SentBy(c, op));
        CallsAreNoHistory(w, y, side, id);
      }
    }
  }

  lemma SpeakingIsLater(w: World, events: seq<LndEvent>, side: Role, msgs: set<Msg>)
    ensures Later(w, Sent(Log(w, events), side, msgs))
  {
  }

  lemma CallsAreNoHistory(w: World, y: World, side: Role, id: nat)
    requires Later(w, y)
    ensures forall c :: Later(w, WithCall(y, side, id, c))
  {
  }

  lemma StepIsLater(h: Hashes, w: World, step: Step)
    requires Enabled(h, w, step)
    ensures Later(w, Apply(h, w, step))
  {
    hide Later, Written, StoredIfOk, UpsertFromProposal, CancelRow, PatchOf, EventOf, MayUpdate, OperatorMay, Operated, MayCall, Log,
         MayRecover, RecoveryStepped, NextState;
    match step
    case Operate(op) => OperatorStepIsLater(h, w, op);
    case Write(u) => WritingIsLater(w, SideOf(u), NextState(u), PatchOf(h, w, u), u.now);
    case Call(c) => LoggingIsLater(w, [EventOf(h, w, c)]);
    case CancelSession(side, now) => StoringIsLater(w, side, CancelRow(NodeOf(w, side).row.value, now));
    case HearProposal(side, sender, msg, now) => StoringIsLater(w, side, UpsertFromProposal(NodeOf(w, side).row, sender, msg, now));
    case Recover(side, id, act) => RecoveryIsLater(h, w, side, id, act);
  }

  lemma {:induction false} RunIsLater(h: Hashes, w: World, steps: seq<Step>)
    requires CanRun(h, w, steps)
    ensures Later(w, Run(h, w, steps))
    decreases |steps|
  {
    hide Apply, Enabled;
    if steps != [] {
      StepIsLater(h, w, steps[0]);
      RunIsLater(h, Apply(h, w, steps[0]), steps[1..]);
      LaterIsTransitive(w, Apply(h, w, steps[0]), Run(h, w, steps));
    }
  }
}
