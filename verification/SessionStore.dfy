// The table of sessions. Every statement of the service reads and writes one row, so
// what happens to a session depends only on the statements that name it.
module SessionStore {
  import opened Prelude
  import opened Bitcoin
  import opened Session

  type Id = string

  datatype Statement =
    | Insert(id: Id, role: Role, peer: Bytes, cap: int, fee: int, given: Option<Meta>, now: int)
    | Move(id: Id, next: State, patch: Patch, now: int)
    | CancelIt(id: Id, now: int)
    | Upsert(id: Id, sender: Bytes, msg: Msg, now: int)

  function Find(rows: map<Id, Row>, id: Id): Option<Row> {
    if id in rows then Some(rows[id]) else None
  }

  // What a statement makes of the row it names: the new row, or the error it returns.
  function Effect(stored: Option<Row>, s: Statement): Result<Row, Error> {
    match s
    case Insert(_, role, peer, cap, fee, given, now) => NewSession(role, peer, cap, fee, given, now)
    case Move(_, next, patch, now) => if stored.None? then Err(NotFound) else Transition(stored.value, next, patch, now)
    case CancelIt(_, now) => if stored.None? then Err(NotFound) else CancelRow(stored.value, now)
    case Upsert(_, sender, msg, now) => if !msg.Proposal? then Err(InvalidAction) else UpsertFromProposal(stored, sender, msg, now)
  }

  // A statement that fails leaves the row alone.
  function Kept(stored: Option<Row>, s: Statement): Option<Row> {
    if Effect(stored, s).Ok? then Some(Effect(stored, s).value) else stored
  }

  // The row the statement names becomes its effect, or stays if it fails; no other changes.
  ghost predicate Executed(before: map<Id, Row>, after: map<Id, Row>, s: Statement) {
    && Find(after, s.id) == Kept(Find(before, s.id), s)
    && forall id :: id != s.id ==> Find(after, id) == Find(before, id)
  }

  class Table {
    var rows: map<Id, Row>
    ghost var past: seq<Statement>

    // The table is what its past made of it.
    ghost predicate Valid()
      reads this
    {
      forall id :: Find(rows, id) == Replayed(None, About(past, id))
    }

    constructor ()
      ensures Valid() && rows == map[] && past == []
    {
      rows, past := map[], [];
    }

    // CreateSession, with a new id
    method CreateSession(id: Id, role: Role, peer: Bytes, cap: int, fee: int, given: Option<Meta>, now: int) returns (r: Result<Row, Error>)
      requires Valid() && id !in rows
      modifies this
      ensures var s := Insert(id, role, peer, cap, fee, given, now);
              Valid() && past == old(past) + [s] && r == Effect(None, s) && Executed(old(rows), rows, s)
      ensures r.Ok? <==> |peer| == 33 && fee >= 0 && cap >= 20000 && cap % 2 == 0
      ensures r.Err? ==> r.error == (if |peer| != 33 then InvalidPeerKey else if fee < 0 then InvalidFeeRate else InvalidCapacity)
      ensures r.Ok? ==> r.value == Row(role, peer, cap, fee, SessionCreated, now, if given.Some? then given.value else EMPTY_META.(mode := DualMode))
    {
      if !IsPubkey(peer) {
        r := Err(InvalidPeerKey);
      } else if fee < 0 {
        r := Err(InvalidFeeRate);
      } else if cap < MIN_CAPACITY_SAT || cap % 2 != 0 {
        r := Err(InvalidCapacity);
      } else {
        r := Ok(Row(role, peer, cap, fee, SessionCreated, now, if given.Some? then given.value else EMPTY_META.(mode := DualMode)));
      }
      Write(Insert(id, role, peer, cap, fee, given, now), r);
    }

    // transitionSessionWithMetadata
    method TransitionSession(id: Id, next: State, patch: Patch, now: int) returns (r: Result<Row, Error>)
      requires Valid()
      modifies this
      ensures var s := Move(id, next, patch, now);
              Valid() && past == old(past) + [s] && r == Effect(Find(old(rows), id), s) && Executed(old(rows), rows, s)
      ensures id !in old(rows) ==> r == Err(NotFound)
      ensures id in old(rows) ==>
                var row := old(rows)[id];
                if row.state in {Active, Failed} || (row.state in {Canceled, Recovered} && next != Recovered) then r == Err(TerminalState)
                else r == Ok(row.(state := next, updatedAt := now, meta := Merge(row.meta, patch)))
    {
      if id !in rows {
        r := Err(NotFound);
      } else if IsTerminal(rows[id].state) && ((rows[id].state != Canceled && rows[id].state != Recovered) || next != Recovered) {
        r := Err(TerminalState);
      } else {
        r := Ok(rows[id].(state := next, updatedAt := now, meta := Merge(rows[id].meta, patch)));
      }
      Write(Move(id, next, patch, now), r);
    }

    // CancelSession
    method CancelSession(id: Id, now: int) returns (r: Result<Row, Error>)
      requires Valid()
      modifies this
      ensures var s := CancelIt(id, now);
              Valid() && past == old(past) + [s] && r == Effect(Find(old(rows), id), s) && Executed(old(rows), rows, s)
      ensures id !in old(rows) ==> r == Err(NotFound)
      ensures id in old(rows) ==>
                var row := old(rows)[id];
                r == if row.state in {Active, Failed, Canceled, Recovered} then Err(TerminalState) else Ok(row.(state := Canceled, updatedAt := now))
    {
      if id !in rows {
        r := Err(NotFound);
      } else if IsTerminal(rows[id].state) {
        r := Err(TerminalState);
      } else {
        r := Ok(rows[id].(state := Canceled, updatedAt := now));
      }
      Write(CancelIt(id, now), r);
    }

    // upsertSessionFromProposal
    method UpsertSession(id: Id, sender: Bytes, msg: Msg, now: int) returns (r: Result<Row, Error>)
      requires Valid() && msg.Proposal?
      modifies this
      ensures var s := Upsert(id, sender, msg, now);
              Valid() && past == old(past) + [s] && r == Effect(Find(old(rows), id), s) && Executed(old(rows), rows, s)
      ensures r.Ok? <==> IsGoodProposal(sender, msg)
      ensures r.Ok? ==> IsStoredProposal(Find(old(rows), id), sender, msg, now, r.value)
    {
      ProposalIsStored(Find(rows, id), sender, msg, now);
      var checked := CheckProposal(sender, msg);
      if checked.Err? {
        r := Err(checked.error);
      } else if id !in rows {
        r := Ok(Row(Accepter, sender, msg.cap, msg.fee, ProposalReceived, now, Merge(EMPTY_META, ProposalPatch(msg))));
      } else {
        var row := rows[id].(peer := sender, cap := msg.cap, fee := msg.fee, meta := Merge(rows[id].meta, ProposalPatch(msg)));
        r := Ok(if IsTerminal(row.state) then row else row.(state := ProposalReceived, updatedAt := now));
      }
      Write(Upsert(id, sender, msg, now), r);
    }

    // The update of the one row.
    method Write(s: Statement, r: Result<Row, Error>)
      requires Valid() && r == Effect(Find(rows, s.id), s)
      modifies this
      ensures Valid() && past == old(past) + [s] && Executed(old(rows), rows, s)
    {
      forall id {
        OneMoreStatement(past, s, id);
      }
      hide Effect, About, Replayed;
      if r.Ok? {
        rows := rows[s.id := r.value];
      }
      past := past + [s];
    }
  }

  // ---- Sessions are independent ---------------------------------------------------------------

  // The statements that name a session.
  function About(past: seq<Statement>, id: Id): seq<Statement> {
    if past == [] then []
    else About(past[..|past| - 1], id) + (if past[|past| - 1].id == id then [past[|past| - 1]] else [])
  }

  // What a sequence of statements makes of one row.
  function Replayed(stored: Option<Row>, statements: seq<Statement>): Option<Row> {
    if statements == [] then stored
    else Kept(Replayed(stored, statements[..|statements| - 1]), statements[|statements| - 1])
  }

  lemma OneMoreStatement(past: seq<Statement>, s: Statement, id: Id)
    ensures Replayed(None, About(past + [s], id)) ==
            if s.id == id then Kept(Replayed(None, About(past, id)), s) else Replayed(None, About(past, id))
  {
    assert (past + [s])[..|past|] == past;
    var before := About(past, id);
    assert (before + [s])[..|before|] == before && before + [] == before;
  }

  // Once there, a session keeps its role, is never removed, and a terminal state is left
  // only from canceled, for recovered, whatever statements come, in whatever order.
  lemma {:induction false} RowsOnlyMove(stored: Option<Row>, statements: seq<Statement>)
    requires stored.Some? && forall i :: 0 <= i < |statements| ==> !statements[i].Insert?
    ensures var r := Replayed(stored, statements);
            && r.Some? && r.value.role == stored.value.role
            && (IsTerminal(stored.value.state) ==>
                  r.value.state == stored.value.state || (stored.value.state == Canceled && r.value.state == Recovered))
  {
    if statements != [] {
      RowsOnlyMove(stored, statements[..|statements| - 1]);
    }
  }
}
