/** The vault: at most one live secret for a key, and a revoked one that never comes back. */
module Credentials {
  import opened Text

  type Time = int
  type Id = nat

  datatype Key = Key(kind: string, provider: string, keyId: string)

  /** The envelope is what encryption made of the secret; nothing here looks inside it. */
  datatype Value = Value(key: Key, metadata: string, envelope: string)

  datatype Row = Row(value: Value, revokedAt: Option<Time>, updatedAt: Time)

  type Table = map<Id, Row>

  datatype Problem =
    | UniqueViolation
    | NotFoundOrRevoked
    | NotFoundOrAlreadyRevoked
    | PreviousNotFound
    | PreviousRevoked
    | PreviousMismatched
    | NotFound
    | IsRevoked

  predicate IsLive(table: Table, id: Id) {
    id in table && table[id].revokedAt.None?
  }

  function LiveIds(table: Table, key: Key): set<Id> {
    set id | id in table && table[id].revokedAt.None? && table[id].value.key == key
  }

  /** What the index on live rows holds. */
  ghost predicate OneLive(table: Table) {
    forall i, j | IsLive(table, i) && IsLive(table, j) && table[i].value.key == table[j].value.key :: i == j
  }

  // ----- one statement -----

  function Insert(table: Table, id: Id, value: Value, at: Time): Result<Table, Problem> {
    if LiveIds(table, value.key) != {} then Refused(UniqueViolation) else Ok(table[id := Row(value, None, at)])
  }

  function Stamp(table: Table, id: Id, at: Time): Table
    requires id in table
  {
    table[id := table[id].(revokedAt := Some(at), updatedAt := at)]
  }

  function UpdateSecret(table: Table, id: Id, envelope: string, at: Time): Result<Table, Problem> {
    if !IsLive(table, id) then Refused(NotFoundOrRevoked)
    else Ok(table[id := table[id].(value := table[id].value.(envelope := envelope), updatedAt := at)])
  }

  function Revoke(table: Table, id: Id, at: Time): Result<Table, Problem> {
    if !IsLive(table, id) then Refused(NotFoundOrAlreadyRevoked) else Ok(Stamp(table, id, at))
  }

  /** `decryptCredentialForUse`, up to opening the envelope. */
  function Use(table: Table, id: Id): Result<string, Problem> {
    if id !in table then Refused(NotFound)
    else if table[id].revokedAt.Some? then Refused(IsRevoked)
    else Ok(table[id].value.envelope)
  }

  // ----- one transaction -----

  function Rotate(table: Table, previous: Id, id: Id, value: Value, at: Time): Result<Table, Problem> {
    if previous !in table then Refused(PreviousNotFound)
    else if table[previous].revokedAt.Some? then Refused(PreviousRevoked)
    else if table[previous].value.key != value.key then Refused(PreviousMismatched)
    else Insert(Stamp(table, previous, at), id, value, at)
  }

  // ----- every interleaving of whole operations -----

  datatype Op =
    | Creating(id: Id, value: Value, at: Time)
    | Updating(id: Id, envelope: string, at: Time)
    | Rotating(previous: Id, id: Id, value: Value, at: Time)
    | Revoking(id: Id, at: Time)

  function Tried(table: Table, op: Op): Result<Table, Problem> {
    match op
    case Creating(id, value, at) => Insert(table, id, value, at)
    case Updating(id, envelope, at) => UpdateSecret(table, id, envelope, at)
    case Rotating(previous, id, value, at) => Rotate(table, previous, id, value, at)
    case Revoking(id, at) => Revoke(table, id, at)
  }

  function Step(table: Table, op: Op): Table {
    if Tried(table, op).Ok? then Tried(table, op).value else table
  }

  /** The database draws a new row an id no row has. */
  predicate Drawn(table: Table, op: Op) {
    op.Creating? || op.Rotating? ==> op.id !in table
  }

  function After(table: Table, ops: seq<Op>): Table
    decreases |ops|
  {
    if ops == [] then table else Step(After(table, ops[..|ops| - 1]), ops[|ops| - 1])
  }

  predicate IsRun(table: Table, ops: seq<Op>)
    decreases |ops|
  {
    ops == [] || (IsRun(table, ops[..|ops| - 1]) && Drawn(After(table, ops[..|ops| - 1]), ops[|ops| - 1]))
  }

  lemma InsertKeepsOneLive(table: Table, id: Id, value: Value, at: Time)
    requires OneLive(table) && id !in table && Insert(table, id, value, at).Ok?
    ensures OneLive(Insert(table, id, value, at).value)
    ensures LiveIds(Insert(table, id, value, at).value, value.key) == {id}
    ensures forall key | key != value.key :: LiveIds(Insert(table, id, value, at).value, key) == LiveIds(table, key)
  {
    var after := Insert(table, id, value, at).value;
    assert forall i | i in table :: i !in LiveIds(table, value.key);
    forall i, j | IsLive(after, i) && IsLive(after, j) && after[i].value.key == after[j].value.key ensures i == j {
      if i != id && j != id { assert IsLive(table, i) && IsLive(table, j); }
    }
  }

  lemma StampKeepsOneLive(table: Table, id: Id, at: Time)
    requires OneLive(table) && IsLive(table, id)
    ensures OneLive(Stamp(table, id, at)) && LiveIds(Stamp(table, id, at), table[id].value.key) == {}
    ensures forall key | key != table[id].value.key :: LiveIds(Stamp(table, id, at), key) == LiveIds(table, key)
  {
    var after := Stamp(table, id, at);
    forall i, j | IsLive(after, i) && IsLive(after, j) && after[i].value.key == after[j].value.key ensures i == j {
      assert IsLive(table, i) && IsLive(table, j);
    }
    forall i | i in LiveIds(after, table[id].value.key) ensures false {
      assert IsLive(table, i) && i != id;
    }
  }

  /** A rotation retires exactly the row it names and adds one live row for the key, or is refused; it never collides. */
  lemma RotationIsExact(table: Table, previous: Id, id: Id, value: Value, at: Time)
    requires OneLive(table) && id !in table
    ensures Rotate(table, previous, id, value, at).Ok? <==> previous in LiveIds(table, value.key)
    ensures Rotate(table, previous, id, value, at).Refused? ==>
      Rotate(table, previous, id, value, at).error ==
        if previous !in table then PreviousNotFound
        else if table[previous].revokedAt.Some? then PreviousRevoked else PreviousMismatched
    ensures Rotate(table, previous, id, value, at).Ok? ==>
      var after := Rotate(table, previous, id, value, at).value;
      && OneLive(after) && LiveIds(table, value.key) == {previous} && LiveIds(after, value.key) == {id}
      && (forall key | key != value.key :: LiveIds(after, key) == LiveIds(table, key))
      && after.Keys == table.Keys + {id} && after[id] == Row(value, None, at)
      && after[previous] == table[previous].(revokedAt := Some(at), updatedAt := at)
      && forall other | other in table && other != previous :: after[other] == table[other]
  {
    if previous in LiveIds(table, value.key) {
      assert IsLive(table, previous);
      StampKeepsOneLive(table, previous, at);
      InsertKeepsOneLive(Stamp(table, previous, at), id, value, at);
      forall i | i in LiveIds(table, value.key) ensures i == previous {
        assert IsLive(table, i);
      }
    }
  }

  /** A new row is added exactly when its key has no live one; it is live, as given, and no other row is touched. */
  lemma CreationIsExact(table: Table, id: Id, value: Value, at: Time)
    requires OneLive(table) && id !in table
    ensures Insert(table, id, value, at) == Refused(UniqueViolation) || Insert(table, id, value, at).Ok?
    ensures Insert(table, id, value, at).Ok? <==> forall i | i in table && table[i].value.key == value.key :: table[i].revokedAt.Some?
    ensures Insert(table, id, value, at).Ok? ==>
      var after := Insert(table, id, value, at).value;
      && OneLive(after) && LiveIds(after, value.key) == {id} && Use(after, id) == Ok(value.envelope)
      && after.Keys == table.Keys + {id} && after[id].value == value && after[id].revokedAt == None && after[id].updatedAt == at
      && forall other | other in table :: after[other] == table[other]
  {
    if i :| i in LiveIds(table, value.key) {
      assert table[i].revokedAt.None?;
    } else {
      forall i | i in table && table[i].value.key == value.key ensures table[i].revokedAt.Some? {
        assert i !in LiveIds(table, value.key);
      }
      InsertKeepsOneLive(table, id, value, at);
    }
  }

  /** A secret is replaced exactly in a live row, which hands out the new one from then on; nothing else of any row changes. */
  lemma UpdateIsExact(table: Table, id: Id, envelope: string, at: Time)
    requires OneLive(table)
    ensures UpdateSecret(table, id, envelope, at).Ok? <==> id in table && table[id].revokedAt.None?
    ensures UpdateSecret(table, id, envelope, at).Ok? ==>
      var after := UpdateSecret(table, id, envelope, at).value;
      && OneLive(after) && after.Keys == table.Keys && Use(after, id) == Ok(envelope)
      && after[id].value.key == table[id].value.key && after[id].value.metadata == table[id].value.metadata
      && after[id].revokedAt == None && after[id].updatedAt == at
      && forall other | other in table && other != id :: after[other] == table[other]
  {
    StepKeeps(table, Updating(id, envelope, at));
  }

  /** A revocation stamps exactly a live row, which leaves its key without one; nothing else of any row changes. */
  lemma RevocationIsExact(table: Table, id: Id, at: Time)
    requires OneLive(table)
    ensures Revoke(table, id, at).Ok? <==> id in table && table[id].revokedAt.None?
    ensures Revoke(table, id, at).Ok? ==>
      var after := Revoke(table, id, at).value;
      && OneLive(after) && after.Keys == table.Keys && LiveIds(after, table[id].value.key) == {}
      && after[id].value == table[id].value && after[id].revokedAt == Some(at) && after[id].updatedAt == at
      && forall other | other in table && other != id :: after[other] == table[other]
  {
    if IsLive(table, id) { StampKeepsOneLive(table, id, at); }
  }

  /** What no operation undoes: rows stay, under their key; a revoked one stays exactly as it was. */
  ghost predicate Kept(before: Table, after: Table) {
    forall id | id in before ::
      && id in after && after[id].value.key == before[id].value.key
      && (before[id].revokedAt.Some? ==> after[id] == before[id])
  }

  lemma StepKeeps(table: Table, op: Op)
    requires OneLive(table) && Drawn(table, op)
    ensures OneLive(Step(table, op)) && Kept(table, Step(table, op))
  {
    match op
    case Creating(id, value, at) =>
      if Insert(table, id, value, at).Ok? { InsertKeepsOneLive(table, id, value, at); }
    case Updating(id, envelope, at) =>
      var after := Step(table, op);
      forall i, j | IsLive(after, i) && IsLive(after, j) && after[i].value.key == after[j].value.key ensures i == j {
        assert IsLive(table, i) && IsLive(table, j);
      }
    case Rotating(previous, id, value, at) => RotationIsExact(table, previous, id, value, at);
    case Revoking(id, at) =>
      if IsLive(table, id) { StampKeepsOneLive(table, id, at); }
  }

  /** Over every run: one live row for a key at most, no row lost or moved to another key, no revoked row changed. */
  lemma {:induction false} RunKeeps(table: Table, ops: seq<Op>)
    requires OneLive(table) && IsRun(table, ops)
    ensures OneLive(After(table, ops)) && Kept(table, After(table, ops))
    decreases |ops|
  {
    if ops != [] {
      var before := After(table, ops[..|ops| - 1]);
      RunKeeps(table, ops[..|ops| - 1]);
      StepKeeps(before, ops[|ops| - 1]);
      forall id | id in table
        ensures id in After(table, ops) && After(table, ops)[id].value.key == table[id].value.key
        ensures table[id].revokedAt.Some? ==> After(table, ops)[id] == table[id]
      {
        assert id in before;
      }
    }
  }

  /** Once revoked, a secret is never handed out again, whatever is done to the vault. */
  lemma RevokedIsNeverUsed(table: Table, ops: seq<Op>, id: Id)
    requires OneLive(table) && IsRun(table, ops) && id in table && table[id].revokedAt.Some?
    ensures Use(After(table, ops), id) == Refused(IsRevoked)
  {
    RunKeeps(table, ops);
  }

  /** A secret whose revocation succeeded is refused for use from then on, whatever was done before and is done after. */
  lemma RevokingEndsUse(table: Table, ops: seq<Op>, id: Id, at: Time, later: seq<Op>)
    requires OneLive(table) && IsRun(table, ops) && Revoke(After(table, ops), id, at).Ok?
    requires IsRun(Revoke(After(table, ops), id, at).value, later)
    ensures Use(After(Revoke(After(table, ops), id, at).value, later), id) == Refused(IsRevoked)
  {
    RunKeeps(table, ops);
    RevocationIsExact(After(table, ops), id, at);
    RevokedIsNeverUsed(Revoke(After(table, ops), id, at).value, later, id);
  }

  // ----- storing a secret for a key, with others at work between the look and the write -----

  datatype Recorded =
    | Created(id: Id, key: Key)
    | Rotated(id: Id, previous: Id, key: Key)
    | RotationRefused(previous: Id, key: Key, why: Problem)
    | Revoked(id: Id)

  predicate Found(table: Table, key: Key, existing: Option<Id>) {
    if existing.Some? then existing.value in LiveIds(table, key) else LiveIds(table, key) == {}
  }

  /** The write `createCredential` makes of what it saw. */
  function Stored(table: Table, existing: Option<Id>, id: Id, value: Value, at: Time): Result<Table, Problem> {
    if existing.Some? then Rotate(table, existing.value, id, value, at) else Insert(table, id, value, at)
  }

  /** What the trail gets: a refused rotation leaves a row, a refused insertion none. */
  function Audited(existing: Option<Id>, id: Id, key: Key, outcome: Result<Table, Problem>): seq<Recorded> {
    match existing
    case Some(previous) => [if outcome.Ok? then Rotated(id, previous, key) else RotationRefused(previous, key, outcome.error)]
    case None => if outcome.Ok? then [Created(id, key)] else []
  }

  /** Whatever is done between the look and the write, it succeeds exactly when the live row is still the one seen. */
  lemma StoredUnlessOvertaken(table: Table, ops: seq<Op>, existing: Option<Id>, id: Id, value: Value, at: Time)
    requires OneLive(table) && IsRun(table, ops) && Found(table, value.key, existing) && id !in After(table, ops)
    ensures var now := After(table, ops);
      var outcome := Stored(now, existing, id, value, at);
      && (outcome.Ok? <==> LiveIds(now, value.key) == LiveIds(table, value.key))
      && (outcome.Ok? ==>
            OneLive(outcome.value) && LiveIds(outcome.value, value.key) == {id} && Use(outcome.value, id) == Ok(value.envelope))
  {
    var now := After(table, ops);
    RunKeeps(table, ops);
    LiveIsOne(table, value.key);
    LiveIsOne(now, value.key);
    if existing.Some? {
      RotationIsExact(now, existing.value, id, value, at);
    } else if Insert(now, id, value, at).Ok? {
      InsertKeepsOneLive(now, id, value, at);
    }
  }

  lemma LiveIsOne(table: Table, key: Key)
    requires OneLive(table)
    ensures forall id | id in LiveIds(table, key) :: LiveIds(table, key) == {id}
  {
    forall id | id in LiveIds(table, key) ensures LiveIds(table, key) == {id} {
      forall other | other in LiveIds(table, key) ensures other == id {
        assert IsLive(table, id) && IsLive(table, other);
      }
    }
  }

  /** With nobody else at work it always succeeds, and says which of the two it did. */
  lemma StoredAlone(table: Table, existing: Option<Id>, id: Id, value: Value, at: Time)
    requires OneLive(table) && Found(table, value.key, existing) && id !in table
    ensures var outcome := Stored(table, existing, id, value, at);
      && outcome.Ok? && LiveIds(outcome.value, value.key) == {id}
      && (if LiveIds(table, value.key) == {} then Audited(existing, id, value.key, outcome) == [Created(id, value.key)]
          else exists previous ::
            (LiveIds(table, value.key) == {previous} && Audited(existing, id, value.key, outcome) == [Rotated(id, previous, value.key)]
            && previous in outcome.value && outcome.value[previous].revokedAt == Some(at)))
  {
    StoredUnlessOvertaken(table, [], existing, id, value, at);
    if existing.Some? {
      LiveIsOne(table, value.key);
      RotationIsExact(table, existing.value, id, value, at);
    }
  }

  // ----- the store -----

  class Vault {
    var table: Table

    constructor ()
      ensures table == map[] && OneLive(table)
    {
      table := map[];
    }

    method Create(id: Id, value: Value, at: Time) returns (problem: Option<Problem>)
      requires OneLive(table) && id !in table
      modifies this
      ensures table == Step(old(table), Creating(id, value, at)) && OneLive(table)
      ensures problem == if LiveIds(old(table), value.key) != {} then Some(UniqueViolation) else None
      ensures problem.None? ==> id in table && table[id].revokedAt.None? && table[id].value == value
    {
      StepKeeps(table, Creating(id, value, at));
      match Insert(table, id, value, at)
      case Ok(after) => table := after; problem := None;
      case Refused(error) => problem := Some(error);
    }

    method UpdateSecret(id: Id, envelope: string, at: Time) returns (problem: Option<Problem>)
      requires OneLive(table)
      modifies this
      ensures table == Step(old(table), Updating(id, envelope, at)) && OneLive(table)
      ensures problem == if IsLive(old(table), id) then None else Some(NotFoundOrRevoked)
      ensures problem.None? ==> Use(table, id) == Ok(envelope)
    {
      UpdateIsExact(table, id, envelope, at);
      StepKeeps(table, Updating(id, envelope, at));
      if id in table && table[id].revokedAt.None? {
        table := table[id := table[id].(value := table[id].value.(envelope := envelope), updatedAt := at)];
        problem := None;
      } else {
        problem := Some(NotFoundOrRevoked);
      }
    }

    /** Works on a copy, as a transaction does: what is refused part-way is not committed. */
    method Rotate(previous: Id, id: Id, value: Value, at: Time) returns (problem: Option<Problem>)
      requires OneLive(table) && id !in table
      modifies this
      ensures table == Step(old(table), Rotating(previous, id, value, at)) && OneLive(table)
      ensures problem == if previous in LiveIds(old(table), value.key) then None
                         else Some(Tried(old(table), Rotating(previous, id, value, at)).error)
    {
      RotationIsExact(table, previous, id, value, at);
      if previous !in table { return Some(PreviousNotFound); }
      if table[previous].revokedAt.Some? { return Some(PreviousRevoked); }
      if table[previous].value.key != value.key { return Some(PreviousMismatched); }
      var transaction := table[previous := table[previous].(revokedAt := Some(at), updatedAt := at)];
      match Insert(transaction, id, value, at)
      case Refused(error) => problem := Some(error);
      case Ok(after) => table := after; problem := None;
    }

    method Revoke(id: Id, at: Time) returns (problem: Option<Problem>)
      requires OneLive(table)
      modifies this
      ensures table == Step(old(table), Revoking(id, at)) && OneLive(table)
      ensures problem == if IsLive(old(table), id) then None else Some(NotFoundOrAlreadyRevoked)
      ensures problem.None? ==> table[id].revokedAt == Some(at) && Use(table, id) == Refused(IsRevoked)
    {
      RevocationIsExact(table, id, at);
      StepKeeps(table, Revoking(id, at));
      if id in table && table[id].revokedAt.None? {
        table := table[id := table[id].(revokedAt := Some(at), updatedAt := at)];
        problem := None;
      } else {
        problem := Some(NotFoundOrAlreadyRevoked);
      }
    }

    method FindLiveByKey(key: Key) returns (existing: Option<Id>)
      requires OneLive(table)
      ensures Found(table, key, existing)
      ensures existing.Some? ==> LiveIds(table, key) == {existing.value}
    {
      LiveIsOne(table, key);
      var ids := LiveIds(table, key);
      if ids == {} { return None; }
      var id :| id in ids;
      existing := Some(id);
    }
  }

  /** The service over the vault, with the trail it writes. */
  class Service {
    const vault: Vault
    var trail: seq<Recorded>

    constructor (vault: Vault)
      ensures this.vault == vault && trail == []
    {
      this.vault := vault;
      trail := [];
    }

    method RotateCredential(previous: Id, id: Id, value: Value, at: Time) returns (problem: Option<Problem>)
      requires OneLive(vault.table) && id !in vault.table
      modifies this, vault
      ensures vault.table == Step(old(vault.table), Rotating(previous, id, value, at)) && OneLive(vault.table)
      ensures trail == old(trail) + Audited(Some(previous), id, value.key, Rotate(old(vault.table), previous, id, value, at))
      ensures problem.None? <==> previous in LiveIds(old(vault.table), value.key)
      ensures trail == old(trail) +
        [if problem.None? then Rotated(id, previous, value.key) else RotationRefused(previous, value.key, problem.value)]
    {
      RotationIsExact(vault.table, previous, id, value, at);
      problem := vault.Rotate(previous, id, value, at);
      if problem.Some? {
        trail := trail + [RotationRefused(previous, value.key, problem.value)];
      } else {
        trail := trail + [Rotated(id, previous, value.key)];
      }
    }

    /** What follows the look: the write, and its row on the trail. */
    method StoreCredential(existing: Option<Id>, id: Id, value: Value, at: Time) returns (problem: Option<Problem>)
      requires OneLive(vault.table) && id !in vault.table
      modifies this, vault
      ensures var outcome := Stored(old(vault.table), existing, id, value, at);
        && vault.table == (if outcome.Ok? then outcome.value else old(vault.table)) && OneLive(vault.table)
        && trail == old(trail) + Audited(existing, id, value.key, outcome) && (problem.None? <==> outcome.Ok?)
    {
      if existing.Some? {
        RotationIsExact(vault.table, existing.value, id, value, at);
        problem := RotateCredential(existing.value, id, value, at);
      } else {
        problem := vault.Create(id, value, at);
        if problem.None? { trail := trail + [Created(id, value.key)]; }
      }
    }

    /** Run with nobody else at work: the key has the new row live, and the trail says how it came to. */
    method CreateCredential(id: Id, value: Value, at: Time) returns (problem: Option<Problem>)
      requires OneLive(vault.table) && id !in vault.table
      modifies this, vault
      ensures problem.None? && OneLive(vault.table) && LiveIds(vault.table, value.key) == {id}
      ensures if LiveIds(old(vault.table), value.key) == {} then trail == old(trail) + [Created(id, value.key)]
              else exists previous ::
                (LiveIds(old(vault.table), value.key) == {previous} && trail == old(trail) + [Rotated(id, previous, value.key)])
    {
      var existing := vault.FindLiveByKey(value.key);
      StoredAlone(vault.table, existing, id, value, at);
      problem := StoreCredential(existing, id, value, at);
    }

    method RevokeCredential(id: Id, at: Time) returns (problem: Option<Problem>)
      requires OneLive(vault.table)
      modifies this, vault
      ensures vault.table == Step(old(vault.table), Revoking(id, at)) && OneLive(vault.table)
      ensures trail == if IsLive(old(vault.table), id) then old(trail) + [Revoked(id)] else old(trail)
      ensures problem == if IsLive(old(vault.table), id) then None else Some(NotFoundOrAlreadyRevoked)
      ensures problem.None? ==> Use(vault.table, id) == Refused(IsRevoked)
    {
      problem := vault.Revoke(id, at);
      if problem.None? { trail := trail + [Revoked(id)]; }
    }
  }
}
