/** The ambient transaction of the tracking service (`PrismaTransactionHost`), next to the plain one
    of the notification service. A program is the tree of database operations and transaction
    bodies that some service method goes through. */
module TransactionHost {
  import opened Base

  type Db = map<nat, int>

  datatype Write = Write(key: nat, value: int)

  datatype Op =
    | Put(write: Write)                    // one write through getClient()
    | Throw                                // the body throws
    | WithTransaction(body: seq<Op>)       // txHost.withTransaction: joins the active transaction
    | NewTransaction(body: seq<Op>)        // prisma.$transaction with runWithClient: always opens one
    | Catching(body: seq<Op>)              // try { body } catch {}

  /** The committed rows, the writes of the active transaction if there is one, and whether the
      program got through without throwing. */
  datatype Outcome = Outcome(db: Db, active: Option<seq<Write>>, ok: bool)

  function Apply(db: Db, writes: seq<Write>): Db {
    if writes == [] then db
    else Apply(db, writes[..|writes| - 1])[writes[|writes| - 1].key := writes[|writes| - 1].value]
  }

  lemma {:induction false} ApplyOne(db: Db, write: Write)
    ensures Apply(db, [write]) == db[write.key := write.value]
  {
    assert [write][..0] == [];
    assert Apply(db, []) == db;
  }

  /** No later write has the same key. */
  predicate LastOfKey(writes: seq<Write>, i: nat)
    requires i < |writes|
  {
    forall j :: i < j < |writes| ==> writes[j].key != writes[i].key
  }

  predicate IsWritten(writes: seq<Write>, k: nat) {
    exists i :: 0 <= i < |writes| && writes[i].key == k
  }

  /** What a commit of `writes` makes of the row of `k`: if it is written it is there with its last value, and otherwise
      it is what it was. */
  predicate RowCommitted(db: Db, writes: seq<Write>, after: Db, k: nat) {
    if IsWritten(writes, k) then
      && k in after
      && forall i :: 0 <= i < |writes| && writes[i].key == k && LastOfKey(writes, i) ==> after[k] == writes[i].value
    else (k in after <==> k in db) && (k in db ==> after[k] == db[k])
  }

  ghost predicate CommitOf(db: Db, writes: seq<Write>, after: Db) {
    forall k: nat :: RowCommitted(db, writes, after, k)
  }

  /** Applying the writes one by one is such a commit. */
  lemma {:induction false} ApplyCommits(db: Db, writes: seq<Write>)
    ensures CommitOf(db, writes, Apply(db, writes))
  {
    hide RowCommitted, Apply;
    forall k: nat ensures RowCommitted(db, writes, Apply(db, writes), k) {
      RowApplied(db, writes, k);
    }
  }

  lemma {:induction false} RowApplied(db: Db, writes: seq<Write>, k: nat)
    ensures RowCommitted(db, writes, Apply(db, writes), k)
  {
    if writes != [] {
      var n := |writes| - 1;
      RowApplied(db, writes[..n], k);
      WrittenFront(writes, k);
      if writes[n].key != k {
        forall i | 0 <= i < n && writes[i].key == k && LastOfKey(writes, i)
          ensures LastOfKey(writes[..n], i) && Apply(db, writes)[k] == writes[i].value
        {
          assert forall j :: i < j < n ==> writes[..n][j] == writes[j];
          assert writes[..n][i] == writes[i];
        }
      }
    }
  }

  lemma {:induction false} WrittenFront(writes: seq<Write>, k: nat)
    requires writes != []
    ensures IsWritten(writes, k) <==> IsWritten(writes[..|writes| - 1], k) || k == writes[|writes| - 1].key
  {
    var front := writes[..|writes| - 1];
    if IsWritten(front, k) {
      var i :| 0 <= i < |front| && front[i].key == k;
      assert writes[i].key == k;
    }
  }

  /** And there is only one. */
  lemma {:induction false} CommitIsUnique(db: Db, writes: seq<Write>, after: Db, other: Db)
    requires CommitOf(db, writes, after) && CommitOf(db, writes, other)
    ensures after == other
  {
    forall k: nat ensures (k in after <==> k in other) && (k in after ==> after[k] == other[k]) {
      assert RowCommitted(db, writes, after, k) && RowCommitted(db, writes, other, k);
      if IsWritten(writes, k) {
        var i := LastWrite(writes, k);
      }
    }
  }

  lemma {:induction false} LastWrite(writes: seq<Write>, k: nat) returns (i: nat)
    requires IsWritten(writes, k)
    ensures i < |writes| && writes[i].key == k && LastOfKey(writes, i)
  {
    i := |writes| - 1;
    if writes[i].key != k {
      WrittenFront(writes, k);
      i := LastWrite(writes[..i], k);
      assert forall j :: i < j < |writes| - 1 ==> writes[..|writes| - 1][j] == writes[j];
    }
  }

  function Exec(ops: seq<Op>, db: Db, active: Option<seq<Write>>): (o: Outcome)
    ensures o.active.Some? == active.Some?
    decreases ops, 0
  {
    if ops == [] then Outcome(db, active, true)
    else
      var o := ExecOp(ops[0], db, active);
      if o.ok then Exec(ops[1..], o.db, o.active) else o
  }

  function ExecOp(op: Op, db: Db, active: Option<seq<Write>>): (o: Outcome)
    ensures o.active.Some? == active.Some?
    decreases op, 1
  {
    match op
    case Put(write) =>
      if active.Some? then Outcome(db, Some(active.value + [write]), true)
      else Outcome(Apply(db, [write]), None, true)
    case Throw => Outcome(db, active, false)
    case WithTransaction(body) => if active.Some? then Exec(body, db, active)
      else Opened(Exec(body, db, Some([])), active)
    case NewTransaction(body) => Opened(Exec(body, db, Some([])), active)
    case Catching(body) => Exec(body, db, active).(ok := true)
  }

  /** The end of a transaction that was opened: commit its writes, or drop them. */
  function Opened(inner: Outcome, outer: Option<seq<Write>>): Outcome
    requires inner.active.Some?
  {
    Outcome(if inner.ok then Apply(inner.db, inner.active.value) else inner.db, outer, inner.ok)
  }

  // ---------------------------------------------------------------- nesting flattens

  /** The program with the brackets of every nested `withTransaction` removed. */
  function Flatten(ops: seq<Op>): seq<Op>
    decreases ops, 0
  {
    if ops == [] then [] else FlattenOp(ops[0]) + Flatten(ops[1..])
  }

  function FlattenOp(op: Op): seq<Op>
    decreases op, 1
  {
    match op
    case WithTransaction(body) => Flatten(body)
    case NewTransaction(body) => [NewTransaction(Flatten(body))]
    case Catching(body) => [Catching(Flatten(body))]
    case _ => [op]
  }

  lemma {:induction false} ExecConcat(first: seq<Op>, rest: seq<Op>, db: Db, active: Option<seq<Write>>)
    ensures var o := Exec(first, db, active);
      Exec(first + rest, db, active) == if o.ok then Exec(rest, o.db, o.active) else o
    decreases |first|
  {
    if first == [] {
      assert first + rest == rest;
    } else {
      assert (first + rest)[1..] == first[1..] + rest;
      var o := ExecOp(first[0], db, active);
      if o.ok {
        ExecConcat(first[1..], rest, o.db, o.active);
      }
    }
  }

  lemma {:induction false} ExecSingle(op: Op, db: Db, active: Option<seq<Write>>)
    ensures Exec([op], db, active) == ExecOp(op, db, active)
  {
    assert [op][1..] == [];
  }

  /** Inside a transaction, nested `withTransaction` calls change nothing at all: the program behaves
      as if they were not there. */
  lemma {:induction false} NestingFlattens(ops: seq<Op>, db: Db, writes: seq<Write>)
    ensures Exec(ops, db, Some(writes)) == Exec(Flatten(ops), db, Some(writes))
    decreases ops, 0
  {
    if ops != [] {
      NestingFlattensOp(ops[0], db, writes);
      ExecConcat(FlattenOp(ops[0]), Flatten(ops[1..]), db, Some(writes));
      var o := ExecOp(ops[0], db, Some(writes));
      if o.ok {
        NestingFlattens(ops[1..], o.db, o.active.value);
      }
    }
  }

  lemma {:induction false} NestingFlattensOp(op: Op, db: Db, writes: seq<Write>)
    ensures ExecOp(op, db, Some(writes)) == Exec(FlattenOp(op), db, Some(writes))
    decreases op, 1
  {
    match op
    case WithTransaction(body) => NestingFlattens(body, db, writes);
    case NewTransaction(body) =>
      NestingFlattens(body, db, []);
      ExecSingle(NewTransaction(Flatten(body)), db, Some(writes));
    case Catching(body) =>
      NestingFlattens(body, db, writes);
      ExecSingle(Catching(Flatten(body)), db, Some(writes));
    case _ => ExecSingle(op, db, Some(writes));
  }

  // ---------------------------------------------------------------- all or nothing

  /** No transaction is opened independently of the active one. */
  predicate OnlyJoins(ops: seq<Op>)
    decreases ops, 0
  {
    ops == [] || (OnlyJoinsOp(ops[0]) && OnlyJoins(ops[1..]))
  }

  predicate OnlyJoinsOp(op: Op)
    decreases op, 1
  {
    match op
    case WithTransaction(body) => OnlyJoins(body)
    case NewTransaction(_) => false
    case Catching(body) => OnlyJoins(body)
    case _ => true
  }

  /** Nothing of a joined body is committed before the outermost transaction ends. */
  lemma {:induction false} JoinedBodyCommitsNothing(ops: seq<Op>, db: Db, writes: seq<Write>)
    requires OnlyJoins(ops)
    ensures Exec(ops, db, Some(writes)).db == db
    decreases ops, 0
  {
    if ops != [] {
      JoinedOpCommitsNothing(ops[0], db, writes);
      var o := ExecOp(ops[0], db, Some(writes));
      if o.ok {
        JoinedBodyCommitsNothing(ops[1..], db, o.active.value);
      }
    }
  }

  lemma {:induction false} JoinedOpCommitsNothing(op: Op, db: Db, writes: seq<Write>)
    requires OnlyJoinsOp(op)
    ensures ExecOp(op, db, Some(writes)).db == db
    decreases op, 1
  {
    match op
    case WithTransaction(body) => JoinedBodyCommitsNothing(body, db, writes);
    case Catching(body) => JoinedBodyCommitsNothing(body, db, writes);
    case _ =>
  }

  // ---------------------------------------------------------------- what a failed body leaves

  /** The writes that a program makes in the active transaction before it ends, by itself or by throwing, and
      whether it gets through. A transaction of its own contributes none. */
  function Made(ops: seq<Op>): (seq<Write>, bool)
    decreases ops, 0
  {
    if ops == [] then ([], true)
    else
      var (first, ok) := MadeBy(ops[0]);
      if ok then (first + Made(ops[1..]).0, Made(ops[1..]).1) else (first, false)
  }

  function MadeBy(op: Op): (seq<Write>, bool)
    decreases op, 1
  {
    match op
    case Put(write) => ([write], true)
    case Throw => ([], false)
    case WithTransaction(body) => Made(body)
    case NewTransaction(body) => ([], Made(body).1)
    case Catching(body) => (Made(body).0, true)
  }

  lemma {:induction false} ExecMakes(ops: seq<Op>, db: Db, writes: seq<Write>)
    ensures var o := Exec(ops, db, Some(writes)); o.active == Some(writes + Made(ops).0) && o.ok == Made(ops).1
    decreases ops, 0
  {
    if ops == [] {
      assert writes + [] == writes;
    } else {
      ExecMakesBy(ops[0], db, writes);
      var o := ExecOp(ops[0], db, Some(writes));
      if o.ok {
        ExecMakes(ops[1..], o.db, o.active.value);
        assert writes + MadeBy(ops[0]).0 + Made(ops[1..]).0 == writes + (MadeBy(ops[0]).0 + Made(ops[1..]).0);
      }
    }
  }

  lemma {:induction false} ExecMakesBy(op: Op, db: Db, writes: seq<Write>)
    ensures var o := ExecOp(op, db, Some(writes)); o.active == Some(writes + MadeBy(op).0) && o.ok == MadeBy(op).1
    decreases op, 1
  {
    assert writes + [] == writes;
    match op
    case WithTransaction(body) => ExecMakes(body, db, writes);
    case NewTransaction(body) => ExecMakes(body, db, []);
    case Catching(body) => ExecMakes(body, db, writes);
    case _ =>
  }

  /** `markProcessed` around a handler that may nest `withTransaction` to any depth. If the handler gets through, the
      processed key's row is there, every row that was written has the last value written to it, and all
      other rows are what they were; otherwise nothing has changed. */
  lemma {:induction false} KeyAndHandlerStandOrFall(key: Write, handler: seq<Op>, db: Db)
    requires OnlyJoins(handler)
    ensures var o := ExecOp(NewTransaction([Put(key)] + handler), db, None);
      var (writes, through) := Made(handler);
      && o.ok == through && o.active == None
      && if through then CommitOf(db, [key] + writes, o.db) && key.key in o.db else o.db == db
  {
    var ops := [Put(key)] + handler;
    assert ops[1..] == handler;
    assert ExecOp(Put(key), db, Some([])) == Outcome(db, Some([] + [key]), true);
    assert [] + [key] == [key];
    ExecMakes(handler, db, [key]);
    JoinedBodyCommitsNothing(handler, db, [key]);
    ApplyCommits(db, [key] + Made(handler).0);
    assert ([key] + Made(handler).0)[0] == key;
    assert RowCommitted(db, [key] + Made(handler).0, Apply(db, [key] + Made(handler).0), key.key);
  }

  /** A `withTransaction` that finds no active transaction is one: all of its body is committed, or nothing. */
  lemma {:induction false} OutermostStandsOrFalls(body: seq<Op>, db: Db)
    requires OnlyJoins(body)
    ensures var o := ExecOp(WithTransaction(body), db, None); var (writes, through) := Made(body);
      o.ok == through && o.active == None && if through then CommitOf(db, writes, o.db) else o.db == db
  {
    ExecMakes(body, db, []);
    JoinedBodyCommitsNothing(body, db, []);
    ApplyCommits(db, Made(body).0);
    assert [] + Made(body).0 == Made(body).0;
  }

  /** Joining is not a savepoint: when the failure of a joined body is caught, the outer transaction keeps
      exactly the writes made before the failure, so it is unaffected if and only if there were
      none. `Throw` stands for an error that is not the database's: after a failed statement
      PostgreSQL aborts the whole transaction. */
  lemma {:induction false} CaughtFailureKeepsWrites(body: seq<Op>, db: Db, writes: seq<Write>)
    ensures var o := ExecOp(Catching([WithTransaction(body)]), db, Some(writes));
      && o.ok && o.active == Some(writes + Made(body).0)
      && (o.active == Some(writes) <==> Made(body).0 == [])
  {
    ExecSingle(WithTransaction(body), db, Some(writes));
    ExecMakes(body, db, writes);
    assert |writes + Made(body).0| == |writes| + |Made(body).0|;
    if Made(body).0 == [] {
      assert writes + Made(body).0 == writes;
    }
  }

  /** And the outermost transaction commits them. */
  lemma {:induction false} CaughtFailureIsCommitted(body: seq<Op>, db: Db)
    requires OnlyJoins(body)
    ensures var o := ExecOp(WithTransaction([Catching([WithTransaction(body)])]), db, None);
      o.ok && o.active == None && CommitOf(db, Made(body).0, o.db)
  {
    ApplyCommits(db, Made(body).0);
    var caught := Catching([WithTransaction(body)]);
    CaughtFailureKeepsWrites(body, db, []);
    ExecSingle(caught, db, Some([]));
    assert OnlyJoinsOp(WithTransaction(body)) && OnlyJoins([]);
    assert [WithTransaction(body)][1..] == [];
    JoinedOpCommitsNothing(caught, db, []);
    assert [] + Made(body).0 == Made(body).0;
  }

  /** The notification service's `withTransaction` always opens a transaction of its own. Nested in one that
      rolls back, a body survives with all its writes if it gets through, and with none otherwise;
      a joined body never survives. */
  lemma {:induction false} UnjoinedBodySurvives(body: seq<Op>, db: Db)
    requires OnlyJoins(body)
    ensures var o := ExecOp(NewTransaction([NewTransaction(body), Throw]), db, None);
      !o.ok && o.active == None && if Made(body).1 then CommitOf(db, Made(body).0, o.db) else o.db == db
    ensures ExecOp(NewTransaction([WithTransaction(body), Throw]), db, None) == Outcome(db, None, false)
  {
    ApplyCommits(db, Made(body).0);
    RollsBack(NewTransaction(body), db);
    RollsBack(WithTransaction(body), db);
    ExecMakes(body, db, []);
    JoinedBodyCommitsNothing(body, db, []);
    assert [] + Made(body).0 == Made(body).0;
  }

  lemma {:induction false} RollsBack(op: Op, db: Db)
    ensures ExecOp(NewTransaction([op, Throw]), db, None) == Outcome(ExecOp(op, db, Some([])).db, None, false)
  {
    var o := ExecOp(op, db, Some([]));
    assert [op, Throw][1..] == [Throw];
    ExecSingle(Throw, o.db, o.active);
  }

  // ---------------------------------------------------------------- the class

  class Database {
    var rows: Db

    constructor ()
      ensures rows == map[]
    {
      rows := map[];
    }
  }

  /** `storage` is the AsyncLocalStorage: the active transaction, for the duration of an operation. */
  class PrismaTransactionHost {
    var storage: Option<seq<Write>>
    const prisma: Database

    constructor (prisma: Database)
      ensures this.prisma == prisma && storage == None
    {
      this.prisma := prisma;
      storage := None;
    }

    /** A write through `getClient()`: to the active transaction, or straight to the database. */
    method Put(write: Write)
      modifies this, prisma
      ensures Outcome(prisma.rows, storage, true) == ExecOp(Op.Put(write), old(prisma.rows), old(storage))
      ensures if old(storage).Some?
        then prisma.rows == old(prisma.rows) && storage == Some(old(storage).value + [write])
        else prisma.rows == old(prisma.rows)[write.key := write.value] && storage == None
    {
      if storage.Some? {
        storage := Some(storage.value + [write]);
      } else {
        ApplyOne(prisma.rows, write);
        prisma.rows := prisma.rows[write.key := write.value];
      }
    }

    /** `prisma.$transaction` around `runWithClient`: the previous store is restored afterwards. */
    method RunInNewTransaction(body: seq<Op>) returns (ok: bool)
      modifies this, prisma
      ensures Outcome(prisma.rows, storage, ok) == Opened(Exec(body, old(prisma.rows), Some([])), old(storage))
      ensures var inner := Exec(body, old(prisma.rows), Some([]));
        if ok then CommitOf(inner.db, inner.active.value, prisma.rows) else prisma.rows == inner.db
      decreases body, 1
    {
      var outer := storage;
      storage := Some([]);
      ok := Operation(body);
      if ok {
        ApplyCommits(prisma.rows, storage.value);
        prisma.rows := Apply(prisma.rows, storage.value);
      }
      storage := outer;
    }

    method WithTransaction(body: seq<Op>) returns (ok: bool)
      modifies this, prisma
      ensures Outcome(prisma.rows, storage, ok) == ExecOp(Op.WithTransaction(body), old(prisma.rows), old(storage))
      decreases body, 2
    {
      if storage.Some? {
        ok := Operation(body);
      } else {
        ok := RunInNewTransaction(body);
      }
    }

    /** Runs a program against the host. */
    method Operation(ops: seq<Op>) returns (ok: bool)
      modifies this, prisma
      ensures Outcome(prisma.rows, storage, ok) == Exec(ops, old(prisma.rows), old(storage))
      decreases ops, 0
    {
      if ops == [] {
        return true;
      }
      match ops[0] {
        case Put(write) =>
          Put(write);
          ok := true;
        case Throw =>
          ok := false;
        case WithTransaction(body) =>
          ok := WithTransaction(body);
        case NewTransaction(body) =>
          ok := RunInNewTransaction(body);
        case Catching(body) =>
          var _ := Operation(body);
          ok := true;
      }
      if ok {
        ok := Operation(ops[1..]);
      }
    }
  }
}
