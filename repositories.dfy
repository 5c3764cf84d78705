/**
 * The batch upsert layer: `MODEL_MAP`, `upsert_one` and `upsert_many` over a
 * database session. `session.merge` of a freshly built model instance
 * overwrites the row with the same primary key, or adds it when the key is
 * new; the session keeps those pending changes apart from what was
 * committed, and a commit, a rollback or a close settles them.
 */
module Repositories {
  import opened Values
  import opened Schema

  /** One table: rows by primary-key tuple. */
  type Table = map<seq<Value>, Row>

  /** The database: a table per model (a model with no entry has an empty table). */
  type Tables = map<Model, Table>

  /** `MODEL_MAP[name]`: None stands for the KeyError of an unknown name. */
  function ModelFor(name: string): (m: Option<Model>)
    ensures m.Some? ==> name == ModelName(m.value)
  {
    match name
    case "league" => Some(League)
    case "season" => Some(Season)
    case "venue" => Some(Venue)
    case "team" => Some(Team)
    case "player" => Some(Player)
    case "player_statistics" => Some(PlayerStatistics)
    case _ => None
  }

  /** The key `MODEL_MAP` files each model under. */
  function ModelName(m: Model): string {
    match m
    case League => "league"
    case Season => "season"
    case Venue => "venue"
    case Team => "team"
    case Player => "player"
    case PlayerStatistics => "player_statistics"
  }

  /** Every model is reachable from `MODEL_MAP` by exactly one name. */
  lemma ModelMapCoversEveryModel(m: Model)
    ensures ModelFor(ModelName(m)) == Some(m)
  {
  }

  function TableOf(t: Tables, m: Model): Table {
    if m in t then t[m] else map[]
  }

  /** `session.merge(row)`: the row replaces whatever its table held under its key. */
  function Put(t: Tables, r: Row): (u: Tables)
    ensures TableOf(u, ModelOf(r)) == TableOf(t, ModelOf(r))[KeyOf(r) := r]
    ensures forall m :: m != ModelOf(r) ==> TableOf(u, m) == TableOf(t, m)
  {
    t[ModelOf(r) := TableOf(t, ModelOf(r))[KeyOf(r) := r]]
  }

  /**
   * `upsert_one(session, model_name, payload)`: an unknown name raises
   * KeyError; a row of another model has a column the named model lacks, so
   * building the instance raises TypeError; otherwise the row is merged.
   */
  function MergeRow(t: Tables, name: string, r: Row): (u: Result<Tables>)
    ensures u.Success? <==> ModelFor(name) == Some(ModelOf(r))
    ensures ModelFor(name).None? ==> u == Failure(KeyError)
    ensures ModelFor(name).Some? && ModelFor(name) != Some(ModelOf(r)) ==> u == Failure(TypeError)
    ensures u.Success? ==> u.value == Put(t, r)
  {
    match ModelFor(name)
    case None => Failure(KeyError)
    case Some(m) => if ModelOf(r) != m then Failure(TypeError) else Success(Put(t, r))
  }

  /** The tables a batch leaves behind, and what `upsert_many` returned or raised. */
  datatype BatchOutcome = BatchOutcome(tables: Tables, result: Result<nat>)

  /**
   * `upsert_many(session, model_name, rows)`: the rows are merged one at a
   * time in input order and counted; the first failing row raises, leaving
   * the rows before it merged.
   */
  function Batch(t: Tables, name: string, rows: seq<Row>): (b: BatchOutcome)
    ensures b.result.Success? ==> b.result.value == |rows|
    decreases |rows|
  {
    if rows == [] then BatchOutcome(t, Success(0))
    else
      var b := Batch(t, name, rows[..|rows| - 1]);
      if b.result.Failure? then b
      else
        match MergeRow(b.tables, name, rows[|rows| - 1])
        case Failure(f) => BatchOutcome(b.tables, Failure(f))
        case Success(u) => BatchOutcome(u, Success(|rows|))
  }

  /** The rows of a batch by key, a later row replacing an earlier one with the same key. */
  function Overlay(rows: seq<Row>): Table
    decreases |rows|
  {
    if rows == [] then map[]
    else Overlay(rows[..|rows| - 1])[KeyOf(rows[|rows| - 1]) := rows[|rows| - 1]]
  }

  /** Every row of the batch belongs to model `m`. */
  predicate AllOf(rows: seq<Row>, m: Model) {
    forall i :: 0 <= i < |rows| ==> ModelOf(rows[i]) == m
  }

  /**
   * A batch succeeds exactly when it is empty, or the name is in `MODEL_MAP`
   * and every row belongs to that model.
   */
  lemma {:induction false} BatchSucceeds(t: Tables, name: string, rows: seq<Row>)
    ensures Batch(t, name, rows).result.Success?
        <==> rows == [] || (ModelFor(name).Some? && AllOf(rows, ModelFor(name).value))
    decreases |rows|
  {
    if rows != [] {
      var pre := rows[..|rows| - 1];
      BatchSucceeds(t, name, pre);
      if ModelFor(name).Some? && AllOf(rows, ModelFor(name).value) {
        assert AllOf(pre, ModelFor(name).value);
      }
    }
  }

  /** An unknown model name raises KeyError on the first row and changes nothing. */
  lemma {:induction false} UnknownNameChangesNothing(t: Tables, name: string, rows: seq<Row>)
    requires ModelFor(name).None? && rows != []
    ensures Batch(t, name, rows) == BatchOutcome(t, Failure(KeyError))
    decreases |rows|
  {
    if |rows| > 1 {
      UnknownNameChangesNothing(t, name, rows[..|rows| - 1]);
    }
  }

  lemma OverlayMerge(a: Table, o: Table, k: seq<Value>, r: Row)
    ensures (a + o)[k := r] == a + o[k := r]
  {
  }

  /**
   * A successful non-empty batch leaves every other table as it was and
   * overlays the rows, by key, on the named model's table.
   */
  lemma {:induction false} BatchOverlays(t: Tables, name: string, rows: seq<Row>)
    requires rows != [] && Batch(t, name, rows).result.Success?
    ensures ModelFor(name).Some?
    ensures var m := ModelFor(name).value;
      Batch(t, name, rows).tables == t[m := TableOf(t, m) + Overlay(rows)]
    decreases |rows|
  {
    var pre := rows[..|rows| - 1];
    var last := rows[|rows| - 1];
    var m := ModelOf(last);
    if pre == [] {
      assert TableOf(t, m) + map[KeyOf(last) := last] == TableOf(t, m)[KeyOf(last) := last];
    } else {
      BatchOverlays(t, name, pre);
      OverlayMerge(TableOf(t, m), Overlay(pre), KeyOf(last), last);
    }
  }

  /** A successful batch leaves the tables of every other model as they were. */
  lemma BatchKeepsOtherTables(t: Tables, name: string, rows: seq<Row>, m: Model)
    requires Batch(t, name, rows).result.Success? && ModelFor(name) != Some(m)
    ensures TableOf(Batch(t, name, rows).tables, m) == TableOf(t, m)
  {
    if rows != [] {
      BatchOverlays(t, name, rows);
    }
  }

  /** The row overlaid under a key is the last row of the batch with that key. */
  lemma {:induction false} OverlayLastWins(rows: seq<Row>, i: nat)
    requires i < |rows|
    requires forall j :: i < j < |rows| ==> KeyOf(rows[j]) != KeyOf(rows[i])
    ensures KeyOf(rows[i]) in Overlay(rows) && Overlay(rows)[KeyOf(rows[i])] == rows[i]
    decreases |rows|
  {
    if i < |rows| - 1 {
      OverlayLastWins(rows[..|rows| - 1], i);
    }
  }

  /** A key no row of the batch carries is not in the overlay. */
  lemma {:induction false} OverlayKeys(rows: seq<Row>, k: seq<Value>)
    requires forall j :: 0 <= j < |rows| ==> KeyOf(rows[j]) != k
    ensures k !in Overlay(rows)
    decreases |rows|
  {
    if rows != [] {
      OverlayKeys(rows[..|rows| - 1], k);
    }
  }

  /**
   * After a successful batch the stored row under each key of the batch is
   * the last input row with that key: last write wins.
   */
  lemma LastWriteWins(t: Tables, name: string, rows: seq<Row>, i: nat)
    requires i < |rows| && Batch(t, name, rows).result.Success?
    requires forall j :: i < j < |rows| ==> KeyOf(rows[j]) != KeyOf(rows[i])
    ensures var table := TableOf(Batch(t, name, rows).tables, ModelOf(rows[i]));
      KeyOf(rows[i]) in table && table[KeyOf(rows[i])] == rows[i]
  {
    BatchOverlays(t, name, rows);
    BatchSucceeds(t, name, rows);
    OverlayLastWins(rows, i);
  }

  /** A batch leaves alone every key it does not carry, in every table. */
  lemma KeysOutsideBatchUnchanged(t: Tables, name: string, rows: seq<Row>, m: Model, k: seq<Value>)
    requires Batch(t, name, rows).result.Success?
    requires forall j :: 0 <= j < |rows| ==> KeyOf(rows[j]) != k
    ensures var table := TableOf(Batch(t, name, rows).tables, m);
      (k in table <==> k in TableOf(t, m)) && (k in table ==> table[k] == TableOf(t, m)[k])
  {
    if rows != [] {
      BatchOverlays(t, name, rows);
      OverlayKeys(rows, k);
    }
  }

  /** Applying the same batch twice leaves the tables the first application left. */
  lemma BatchIdempotent(t: Tables, name: string, rows: seq<Row>)
    requires Batch(t, name, rows).result.Success?
    ensures var once := Batch(t, name, rows).tables;
      Batch(once, name, rows) == BatchOutcome(once, Success(|rows|))
  {
    var once := Batch(t, name, rows).tables;
    BatchSucceeds(t, name, rows);
    BatchSucceeds(once, name, rows);
    if rows != [] {
      var m := ModelFor(name).value;
      BatchOverlays(t, name, rows);
      BatchOverlays(once, name, rows);
      var o := Overlay(rows);
      assert TableOf(once, m) == TableOf(t, m) + o;
      assert (TableOf(t, m) + o) + o == TableOf(t, m) + o;
    }
  }

  /** Once a prefix of the batch has failed, the rest of the batch is never merged. */
  lemma {:induction false} BatchFailureSticks(t: Tables, name: string, rows: seq<Row>, i: nat)
    requires i <= |rows| && Batch(t, name, rows[..i]).result.Failure?
    ensures Batch(t, name, rows) == Batch(t, name, rows[..i])
    decreases |rows| - i
  {
    if i < |rows| {
      assert rows[..i + 1][..i] == rows[..i];
      BatchFailureSticks(t, name, rows, i + 1);
    } else {
      assert rows[..i] == rows;
    }
  }

  /* ---------------------------------------------------------------------- */
  /* The session                                                             */
  /* ---------------------------------------------------------------------- */

  /** How the transaction of a session was settled, in order. */
  datatype TxEvent = Commit | Rollback | Close

  /**
   * A database session: the tables as the session sees them with its pending
   * merges, the tables as last committed, and the settling calls made on it.
   */
  class Session {
    var pending: Tables
    var stored: Tables
    var log: seq<TxEvent>

    constructor(db: Tables)
      ensures pending == db && stored == db && log == []
    {
      pending := db;
      stored := db;
      log := [];
    }

    /** `session.merge(instance)`. */
    method Merge(r: Row)
      modifies this
      ensures pending == Put(old(pending), r)
      ensures stored == old(stored) && log == old(log)
    {
      pending := Put(pending, r);
    }

    /** `session.commit()`: the pending changes become the stored state. */
    method Commit()
      modifies this
      ensures stored == old(pending) && pending == old(pending)
      ensures log == old(log) + [TxEvent.Commit]
    {
      stored := pending;
      log := log + [TxEvent.Commit];
    }

    /** `session.rollback()`: the pending changes are discarded. */
    method Rollback()
      modifies this
      ensures pending == old(stored) && stored == old(stored)
      ensures log == old(log) + [TxEvent.Rollback]
    {
      pending := stored;
      log := log + [TxEvent.Rollback];
    }

    /** `session.close()`: whatever was not committed is discarded. */
    method Close()
      modifies this
      ensures pending == old(stored) && stored == old(stored)
      ensures log == old(log) + [TxEvent.Close]
    {
      pending := stored;
      log := log + [TxEvent.Close];
    }
  }

  /** `upsert_one(session, model_name, payload)`. */
  method UpsertOne(session: Session, name: string, r: Row) returns (outcome: Result<()>)
    modifies session
    ensures MergeRow(old(session.pending), name, r).Success? ==>
      outcome.Success? && session.pending == MergeRow(old(session.pending), name, r).value
    ensures MergeRow(old(session.pending), name, r).Failure? ==>
      outcome == Failure(MergeRow(old(session.pending), name, r).fault)
      && session.pending == old(session.pending)
    ensures session.stored == old(session.stored) && session.log == old(session.log)
  {
    var m := ModelFor(name);
    if m.None? {
      return Failure(KeyError);
    }
    if ModelOf(r) != m.value {
      return Failure(TypeError);
    }
    session.Merge(r);
    return Success(());
  }

  /** `upsert_many(session, model_name, rows)`: merge each row in order and count them. */
  method UpsertMany(session: Session, name: string, rows: seq<Row>) returns (outcome: Result<nat>)
    modifies session
    ensures outcome == Batch(old(session.pending), name, rows).result
    ensures session.pending == Batch(old(session.pending), name, rows).tables
    ensures session.stored == old(session.stored) && session.log == old(session.log)
  {
    ghost var start := session.pending;
    var total: nat := 0;
    var i := 0;
    while i < |rows|
      invariant 0 <= i <= |rows| && total == i
      invariant Batch(start, name, rows[..i]) == BatchOutcome(session.pending, Success(i))
      invariant session.stored == old(session.stored) && session.log == old(session.log)
    {
      assert rows[..i + 1][..i] == rows[..i];
      var one := UpsertOne(session, name, rows[i]);
      if one.Failure? {
        BatchFailureSticks(start, name, rows, i + 1);
        return Failure(one.fault);
      }
      total := total + 1;
      i := i + 1;
    }
    assert rows[..i] == rows;
    return Success(total);
  }
}
