/**
 * `FetchUsersWithinFence` of models.go: inside one transaction it stores a
 * freshly named fence holding the polygon's well-known text, runs the
 * containment query against it and commits. The store is abstract: whether
 * each statement succeeds, and which rows the query returns, are fixed by an
 * Answers value that the caller does not control.
 */
module Fences {
  import opened Wrappers
  import opened Strings
  import opened Geometry

  /** The fence name `label_N` (`fmt.Sprintf("%s_%d", name, randomNumber)`). */
  function FenceName(base: string, n: nat): (name: string)
    ensures |name| > |base| + 1 && name[..|base|] == base && name[|base|] == '_'
    ensures IsDigits(name[|base| + 1..]) && DigitsValue(name[|base| + 1..]) == n
  {
    var name := base + "_" + Decimal(n);
    assert name[|base| + 1..] == Decimal(n);
    name
  }

  /** Under one base name, different suffixes give different names; a suffix below 1000 adds at most four characters. */
  lemma FenceNameDistinct(base: string, m: nat, n: nat)
    requires m < 1000 && n < 1000
    ensures FenceName(base, m) == FenceName(base, n) <==> m == n
    ensures |FenceName(base, n)| <= |base| + 4
  {
    DecimalBelowThousand(n);
    assert FenceName(base, n) == base + "_" + Decimal(n);
  }

  /** A store error, kept opaque. */
  datatype DbError = DbError(message: string)

  /** A fence row as inserted. */
  datatype GeoFence = GeoFence(name: string, geo: string)

  /** A row of the containment query; `location` is the `x,y` text of the stored point. */
  datatype User = User(id: string, name: string, location: string)

  /** How the store will answer this transaction's insert, query and commit. */
  datatype Answers = Answers(create: Option<DbError>, query: Result<seq<User>, DbError>, commit: Option<DbError>)

  /**
   * Open until the caller commits or rolls back. A commit that fails ends the
   * transaction too (the driver considers it done), without its writes.
   */
  datatype TxState = Open | RolledBack | Committed | CommitFailed

  /** The statements a transaction has been given, in order. */
  datatype TxCall = Create(fence: GeoFence) | Raw(geo: string) | Rollback | Commit

  /** The fence rows that other sessions can see. */
  class Database {
    var fences: seq<GeoFence>

    constructor (fences: seq<GeoFence>)
      ensures this.fences == fences
    {
      this.fences := fences;
    }
  }

  /** A transaction on `db`: its writes stay pending until a commit succeeds. */
  class Tx {
    const db: Database
    const answers: Answers
    var state: TxState
    var log: seq<TxCall>
    var pending: seq<GeoFence>

    /** `db.Begin()` */
    constructor Begin(db: Database, answers: Answers)
      ensures this.db == db && this.answers == answers
      ensures state == Open && log == [] && pending == []
    {
      this.db := db;
      this.answers := answers;
      state := Open;
      log := [];
      pending := [];
    }

    /** `tx.Create(&fence)`: the fence becomes pending unless the store rejects it. */
    method CreateFence(fence: GeoFence) returns (err: Option<DbError>)
      requires state == Open
      modifies this
      ensures err == answers.create
      ensures state == Open && log == old(log) + [Create(fence)]
      ensures pending == if err.None? then old(pending) + [fence] else old(pending)
    {
      err := answers.create;
      log := log + [Create(fence)];
      if err.None? {
        pending := pending + [fence];
      }
    }

    /** `tx.Raw(sql, geo).Scan(&rows)`: the containment query, which writes nothing. */
    method RawQuery(geo: string) returns (rows: seq<User>, err: Option<DbError>)
      requires state == Open
      modifies this
      ensures err == if answers.query.Failure? then Some(answers.query.error) else None
      ensures rows == if answers.query.Success? then answers.query.value else []
      ensures state == Open && pending == old(pending) && log == old(log) + [Raw(geo)]
    {
      if answers.query.Success? {
        rows, err := answers.query.value, None;
      } else {
        rows, err := [], Some(answers.query.error);
      }
      log := log + [Raw(geo)];
    }

    /** `tx.Rollback()`: pending writes are dropped. */
    method RollbackTx()
      requires state == Open
      modifies this
      ensures state == RolledBack && pending == [] && log == old(log) + [Rollback]
    {
      state := RolledBack;
      pending := [];
      log := log + [Rollback];
    }

    /** `tx.Commit()`: on success the pending writes become visible in `db`. */
    method CommitTx() returns (err: Option<DbError>)
      requires state == Open
      modifies this, db
      ensures err == answers.commit
      ensures log == old(log) + [Commit] && pending == []
      ensures err.None? ==> state == Committed && db.fences == old(db.fences) + old(pending)
      ensures err.Some? ==> state == CommitFailed && db.fences == old(db.fences)
    {
      err := answers.commit;
      log := log + [Commit];
      if err.None? {
        db.fences := db.fences + pending;
        state := Committed;
      } else {
        state := CommitFailed;
      }
      pending := [];
    }
  }

  /**
   * `FetchUsersWithinFence(name, vertices)`, with `randomNumber` (`rand.Intn(1000)`)
   * and the store's answers as inputs. Statements go create, query, commit; the
   * first one that fails ends the call with no rows and its error, after a
   * rollback when the failing one is the insert or the query. Malformed
   * vertices make `createPolygonWKT` panic before anything is sent; the deferred
   * recover then rolls back and the call returns no rows and no error.
   */
  method FetchUsersWithinFence(db: Database, answers: Answers, name: string, vertices: seq<seq<Num>>,
                               randomNumber: nat, fmt: Num -> string)
      returns (users: Option<seq<User>>, err: Option<DbError>, tx: Tx)
    requires randomNumber < 1000
    modifies db
    ensures fresh(tx) && tx.db == db && tx.answers == answers
    ensures users.Some? <==> tx.state == Committed
    ensures users.Some? ==> err.None?
    ensures tx.state != Committed ==> db.fences == old(db.fences)
    ensures !WellFormedVertices(vertices) ==>
              tx.log == [Rollback] && tx.state == RolledBack && users.None? && err.None?
    ensures WellFormedVertices(vertices) ==>
              var fence := GeoFence(FenceName(name, randomNumber), PolygonWkt(vertices, fmt));
              if answers.create.Some? then
                tx.log == [Create(fence), Rollback] && tx.state == RolledBack && err == answers.create
              else if answers.query.Failure? then
                tx.log == [Create(fence), Raw(fence.geo), Rollback] && tx.state == RolledBack
                && err == Some(answers.query.error)
              else if answers.commit.Some? then
                tx.log == [Create(fence), Raw(fence.geo), Commit] && tx.state == CommitFailed
                && err == answers.commit
              else
                tx.log == [Create(fence), Raw(fence.geo), Commit] && tx.state == Committed
                && users == Some(answers.query.value) && db.fences == old(db.fences) + [fence]
  {
    tx := new Tx.Begin(db, answers);
    var geofenceName := FenceName(name, randomNumber);
    if !WellFormedVertices(vertices) {
      tx.RollbackTx();
      return None, None, tx;
    }
    var wktPolygon := CreatePolygonWkt(vertices, fmt);
    var geofence := GeoFence(geofenceName, wktPolygon);
    err := tx.CreateFence(geofence);
    if err.Some? {
      tx.RollbackTx();
      return None, err, tx;
    }
    var usersWithinGeofence;
    usersWithinGeofence, err := tx.RawQuery(geofence.geo);
    if err.Some? {
      tx.RollbackTx();
      return None, err, tx;
    }
    err := tx.CommitTx();
    if err.Some? {
      return None, err, tx;
    }
    return Some(usersWithinGeofence), None, tx;
  }
}
