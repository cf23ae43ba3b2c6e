/**
 * `DatabaseManager`: the price table keyed by (instrument, timestamp), the
 * append-only audit table, and the transaction that wraps every access.
 * Timestamps are integer milliseconds.
 */
module Database {
  import opened Exceptions

  /** pandas' to_sql writes the frame in INSERT statements of at most this many rows. */
  const ToSqlChunkSize: nat := 1000
  /** timedelta(days=1) in milliseconds. */
  const OneDay: int := 86_400_000

  /** One row of `oanda_prices`; the NOT NULL columns are plain values, the nullable ones options. */
  datatype PriceRow = PriceRow(
    instrument: string,
    timestamp: int,
    open: int,
    high: int,
    low: int,
    close: int,
    volume: int,
    complete: bool,
    spread: Option<int>,
    validationHash: Option<string>)

  /** One row of `audit_log`. */
  datatype AuditRecord = AuditRecord(id: nat, timestamp: int, operation: string, details: string, status: string)

  /** The primary key of `oanda_prices`. */
  function Key(r: PriceRow): (string, int) {
    (r.instrument, r.timestamp)
  }

  /** The primary-key constraint: no two rows share (instrument, timestamp). */
  predicate KeysUnique(t: seq<PriceRow>) {
    forall i, j :: 0 <= i < j < |t| ==> Key(t[i]) != Key(t[j])
  }

  /** AUTOINCREMENT ids: positive, strictly increasing, and below the next id to hand out. */
  predicate AuditIdsIncreasing(a: seq<AuditRecord>, nextId: nat) {
    && nextId >= 1
    && (forall i, j :: 0 <= i < j < |a| ==> a[i].id < a[j].id)
    && (forall i :: 0 <= i < |a| ==> 1 <= a[i].id < nextId)
  }

  predicate HasRows(t: seq<PriceRow>, instrument: string) {
    exists k :: 0 <= k < |t| && t[k].instrument == instrument
  }

  /** ts is the largest timestamp among the instrument's rows. */
  predicate IsLatest(t: seq<PriceRow>, instrument: string, ts: int) {
    && (exists k :: 0 <= k < |t| && t[k].instrument == instrument && t[k].timestamp == ts)
    && (forall k :: 0 <= k < |t| && t[k].instrument == instrument ==> t[k].timestamp <= ts)
  }

  /** `SELECT MAX(timestamp) ... WHERE instrument = ?`: None (SQL NULL) when the instrument has no rows. */
  function MaxTimestamp(t: seq<PriceRow>, instrument: string): (m: Option<int>)
    ensures m.None? <==> !HasRows(t, instrument)
    ensures m.Some? ==> IsLatest(t, instrument, m.value)
    decreases |t|
  {
    if t == [] then None
    else
      var init := t[..|t| - 1];
      var rest := MaxTimestamp(init, instrument);
      var last := t[|t| - 1];
      assert forall k :: 0 <= k < |init| ==> init[k] == t[k];
      if last.instrument != instrument then rest
      else if rest.Some? && rest.value >= last.timestamp then rest
      else Some(last.timestamp)
  }

  function MaxOption(a: Option<int>, b: Option<int>): Option<int> {
    match (a, b)
    case (None, _) => b
    case (_, None) => a
    case (Some(x), Some(y)) => Some(if x >= y then x else y)
  }

  /**
   * Appending rows moves an instrument's latest timestamp to the larger of
   * the old one and the appended rows' own.
   */
  lemma {:induction false} MaxTimestampAppend(t: seq<PriceRow>, b: seq<PriceRow>, instrument: string)
    ensures MaxTimestamp(t + b, instrument) == MaxOption(MaxTimestamp(t, instrument), MaxTimestamp(b, instrument))
    decreases |b|
  {
    if b == [] {
      assert t + b == t;
    } else {
      var b' := b[..|b| - 1];
      assert (t + b)[..|t + b| - 1] == t + b';
      assert (t + b)[|t + b| - 1] == b[|b| - 1];
      MaxTimestampAppend(t, b', instrument);
    }
  }

  /** Rows of other instruments leave an instrument's latest timestamp where it was. */
  lemma OtherInstrumentsUnaffected(t: seq<PriceRow>, b: seq<PriceRow>, instrument: string)
    requires forall k :: 0 <= k < |b| ==> b[k].instrument != instrument
    ensures MaxTimestamp(t + b, instrument) == MaxTimestamp(t, instrument)
  {
    MaxTimestampAppend(t, b, instrument);
  }

  /**
   * The table plus a batch keeps the key constraint exactly when the table
   * and the batch each keep it and no batch key is already in the table.
   */
  lemma KeysUniqueAppend(t: seq<PriceRow>, b: seq<PriceRow>)
    ensures KeysUnique(t + b) <==>
              && KeysUnique(t)
              && KeysUnique(b)
              && forall i, j :: 0 <= i < |t| && 0 <= j < |b| ==> Key(t[i]) != Key(b[j])
  {
    var s := t + b;
    assert forall i :: 0 <= i < |t| ==> s[i] == t[i];
    assert forall j :: 0 <= j < |b| ==> s[|t| + j] == b[j];
    if KeysUnique(s) {
      forall i, j | 0 <= i < j < |b| ensures Key(b[i]) != Key(b[j]) {
        assert s[|t| + i] == b[i] && s[|t| + j] == b[j];
      }
    }
  }

  /** Saving a batch that was just saved always collides, so a second save cannot add duplicates. */
  lemma DuplicateBatchCollides(t: seq<PriceRow>, b: seq<PriceRow>)
    requires b != []
    ensures !KeysUnique((t + b) + b)
  {
    var s := (t + b) + b;
    assert s[|t|] == b[0] && s[|t| + |b|] == b[0];
  }

  /** A key clash in a prefix is a key clash in the whole sequence. */
  lemma ClashInPrefix(s: seq<PriceRow>, n: nat)
    requires n <= |s| && !KeysUnique(s[..n])
    ensures !KeysUnique(s)
  {
    var i, j :| 0 <= i < j < n && Key(s[..n][i]) == Key(s[..n][j]);
    assert s[..n][i] == s[i] && s[..n][j] == s[j];
  }

  /** What leaving `with get_connection()` does: commit the pending state, or roll back and raise DatabaseError. */
  datatype Exit<S> = Exit(state: S, outcome: Outcome)

  /**
   * get_connection: on normal exit the body's work is committed; when the
   * body raised, whatever it raised, none of its work survives and the
   * caller sees DatabaseError.
   */
  function CloseConnection<S>(committed: S, pending: S, raised: Option<Error>): (x: Exit<S>)
    ensures x.outcome.Pass? <==> raised.None?
    ensures x.outcome.Pass? ==> x.state == pending
    ensures x.outcome.Fail? ==> x.state == committed && x.outcome.error == DatabaseError
  {
    if raised.None? then Exit(pending, Pass) else Exit(committed, Fail(DatabaseError))
  }

  /**
   * get_last_timestamp as written: the latest stored timestamp of the
   * instrument; with no rows the fallback names `timedelta`, which is never
   * imported, and the resulting error ends as DatabaseError.
   */
  function LastSync(t: seq<PriceRow>, instrument: string): (r: Result<int>)
    ensures r.Ok? <==> HasRows(t, instrument)
    ensures r.Ok? ==> IsLatest(t, instrument, r.value)
    ensures r.Err? ==> r.error == DatabaseError
  {
    match MaxTimestamp(t, instrument)
    case Some(m) => Ok(m)
    case None => Err(CloseConnection(t, t, Some(UndefinedName)).outcome.error)
  }

  /** get_last_timestamp as evidently intended: with no rows, one day before now. */
  function LastSyncOrDefault(t: seq<PriceRow>, instrument: string, now: int): (ts: int)
    ensures HasRows(t, instrument) ==> IsLatest(t, instrument, ts)
    ensures !HasRows(t, instrument) ==> ts == now - OneDay
    ensures LastSync(t, instrument).Ok? ==> ts == LastSync(t, instrument).value
  {
    match MaxTimestamp(t, instrument)
    case Some(m) => m
    case None => now - OneDay
  }

  /** An instrument that was never stored: the code as written fails where the intended fallback exists. */
  lemma FirstSyncFailsAsWritten(now: int)
    ensures LastSync([], "EUR_USD") == Err(DatabaseError)
    ensures LastSyncOrDefault([], "EUR_USD", now) == now - OneDay
  {
  }

  class DatabaseManager {
    /** `oanda_prices`, in insertion order. */
    var prices: seq<PriceRow>
    /** `audit_log`, in insertion order. */
    var audit: seq<AuditRecord>
    /** The AUTOINCREMENT counter: the id the next audit row receives. */
    var nextAuditId: nat

    ghost predicate Valid()
      reads this
    {
      KeysUnique(prices) && AuditIdsIncreasing(audit, nextAuditId)
    }

    /**
     * _initialize_database: CREATE TABLE IF NOT EXISTS keeps whatever the
     * file already holds, which the schema's own constraints keep valid.
     */
    constructor (storedPrices: seq<PriceRow>, storedAudit: seq<AuditRecord>, storedNextId: nat)
      requires KeysUnique(storedPrices) && AuditIdsIncreasing(storedAudit, storedNextId)
      ensures Valid()
      ensures prices == storedPrices && audit == storedAudit && nextAuditId == storedNextId
    {
      prices, audit, nextAuditId := storedPrices, storedAudit, storedNextId;
    }

    /**
     * log_audit: one record, with the next id and the given status, is
     * committed; on a storage failure nothing is written and nothing is
     * raised. The price table is never touched.
     */
    method LogAudit(operation: string, details: string, now: int, storageFault: bool,
                    status: string := "completed")
      requires Valid()
      modifies this
      ensures Valid() && prices == old(prices)
      ensures !storageFault ==>
                && audit == old(audit) + [AuditRecord(old(nextAuditId), now, operation, details, status)]
                && nextAuditId == old(nextAuditId) + 1
      ensures storageFault ==> audit == old(audit) && nextAuditId == old(nextAuditId)
    {
      var pending := (audit + [AuditRecord(nextAuditId, now, operation, details, status)], nextAuditId + 1);
      var raised := if storageFault then Some(StorageFault) else None;
      var x := CloseConnection((audit, nextAuditId), pending, raised);
      audit, nextAuditId := x.state.0, x.state.1;
      // the DatabaseError of a failed write is logged and swallowed here
    }

    /** get_last_timestamp: a read-only query over the price table. */
    method GetLastTimestamp(instrument: string, storageFault: bool) returns (r: Result<int>)
      requires Valid()
      ensures storageFault ==> r == Err(DatabaseError)
      ensures !storageFault ==> r == LastSync(prices, instrument)
      ensures r.Ok? ==> IsLatest(prices, instrument, r.value)
      ensures r.Err? <==> storageFault || !HasRows(prices, instrument)
      ensures r.Err? ==> r.error == DatabaseError
    {
      var m := MaxTimestamp(prices, instrument);
      if storageFault {
        // the connection or the query failed: rolled back and re-raised as DatabaseError
        var x := CloseConnection((), (), Some(StorageFault));
        r := Err(x.outcome.error);
      } else if m.Some? {
        r := Ok(m.value);
      } else {
        // `timedelta` is unbound: get_connection rolls back and raises DatabaseError
        var x := CloseConnection((), (), Some(UndefinedName));
        r := Err(x.outcome.error);
      }
    }

    /**
     * save_candles: an empty batch is a no-op. Otherwise the batch is
     * inserted statement by statement inside one transaction; a duplicate
     * key, against the table or within the batch, or a storage failure
     * rolls the whole batch back and raises DatabaseError. On success the
     * table is the old table followed by exactly the batch.
     */
    method SaveCandles(df: seq<PriceRow>, storageFault: bool) returns (o: Outcome)
      requires Valid()
      modifies this
      ensures Valid()
      ensures audit == old(audit) && nextAuditId == old(nextAuditId)
      ensures df == [] ==> o == Pass && prices == old(prices)
      ensures o.Pass? <==> df == [] || (!storageFault && KeysUnique(old(prices) + df))
      ensures o.Pass? ==> prices == old(prices) + df
      ensures o.Fail? ==> o.error == DatabaseError && prices == old(prices)
    {
      if df == [] {
        assert prices + df == prices;
        return Pass;
      }
      var pending := prices;
      var raised: Option<Error> := None;
      var i := 0;
      while i < |df|
        invariant 0 <= i <= |df|
        invariant pending == prices + df[..i]
        invariant KeysUnique(pending)
      {
        var j := if i + ToSqlChunkSize < |df| then i + ToSqlChunkSize else |df|;
        var statement := df[i..j];
        assert pending + statement == prices + df[..j] by {
          assert df[..j] == df[..i] + statement;
        }
        if !KeysUnique(pending + statement) {
          raised := Some(IntegrityError);
          assert (prices + df)[..|prices| + j] == prices + df[..j];
          ClashInPrefix(prices + df, |prices| + j);
          break;
        }
        pending := pending + statement;
        i := j;
      }
      if raised.None? {
        assert df[..i] == df;
        if storageFault {
          raised := Some(StorageFault);
        }
      }
      var x := CloseConnection(prices, pending, raised);
      prices, o := x.state, x.outcome;
    }
  }
}
