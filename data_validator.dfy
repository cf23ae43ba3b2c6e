/**
 * `DataValidator.validate_price_data`: the structural and price-relationship
 * check applied to a batch (frame) of candle rows before it is stored.
 */
module DataValidator {
  import opened Exceptions

  /** One cell of the frame: missing (None/NaN) or a price. */
  datatype Cell = Null | Value(v: int)

  /** One frame row: the four price columns and the frame's other columns. */
  datatype CandleRow = CandleRow(open: Cell, high: Cell, low: Cell, close: Cell, others: seq<Cell>)

  predicate HasNull(r: CandleRow) {
    || r.open.Null? || r.high.Null? || r.low.Null? || r.close.Null?
    || exists k :: 0 <= k < |r.others| && r.others[k].Null?
  }

  /** `df.isnull().any().any()`: some cell of some row is missing. */
  predicate AnyNull(df: seq<CandleRow>) {
    exists i :: 0 <= i < |df| && HasNull(df[i])
  }

  /** The five disjuncts the validator computes for a row without missing cells. */
  predicate InvalidPrices(r: CandleRow)
    requires !HasNull(r)
  {
    || r.high.v < r.low.v
    || r.open.v > r.high.v
    || r.open.v < r.low.v
    || r.close.v > r.high.v
    || r.close.v < r.low.v
  }

  /** The candle invariant, stated independently: low <= open <= high and low <= close <= high. */
  predicate WellFormed(r: CandleRow)
    requires !HasNull(r)
  {
    r.low.v <= r.open.v <= r.high.v && r.low.v <= r.close.v <= r.high.v
  }

  /**
   * What a call does: return True, fall off the end (return None), or raise.
   */
  datatype Verdict = ReturnsTrue | ReturnsNone | Raises(error: Error)

  /**
   * validate_price_data as written. The input is a value, so the batch is
   * only read. The empty batch is accepted before any check; a missing cell
   * anywhere is reported before any price relation is looked at; one row
   * breaking the candle invariant rejects the whole batch.
   */
  function ValidatePriceData(df: seq<CandleRow>): (v: Verdict)
    ensures v == ReturnsTrue <==> df == []
    ensures v == Raises(DataValidationError) <==> AnyNull(df)
    ensures v == Raises(PriceIntegrityError) <==>
              !AnyNull(df) && exists i :: 0 <= i < |df| && !WellFormed(df[i])
    ensures v == ReturnsNone <==>
              df != [] && !AnyNull(df) && forall i :: 0 <= i < |df| ==> WellFormed(df[i])
    ensures v.Raises? ==> v.error == DataValidationError || v.error == PriceIntegrityError
  {
    if df == [] then ReturnsTrue
    else if AnyNull(df) then Raises(DataValidationError)
    else if exists i :: 0 <= i < |df| && InvalidPrices(df[i]) then Raises(PriceIntegrityError)
    else ReturnsNone
  }

  /** The `high < low` disjunct adds nothing: such a row already has open above high or below low. */
  lemma HighBelowLowRedundant(r: CandleRow)
    requires !HasNull(r)
    ensures InvalidPrices(r) <==>
              (r.open.v > r.high.v || r.open.v < r.low.v || r.close.v > r.high.v || r.close.v < r.low.v)
  {
  }

  /** A batch with a missing cell is rejected as such even when its prices are also broken. */
  lemma NullCheckPrecedesPriceCheck(df: seq<CandleRow>, i: nat)
    requires i < |df| && HasNull(df[i])
    ensures ValidatePriceData(df) == Raises(DataValidationError)
  {
  }

  /**
   * Rejection for prices survives appending more (null-free) rows: once a
   * bad row is in the batch, nothing added later makes the batch pass.
   */
  lemma {:induction false} PriceRejectionPersists(df: seq<CandleRow>, more: seq<CandleRow>)
    requires ValidatePriceData(df) == Raises(PriceIntegrityError)
    requires !AnyNull(more)
    ensures ValidatePriceData(df + more) == Raises(PriceIntegrityError)
  {
    var i :| 0 <= i < |df| && !WellFormed(df[i]);
    assert (df + more)[i] == df[i];
    forall j | 0 <= j < |df + more|
      ensures !HasNull((df + more)[j])
    {
      if j < |df| {
        assert (df + more)[j] == df[j];
      } else {
        assert (df + more)[j] == more[j - |df|];
      }
    }
  }

  /**
   * The same check with the evidently intended return value: every accepted
   * batch, empty or not, yields True.
   */
  function CheckPriceData(df: seq<CandleRow>): (r: Result<bool>)
    ensures r.Ok? ==> r.value
    ensures r == Ok(true) <==>
              df == [] || (!AnyNull(df) && forall i :: 0 <= i < |df| ==> WellFormed(df[i]))
    ensures r.Err? <==> ValidatePriceData(df).Raises?
    ensures r.Err? ==> r.error == ValidatePriceData(df).error
  {
    match ValidatePriceData(df)
    case Raises(e) => Err(e)
    case _ => Ok(true)
  }

  /** As written, a well-formed one-row batch makes the call return None, not True. */
  lemma AcceptedBatchReturnsNone()
    ensures ValidatePriceData([CandleRow(Value(10), Value(12), Value(9), Value(11), [])]) == ReturnsNone
    ensures CheckPriceData([CandleRow(Value(10), Value(12), Value(9), Value(11), [])]) == Ok(true)
  {
    var r := CandleRow(Value(10), Value(12), Value(9), Value(11), []);
    assert !HasNull(r) && WellFormed(r);
  }
}
