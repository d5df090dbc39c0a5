/**
 * The stock-level badge of src/pages/LowStocks.tsx. The page lists the
 * products whose quantity is below `LOW_STOCK_THRESHOLD` (the server applies
 * that bound) and colours each one's quantity by how low it is.
 */
module LowStocks {
  /** `LOW_STOCK_THRESHOLD`: the page lists quantities below this. */
  const LowStockThreshold := 20

  /** The three badge colours of `getStatusClass`: red, orange and yellow. */
  datatype Severity = Red | Orange | Yellow

  /** How urgent a colour is: red above orange above yellow. */
  function Rank(s: Severity): nat
  {
    match s
    case Red => 2
    case Orange => 1
    case Yellow => 0
  }

  /** `getStatusClass`: red up to 7, orange up to 20, yellow above. */
  function StatusClass(quantity: int): (s: Severity)
    ensures s == Red <==> quantity <= 7
    ensures s == Orange <==> 7 < quantity <= 20
    ensures s == Yellow <==> quantity > 20
  {
    if quantity <= 7 then Red
    else if quantity <= 20 then Orange
    else Yellow
  }

  /** A smaller quantity is never shown as less urgent than a larger one. */
  lemma StatusClassMonotone(q1: int, q2: int)
    requires q1 <= q2
    ensures Rank(StatusClass(q1)) >= Rank(StatusClass(q2))
  {
  }

  /** Every listed item is below the threshold, so none of them is ever yellow. */
  lemma ListedNeverYellow(quantities: seq<int>)
    requires forall i :: 0 <= i < |quantities| ==> quantities[i] < LowStockThreshold
    ensures forall i :: 0 <= i < |quantities| ==> StatusClass(quantities[i]) != Yellow
  {
  }
}
