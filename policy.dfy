/**
 * The funding policy of `pay`: a four-way decision over the net satoshis
 * needed, chosen by the thresholds `DUST_LIMIT`, `0` and `-DUST_LIMIT` in that
 * order, so that no sub-dust value is ever requested or paid out as change.
 */
module Policy {

  /** `DUST_LIMIT`: the smallest value worth creating as an output. */
  const DUST_LIMIT: nat := 547

  /** What `pay` does with a transaction. */
  datatype Decision =
    | RequestInput(amount: nat)   // `_addInput(txToPay, amount)`
    | KeepAsIs                    // `return hexTx`
    | EmitChange(amount: nat)     // `_addChangeOutput(txToPay, amount)`

  /** Value the decision brings into the transaction: an input counts positive, change negative. */
  function Credit(d: Decision): int
  {
    match d
    case RequestInput(a) => a
    case KeepAsIs => 0
    case EmitChange(c) => -(c as int)
  }

  /**
   * The decision `pay` takes for `needed` net satoshis. An input is acquired
   * exactly when the transaction is underfunded, of the larger of the need and
   * the dust limit; change is emitted exactly when the surplus reaches the dust
   * limit, of the whole surplus; otherwise nothing changes. Whatever is
   * decided covers the need and overshoots it by less than the dust limit.
   */
  function Decide(needed: int): (d: Decision)
    ensures d.RequestInput? <==> needed > 0
    ensures d.KeepAsIs? <==> -(DUST_LIMIT as int) < needed <= 0
    ensures d.EmitChange? <==> needed <= -(DUST_LIMIT as int)
    ensures d.RequestInput? ==> d.amount >= DUST_LIMIT && d.amount >= needed
    ensures d.RequestInput? ==> d.amount == needed || d.amount == DUST_LIMIT
    ensures d.EmitChange? ==> d.amount >= DUST_LIMIT && d.amount == -needed
    ensures 0 <= Credit(d) - needed < DUST_LIMIT
  {
    if needed > DUST_LIMIT as int then RequestInput(needed)
    else if needed > 0 then RequestInput(DUST_LIMIT)
    else if needed > -(DUST_LIMIT as int) then KeepAsIs
    else EmitChange(-needed)
  }
}
