/**
 * The fee/balance estimator (`calculateCostToFundTx`): the signed number of
 * satoshis the transaction still needs, positive when underfunded and
 * negative when overfunded.
 */
module Estimator {
  import opened ArrayOps
  import opened Transactions

  /** `SAT_PER_BYTE = 0.5`, kept exact as its reciprocal. */
  const BYTES_PER_SATOSHI: nat := 2
  /** Bytes allowed for the funding input that is not yet part of the transaction. */
  const FUNDING_INPUT_BYTES: nat := 160

  /** A parent record: the value of an output one of the inputs spends. */
  datatype Parent = Parent(satoshis: int)

  /** `Math.ceil(bytes * SAT_PER_BYTE)`: the least whole satoshi amount covering `bytes` at the rate. */
  function FeeFor(bytes: int): (fee: int)
    ensures bytes <= BYTES_PER_SATOSHI * fee < bytes + BYTES_PER_SATOSHI
  {
    (bytes + 1) / BYTES_PER_SATOSHI
  }

  /** `outputs.map(o => o.satoshis)` */
  function OutputValues(outputs: seq<Output>): (vs: seq<int>)
  {
    seq(|outputs|, i requires 0 <= i < |outputs| => outputs[i].satoshis)
  }

  /** `parents.map(p => p.satoshis)` */
  function ParentValues(parents: seq<Parent>): (vs: seq<int>)
  {
    seq(|parents|, i requires 0 <= i < |parents| => parents[i].satoshis)
  }

  /** Fee owed by a transaction of `size` serialized bytes once the funding input is added. */
  function FundingFee(size: nat): (fee: int)
    ensures size + FUNDING_INPUT_BYTES <= BYTES_PER_SATOSHI * fee < size + FUNDING_INPUT_BYTES + BYTES_PER_SATOSHI
    ensures fee == (size + FUNDING_INPUT_BYTES + 1) / 2
  {
    FeeFor(size + FUNDING_INPUT_BYTES)
  }

  /**
   * `calculateCostToFundTx(tx, parents)`, with `size` standing for
   * `tx.toBuffer().byteLength`: fee plus value paid out minus value brought in.
   * Only the fee term is rounded.
   */
  function CostToFund(outputs: seq<Output>, size: nat, parents: seq<Parent>): (needed: int)
    ensures needed == FundingFee(size) + Sum(OutputValues(outputs)) - Sum(ParentValues(parents))
    ensures outputs == [] && parents == [] ==> needed == (size + FUNDING_INPUT_BYTES + 1) / 2
  {
    ReduceIsSum(OutputValues(outputs), 0);
    ReduceIsSum(ParentValues(parents), 0);
    FeeFor(size + FUNDING_INPUT_BYTES)
      + Reduce(OutputValues(outputs), 0)
      - Reduce(ParentValues(parents), 0)
  }

  /** Adding one output raises the value paid out by exactly its satoshis. */
  lemma OutputValuesSnoc(outputs: seq<Output>, o: Output)
    ensures Sum(OutputValues(outputs + [o])) == Sum(OutputValues(outputs)) + o.satoshis
  {
    assert OutputValues(outputs + [o]) == OutputValues(outputs) + [o.satoshis];
    SumSnoc(OutputValues(outputs), o.satoshis);
  }

  /** Adding one parent raises the value brought in by exactly its satoshis. */
  lemma ParentValuesSnoc(parents: seq<Parent>, p: Parent)
    ensures Sum(ParentValues(parents + [p])) == Sum(ParentValues(parents)) + p.satoshis
  {
    assert ParentValues(parents + [p]) == ParentValues(parents) + [p.satoshis];
    SumSnoc(ParentValues(parents), p.satoshis);
  }
}
