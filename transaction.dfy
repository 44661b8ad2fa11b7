/**
 * The part of the transaction library's data model the purse touches: a
 * transaction is an ordered list of inputs and an ordered list of outputs,
 * changed in place by `from` (append an input), `to` (append an output) and
 * `addSignature` (complete one input's unlocking script).
 */
module Transactions {
  import opened Wrappers

  /** Hex transaction id. */
  type Txid = string
  /** Base58 address string, as `toAddress().toString()` yields it. */
  type Address = string
  /** Raw script bytes. */
  type Script = seq<bv8>

  /** A destination script and a value in satoshis. */
  datatype Output = Output(script: Script, satoshis: nat)

  /**
   * A reference to a previous output by transaction id and index, with the
   * spent output when the library knows it (an input parsed from an encoding
   * does not carry it) and the unlocking script.
   */
  datatype Input = Input(prevTxid: Txid, outputIndex: nat, spent: Option<Output>, unlocking: Script)

  /** A transaction as a value: what an encoding decodes to. */
  datatype TxValue = TxValue(inputs: seq<Input>, outputs: seq<Output>)

  /** The library's `UnspentOutput` record handed to `from`. */
  datatype UnspentOutput = UnspentOutput(txid: Txid, vout: nat, satoshis: nat, script: Script)

  /** The input `from` builds for an unspent output: not yet signed. */
  function InputFor(utxo: UnspentOutput): Input
  {
    Input(utxo.txid, utxo.vout, Some(Output(utxo.script, utxo.satoshis)), [])
  }

  /** A transaction under construction, updated in place. */
  class Transaction {
    var inputs: seq<Input>
    var outputs: seq<Output>

    /** `new Transaction(encoding)`: decoding itself is the library's concern. */
    constructor (v: TxValue)
      ensures Value() == v
    {
      inputs := v.inputs;
      outputs := v.outputs;
    }

    /** The current contents; `uncheckedSerialize` encodes all of it except each input's `spent`. */
    function Value(): TxValue
      reads this
    {
      TxValue(inputs, outputs)
    }

    /** `from(utxo)`: appends one unsigned input spending `utxo`. */
    method From(utxo: UnspentOutput)
      modifies this
      ensures inputs == old(inputs) + [InputFor(utxo)]
      ensures outputs == old(outputs)
    {
      inputs := inputs + [InputFor(utxo)];
    }

    /** `to(destination, satoshis)`: appends one output. */
    method To(script: Script, satoshis: nat)
      modifies this
      ensures outputs == old(outputs) + [Output(script, satoshis)]
      ensures inputs == old(inputs)
    {
      outputs := outputs + [Output(script, satoshis)];
    }

    /** `inputs[index].addSignature(...)`: sets that input's unlocking script only. */
    method AddSignature(index: nat, unlocking: Script)
      requires index < |inputs|
      modifies this
      ensures inputs == old(inputs)[index := old(inputs)[index].(unlocking := unlocking)]
      ensures outputs == old(outputs)
    {
      inputs := inputs[index := inputs[index].(unlocking := unlocking)];
    }
  }
}
