/**
 * The purse (`MBPurse`): funds a transaction by acquiring one input from the
 * funds source, leaving it as it is, or returning the surplus as one change
 * output to the caller's own paymail.
 *
 * Everything outside this module's reach (the funds source, the paymail
 * client, the fresh key, address derivation, signing and the clock) is an
 * answer recorded in a `Collaborators` value.
 */
module Purse {
  import opened Wrappers
  import opened ArrayOps
  import opened Transactions
  import opened Estimator
  import opened Policy

  /** Unit named in every payment request. */
  const CURRENCY := "BSV-SAT"
  /** Name of the crypto operation that yields the user's paymail. */
  const USER_PAYMAIL := "userPaymail"
  /** Kind of that crypto operation. */
  const PAYMAIL_KIND := "paymail"
  /** Signature placeholder sent with the self-payment request. */
  const SIGNATURE_PLACEHOLDER := "signature"

  /** `imb.swipe({ to, amount, currency })` */
  datatype PaymentRequest = PaymentRequest(to: Address, amount: nat, currency: string)
  /** The `payment` of a swipe answer, with `rawtx` already decoded to its outputs. */
  datatype Payment = Payment(txid: Txid, outputs: seq<Output>)
  /** One entry of `cryptoOperations` in a swipe request (`kind` is its `method`). */
  datatype CryptoOperationRequest = CryptoOperationRequest(name: string, kind: string)
  /** One entry of `cryptoOperations` in a swipe answer. */
  datatype CryptoOperation = CryptoOperation(name: string, value: string)
  /** The sender data given to `getOutputFor`. */
  datatype SenderData = SenderData(senderHandle: string, signature: string, dt: string)

  /** Why a funding call fails; each aborts the call. */
  datatype Error =
    | FundingSourceMismatch        // no output of the payment pays the one-time address
    | IdentityUnavailable          // no crypto operation named `userPaymail` came back
    | ResolutionFailed(reason: string)  // the paymail client rejected the request

  /** The answers of everything the purse calls but does not implement. */
  datatype Collaborators = Collaborators(
    transientAddress: Address,                                // `PrivateKey.fromRandom().toAddress()`
    swipePayment: PaymentRequest -> Payment,                  // `imb.swipe` asked for funds
    swipeIdentity: seq<CryptoOperationRequest> -> seq<CryptoOperation>,  // `imb.swipe` asked for crypto operations
    getOutputFor: (string, SenderData) -> Result<Script, string>,  // `pmClient.getOutputFor`
    toAddress: Script -> Address,                             // `script.toAddress().toString()`
    sign: (TxValue, nat) -> Script,                           // unlocking script for input `i` of a transaction
    now: string)                                              // `new Date().toISOString()`

  /** The request `_addInput` sends: `amount` satoshis to the one-time address. */
  function FundingRequest(env: Collaborators, amount: nat): PaymentRequest
  {
    PaymentRequest(env.transientAddress, amount, CURRENCY)
  }

  /** The crypto operations `_addChangeOutput` asks for. */
  function IdentityRequest(): seq<CryptoOperationRequest>
  {
    [CryptoOperationRequest(USER_PAYMAIL, PAYMAIL_KIND)]
  }

  /** The sender data of a payment from `handle` to itself. */
  function SelfPayment(handle: string, now: string): SenderData
  {
    SenderData(handle, SIGNATURE_PLACEHOLDER, now)
  }

  /** The predicate shared by `find` and `findIndex` in `_addInput`. */
  predicate PaysTransient(env: Collaborators, o: Output)
  {
    env.toAddress(o.script) == env.transientAddress
  }

  /** The predicate of `find` in `_addChangeOutput`. */
  predicate IsUserPaymail(co: CryptoOperation)
  {
    co.name == USER_PAYMAIL
  }

  /**
   * `after` is `before` with one funding input appended for `amount`: it spends
   * the first output of the payment that pays the one-time address, claims
   * `amount` satoshis with that output's script, and is signed over the
   * transaction it belongs to. Earlier inputs and all outputs are untouched.
   */
  predicate AppendsFundingInput(before: TxValue, amount: nat, env: Collaborators, after: TxValue)
  {
    var payment := env.swipePayment(FundingRequest(env, amount));
    var n := |before.inputs|;
    && after.outputs == before.outputs
    && |after.inputs| == n + 1
    && after.inputs[..n] == before.inputs
    && var added := after.inputs[n];
       && added.prevTxid == payment.txid
       && IsFirstMatch(payment.outputs, o => PaysTransient(env, o), added.outputIndex)
       && added.spent == Some(Output(payment.outputs[added.outputIndex].script, amount))
       && added.unlocking == env.sign(TxValue(before.inputs + [added.(unlocking := [])], before.outputs), n)
  }

  /**
   * `_addInput(txToPay, amount)` on values. It fails exactly when no output of
   * the payment pays the one-time address; otherwise it appends the funding input.
   */
  function WithFundingInput(tx: TxValue, amount: nat, env: Collaborators): (r: Result<TxValue, Error>)
    ensures var outs := env.swipePayment(FundingRequest(env, amount)).outputs;
            r.Failure? <==> forall j :: 0 <= j < |outs| ==> !PaysTransient(env, outs[j])
    ensures r.Failure? ==> r.error == FundingSourceMismatch
    ensures r.Success? ==> AppendsFundingInput(tx, amount, env, r.value)
  {
    var payment := env.swipePayment(FundingRequest(env, amount));
    var paysTransient := o => PaysTransient(env, o);
    FindAtFindIndex(payment.outputs, paysTransient);
    match Find(payment.outputs, paysTransient)
    case None => Failure(FundingSourceMismatch)
    case Some(utxo) =>
      var vout := FindIndex(payment.outputs, paysTransient).value;
      var unsigned := TxValue(tx.inputs + [InputFor(UnspentOutput(payment.txid, vout, amount, utxo.script))], tx.outputs);
      var index := |unsigned.inputs| - 1;
      var signed := unsigned.inputs[index].(unlocking := env.sign(unsigned, index));
      Success(unsigned.(inputs := unsigned.inputs[index := signed]))
  }

  /**
   * `_addChangeOutput(tx, change)` on values. It fails when no crypto operation
   * is named `userPaymail`, or with the paymail client's reason when that
   * rejects the self-payment request for the first such operation's handle;
   * otherwise it appends one output of `change` satoshis to the resolved script.
   */
  function WithChangeOutput(tx: TxValue, change: nat, env: Collaborators): (r: Result<TxValue, Error>)
    ensures var ops := env.swipeIdentity(IdentityRequest());
            (forall k :: 0 <= k < |ops| ==> !IsUserPaymail(ops[k])) ==> r == Failure(IdentityUnavailable)
    ensures var ops := env.swipeIdentity(IdentityRequest());
            forall k | IsFirstMatch(ops, IsUserPaymail, k) ::
              var answer := env.getOutputFor(ops[k].value, SelfPayment(ops[k].value, env.now));
              && (answer.Failure? ==> r == Failure(ResolutionFailed(answer.error)))
              && (answer.Success? ==> r == Success(TxValue(tx.inputs, tx.outputs + [Output(answer.value, change)])))
  {
    var ops := env.swipeIdentity(IdentityRequest());
    FindAtFindIndex(ops, IsUserPaymail);
    match Find(ops, IsUserPaymail)
    case None => Failure(IdentityUnavailable)
    case Some(co) =>
      var handle := co.value;
      match env.getOutputFor(handle, SelfPayment(handle, env.now))
      case Failure(reason) => Failure(ResolutionFailed(reason))
      case Success(script) => Success(TxValue(tx.inputs, tx.outputs + [Output(script, change)]))
  }

  /**
   * `pay(encoding, parents)` on values, `size` being the encoding's length in
   * bytes. An underfunded transaction gains exactly one input, asked of the
   * funds source for the need or the dust limit, whichever is larger; one
   * within the dust band comes back as it was given; one whose surplus
   * reaches the dust limit gains exactly one output at the end, of the whole
   * surplus. Nothing else changes.
   */
  function Funded(tx: TxValue, size: nat, parents: seq<Parent>, env: Collaborators): (r: Result<TxValue, Error>)
    ensures var n := CostToFund(tx.outputs, size, parents);
            && (n > DUST_LIMIT ==> r == WithFundingInput(tx, n, env))
            && (0 < n <= DUST_LIMIT ==> r == WithFundingInput(tx, DUST_LIMIT, env))
            && (-(DUST_LIMIT as int) < n <= 0 ==> r == Success(tx))
            && (n <= -(DUST_LIMIT as int) ==> r == WithChangeOutput(tx, -n, env))
    ensures var n := CostToFund(tx.outputs, size, parents);
            r.Success? && n > 0 ==>
              && r.value.outputs == tx.outputs
              && |r.value.inputs| == |tx.inputs| + 1
              && r.value.inputs[..|tx.inputs|] == tx.inputs
    ensures var n := CostToFund(tx.outputs, size, parents);
            r.Success? && n <= -(DUST_LIMIT as int) ==>
              && r.value.inputs == tx.inputs
              && |r.value.outputs| == |tx.outputs| + 1
              && r.value.outputs[..|tx.outputs|] == tx.outputs
              && r.value.outputs[|tx.outputs|].satoshis == -n >= DUST_LIMIT
  {
    match Decide(CostToFund(tx.outputs, size, parents))
    case RequestInput(amount) => WithFundingInput(tx, amount, env)
    case KeepAsIs => Success(tx)
    case EmitChange(change) => WithChangeOutput(tx, change, env)
  }

  /** Parent records for the inputs of `after` beyond those of `before`, from the outputs they spend. */
  function AddedParents(before: TxValue, after: TxValue): seq<Parent>
  {
    var k := |before.inputs|;
    var extra := if |after.inputs| <= k then 0 else |after.inputs| - k;
    seq(extra, i requires 0 <= i < extra => SpentAsParent(after.inputs[k + i]))
  }

  /** The parent record of an input: the value of the output it spends, when known. */
  function SpentAsParent(input: Input): Parent
  {
    match input.spent
    case Some(o) => Parent(o.satoshis)
    case None => Parent(0)
  }

  /**
   * After a successful `pay`, the value brought in (the parents plus the
   * funding input) minus the value paid out is at least the estimated fee and
   * exceeds it by less than the dust limit; in the exact-funding and change
   * branches it equals the estimated fee.
   */
  lemma FundedFeeWithinDust(tx: TxValue, size: nat, parents: seq<Parent>, env: Collaborators)
    requires Funded(tx, size, parents, env).Success?
    ensures var after := Funded(tx, size, parents, env).value;
            var implicitFee := Sum(ParentValues(parents + AddedParents(tx, after))) - Sum(OutputValues(after.outputs));
            FundingFee(size) <= implicitFee < FundingFee(size) + DUST_LIMIT
    ensures var after := Funded(tx, size, parents, env).value;
            var n := CostToFund(tx.outputs, size, parents);
            var implicitFee := Sum(ParentValues(parents + AddedParents(tx, after))) - Sum(OutputValues(after.outputs));
            n > DUST_LIMIT || n <= -(DUST_LIMIT as int) ==> implicitFee == FundingFee(size)
  {
    var after := Funded(tx, size, parents, env).value;
    var n := CostToFund(tx.outputs, size, parents);
    match Decide(n)
    case RequestInput(amount) =>
      assert AppendsFundingInput(tx, amount, env, after);
      assert SpentAsParent(after.inputs[|tx.inputs|]) == Parent(amount);
      assert AddedParents(tx, after) == [Parent(amount)];
      ParentValuesSnoc(parents, Parent(amount));
    case KeepAsIs =>
      assert AddedParents(tx, after) == [];
      assert parents + [] == parents;
    case EmitChange(change) =>
      assert AddedParents(tx, after) == [];
      assert parents + [] == parents;
      OutputValuesSnoc(tx.outputs, after.outputs[|tx.outputs|]);
      assert after.outputs == tx.outputs + [after.outputs[|tx.outputs|]];
  }

  /**
   * A paymail client that honours the protocol's checks, in this order: an
   * unknown handle, then a missing sender handle, signature or timestamp,
   * each rejected with its reason; otherwise the handle's output script.
   */
  function ReferenceGetOutputFor(knownHandle: string, script: Script, handle: string, data: SenderData): (r: Result<Script, string>)
    ensures r.Success? <==> handle == knownHandle && data.senderHandle != "" && data.signature != "" && data.dt != ""
    ensures r.Success? ==> r.value == script
    ensures handle != knownHandle ==> r == Failure("Invalida paymail: " + handle)
  {
    if handle != knownHandle then Failure("Invalida paymail: " + handle)
    else if data.senderHandle == "" then Failure("missing senderHandle")
    else if data.signature == "" then Failure("missing signature")
    else if data.dt == "" then Failure("missing dt")
    else Success(script)
  }

  /**
   * Against such a client, change emission succeeds exactly when the first
   * `userPaymail` operation carries the client's known, non-empty handle (the
   * self-payment request always supplies a signature and a timestamp), and
   * then pays the change to that handle's script.
   */
  lemma ChangeAgainstReferenceClient(tx: TxValue, change: nat, env: Collaborators, knownHandle: string, script: Script)
    requires env.now != ""
    requires forall h, d :: env.getOutputFor(h, d) == ReferenceGetOutputFor(knownHandle, script, h, d)
    ensures var ops := env.swipeIdentity(IdentityRequest());
            WithChangeOutput(tx, change, env).Success? <==>
              exists k :: IsFirstMatch(ops, IsUserPaymail, k) && ops[k].value == knownHandle && knownHandle != ""
    ensures WithChangeOutput(tx, change, env).Success? ==>
              WithChangeOutput(tx, change, env).value == TxValue(tx.inputs, tx.outputs + [Output(script, change)])
  {
    var ops := env.swipeIdentity(IdentityRequest());
    var found := FindIndex(ops, IsUserPaymail);
    if found.Some? {
      var k := found.value;
      forall k' | IsFirstMatch(ops, IsUserPaymail, k') ensures k' == k {
        assert !(k' < k) && !(k < k');
      }
      var answer := env.getOutputFor(ops[k].value, SelfPayment(ops[k].value, env.now));
      assert answer == ReferenceGetOutputFor(knownHandle, script, ops[k].value, SelfPayment(ops[k].value, env.now));
    }
  }

  /**
   * A funds source that pays the request in its first output (as a direct
   * payment to the one-time address does) always funds the transaction: the
   * funding input spends output 0 of that payment, for the requested amount.
   */
  lemma FundingFromDirectPayment(tx: TxValue, amount: nat, env: Collaborators)
    requires var payment := env.swipePayment(FundingRequest(env, amount));
             |payment.outputs| > 0 && PaysTransient(env, payment.outputs[0])
    ensures var r := WithFundingInput(tx, amount, env);
            var payment := env.swipePayment(FundingRequest(env, amount));
            && r.Success?
            && |r.value.inputs| == |tx.inputs| + 1
            && r.value.inputs[|tx.inputs|].prevTxid == payment.txid
            && r.value.inputs[|tx.inputs|].outputIndex == 0
            && r.value.inputs[|tx.inputs|].spent == Some(Output(payment.outputs[0].script, amount))
  {
  }

  /** `_addInput`: appends and signs the funding input on `txToPay` in place. */
  method AddInput(txToPay: Transaction, amount: nat, env: Collaborators) returns (r: Result<TxValue, Error>)
    modifies txToPay
    ensures r == WithFundingInput(old(txToPay.Value()), amount, env)
    ensures txToPay.Value() == if r.Success? then r.value else old(txToPay.Value())
  {
    var transientAddress := env.transientAddress;
    var payment := env.swipePayment(PaymentRequest(transientAddress, amount, CURRENCY));
    var paysTransient := o => PaysTransient(env, o);
    var utxo := Find(payment.outputs, paysTransient);
    var vout := FindIndex(payment.outputs, paysTransient);
    FindAtFindIndex(payment.outputs, paysTransient);
    if utxo.None? {
      return Failure(FundingSourceMismatch);
    }
    txToPay.From(UnspentOutput(payment.txid, vout.value, amount, utxo.value.script));
    var inputIndex := |txToPay.inputs| - 1;
    var unlocking := env.sign(txToPay.Value(), inputIndex);
    txToPay.AddSignature(inputIndex, unlocking);
    r := Success(txToPay.Value());
  }

  /** `_addChangeOutput`: appends the change output on `tx` in place. */
  method AddChangeOutput(tx: Transaction, change: nat, env: Collaborators) returns (r: Result<TxValue, Error>)
    modifies tx
    ensures r == WithChangeOutput(old(tx.Value()), change, env)
    ensures tx.Value() == if r.Success? then r.value else old(tx.Value())
  {
    var cryptoOperations := env.swipeIdentity(IdentityRequest());
    var userPaymail := Find(cryptoOperations, IsUserPaymail);
    if userPaymail.None? {
      return Failure(IdentityUnavailable);
    }
    var handle := userPaymail.value.value;
    var output := env.getOutputFor(handle, SelfPayment(handle, env.now));
    if output.Failure? {
      return Failure(ResolutionFailed(output.error));
    }
    tx.To(output.value, change);
    r := Success(tx.Value());
  }

  /** `pay`: decodes the transaction, estimates the need and carries out the decision. */
  method Pay(encoded: TxValue, size: nat, parents: seq<Parent>, env: Collaborators) returns (r: Result<TxValue, Error>)
    ensures r == Funded(encoded, size, parents, env)
  {
    var txToPay := new Transaction(encoded);
    var satoshisNeeded := CostToFund(txToPay.outputs, size, parents);
    if satoshisNeeded > DUST_LIMIT as int {
      r := AddInput(txToPay, satoshisNeeded, env);
    } else if satoshisNeeded > 0 {
      r := AddInput(txToPay, DUST_LIMIT, env);
    } else if satoshisNeeded > -(DUST_LIMIT as int) {
      r := Success(encoded);
    } else {
      r := AddChangeOutput(txToPay, -satoshisNeeded, env);
    }
  }
}
