# mb-purse: the funding-decision engine of a Money Button purse

`MBPurse.pay(hexTx, parents)` takes a partly built Bitcoin SV transaction and
the values of the outputs its inputs spend, and returns the transaction
funded. It estimates the signed number of satoshis still needed (fee at
0.5 satoshi per byte over the serialized size plus a 160-byte allowance for
the funding input, plus the value paid out, minus the value brought in) and
then, with the dust limit of 547 satoshis:

- above the dust limit, asks the funds source (`imb.swipe`) for exactly the need
  and appends one signed input spending the payment it gets back;
- above zero, asks for exactly the dust limit instead;
- above minus the dust limit, returns the encoding it was given;
- otherwise resolves the user's own paymail to an output script and appends
  one change output of the whole surplus.

The model has six modules:

- `Wrappers`: `Option` and `Result`.
- `ArrayOps`: the JavaScript `reduce`, `find` and `findIndex` the source uses,
  each tied to a reference definition.
- `Transactions`: the transaction as a value (`TxValue`) and as the object
  the purse changes in place (`class Transaction`, with `From`, `To` and
  `AddSignature` for the library's `from`, `to` and `addSignature`).
- `Estimator`: `calculateCostToFundTx`.
- `Policy`: the four-way decision of `pay`.
- `Purse`: the two actions and `pay`.

The three methods `AddInput`, `AddChangeOutput` and `Pay` work on a
`Transaction` object the way the source does. Each is proved against a
function on values (`WithFundingInput`, `WithChangeOutput`, `Funded`).
Everything the purse calls but does not implement is a field of a
`Collaborators` value:
- the funds source's two kinds of answer;
- the paymail client;
- the address of the freshly generated key;
- address derivation from a script;
- the signing step;
- the clock.

One behaviour of the code is modelled as written: the funding input claims
the amount that was requested (src/mb-purse.js:56), not the value of the
payment output it spends.

Failures and the choice of funding output:
- The code does not name its failures. It throws a `TypeError` when `find`
  yields `undefined`, or passes on the paymail client's own error. The model
  names them `FundingSourceMismatch`, `IdentityUnavailable` and
  `ResolutionFailed`, and keeps the client's reason.
- The code takes the first output that pays the one-time address, and the
  model does too.

## Model

| member | source | states |
|---|---|---|
| `ArrayOps.ReduceIsSum` | src/mb-purse.js:6-11 | the `reduce((total, current) => total + current, 0)` left fold equals the reference sum of the values |
| `ArrayOps.FindIndex` | src/mb-purse.js:50 | returns the index of the first element satisfying the predicate, and none (the `-1`) exactly when no element does |
| `ArrayOps.FindAtFindIndex` | src/mb-purse.js:49-50 | `find` and `findIndex` with the same predicate miss together, and the element found is the one at the index found |
| `Estimator.FeeFor` | src/mb-purse.js:1-12 | the fee is the least whole number of satoshis at or above half the byte count (`Math.ceil(bytes * 0.5)`) |
| `Estimator.FundingFee` | src/mb-purse.js:5-12 | the fee term for a transaction of `size` bytes is the least whole satoshi amount at or above half of `size + 160`, i.e. `(size + 160 + 1) div 2`, the 160 bytes standing for the funding input |
| `Estimator.CostToFund` | src/mb-purse.js:4-15 | net need = rounded fee + sum of output values − sum of parent values; only the fee is rounded; with no outputs and no parents it is the fee term alone |
| `Policy.Decide` | src/mb-purse.js:2-36 | exactly one decision per need: an input exactly when the need is positive, of the larger of the need and 547; nothing when the need lies in (−547, 0]; change of exactly −need (≥ 547) when the need is ≤ −547; every decision covers the need and overshoots it by less than 547 |
| `Purse.WithFundingInput` | src/mb-purse.js:39-67 | fails with `FundingSourceMismatch` exactly when no output of the payment pays the one-time address; otherwise appends exactly one input (last), spending the payment's txid at the first paying output, claiming the requested amount with that output's script, signed over the transaction it now belongs to; earlier inputs and all outputs unchanged |
| `Purse.WithChangeOutput` | src/mb-purse.js:69-89 | fails with `IdentityUnavailable` when no crypto operation is named `userPaymail`; for the first one, sends the self-payment request (sender handle = handle, signature placeholder, timestamp); propagates the client's rejection as `ResolutionFailed`; otherwise appends exactly one output of the change to the resolved script, inputs unchanged |
| `Purse.Funded` | src/mb-purse.js:24-37 | need > 547: the funding round for exactly the need; 0 < need ≤ 547: the round for 547; −547 < need ≤ 0: the transaction unchanged; need ≤ −547: the change round for −need; on success an underfunded transaction gains exactly one input and keeps its outputs, an overfunded one gains exactly one last output of −need ≥ 547 and keeps its inputs |
| `Purse.FundedFeeWithinDust` | src/mb-purse.js:4-36 | after a successful `pay`, value brought in (parents plus the funding input) minus value paid out is at least the estimated fee and less than that fee + 547; it equals the fee exactly in the exact-funding and change branches |
| `Purse.ReferenceGetOutputFor` | test/mb-purse-test.js:16-32 | a protocol-honouring paymail client answers with the script exactly when the handle is the known one and sender handle, signature and timestamp are all present |
| `Purse.ChangeAgainstReferenceClient` | src/mb-purse.js:78-87 | against that client (and a non-empty timestamp), change emission succeeds exactly when the first `userPaymail` operation carries the known, non-empty handle, and then pays the change to that handle's script |
| `Purse.FundingFromDirectPayment` | src/mb-purse.js:42-58 | a payment whose first output pays the one-time address always funds the transaction, with an input spending output 0 of that payment's txid for the requested amount |
| `Purse.AddInput` | src/mb-purse.js:39-67 | in place: returns `WithFundingInput` of the old transaction, and the object holds that result on success and is unchanged on failure |
| `Purse.AddChangeOutput` | src/mb-purse.js:69-89 | in place: returns `WithChangeOutput` of the old transaction, and the object holds that result on success and is unchanged on failure |
| `Purse.Pay` | src/mb-purse.js:24-37 | decodes into a fresh transaction object, branches on the need with the thresholds 547, 0, −547 in that order, and returns `Funded` |
| `Transactions.Transaction.constructor` | src/mb-purse.js:25 | the new object holds exactly the decoded transaction |
| `Transactions.Transaction.From` | src/mb-purse.js:51-59 | appends one unsigned input for the unspent output (txid, vout, satoshis, script); outputs unchanged |
| `Transactions.Transaction.AddSignature` | src/mb-purse.js:61-65 | changes only the unlocking script of the input at the given index |
| `Transactions.Transaction.To` | src/mb-purse.js:87 | appends one output of the given value; inputs unchanged |

## Left out

- Network calls: `imb.swipe` (both uses) and `pmClient.getOutputFor` are answers in `Collaborators`. The async sequencing and the network errors these calls may raise are not modelled.
- Key generation, address derivation and signing: `PrivateKey.fromRandom`, `toAddress`, `Hash.sha256ripemd160`, `getSignatures` with sighash `0x01 | 0x40`. These are foreign crypto calls. The random key is given as its address. Signing is an opaque function of the unsigned transaction and the input index, and its result becomes that input's unlocking script.
- Serialization: the given encoding is identified with the transaction it decodes to, and `toBuffer().byteLength` is the parameter `size`. So the unchanged branch returning `hexTx` is returning the given value.
- `Purse.Funded`, `Purse.Pay`: a successful result is the transaction as the library holds it in memory before `uncheckedSerialize`, not what the returned encoding decodes to. The encoding does not carry the output an input spends, so decoding it loses the funding input's `spent` value that `Purse.FundedFeeWithinDust` reads.
- `Transactions.Transaction.From` and `To`: the library's own checks inside `from` and `to` are not modelled. These include skipping an input that is already present and validating amounts.
- `Purse.WithChangeOutput`: `Script.fromHex(output).toAddress()` followed by `to(address, …)` is modelled as paying the resolved script itself. This is exact only for pay-to-public-key-hash scripts.
- `Purse.Funded`: the amount is requested through `satoshisNeeded.toString()`, which is modelled as the number itself.
- `Estimator.CostToFund`: JavaScript numbers are modelled as unbounded integers. The fee product `(size + 160) * 0.5` and the sums are exact only below 2^53. The model takes integer parent values only. In the source, string values make `reduce` concatenate (`"500"` and `"300"` give `"0500300"`, which the subtraction turns into 500300). A `null` value counts as 0, and a missing value gives `NaN`.
- `Purse.ReferenceGetOutputFor`: JavaScript falsiness is reduced to the empty string, because the model has no `undefined` or `null` fields.
