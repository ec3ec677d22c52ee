# UTXO transaction handler — a Dafny model

This project models the admission logic of a simplified unspent-output (UTXO)
ledger, the `TxHandler` class. The handler owns a pool mapping output
references (producing transaction hash, output index) to outputs (value,
owner address). It decides whether a single transaction is valid against that
pool. It also admits a batch of transactions in one greedy left-to-right pass,
and every accepted transaction updates the pool before the next one is
checked.

Files:

- `ledger.dfy`, module `Ledger`: the value types. These are `UTXO`, `Output`,
  `Input`, `Transaction`, the pool as `map<UTXO, Output>`, and `Primitives`.
  `Primitives` bundles the two external collaborators as function-valued
  parameters: the signature verifier, and the transaction's per-input message
  to sign.
- `tx_handler_spec.dfy`, module `TxHandlerSpec`: the specification as pure
  functions.
  - `ValidTx` is the conjunction of the five documented conditions.
  - `Apply` is the effect of one accepted transaction on the pool.
  - `HandleSpec` is the batch, written as a left fold of `Step` over a `ScanState` (the accepted list so far and the current pool).
  - The module also holds the lemmas about the batch.
- `tx_handler.dfy`, module `Handler`: the class `TxHandler`. Its field
  `publicLedger` is the pool. `IsValidTx` and `HandleTxs` are written as the
  source's loops and proved against the functions above.
- `scenarios.dfy`, module `Scenarios`: three worked batches, proved as lemmas.

## Model

| member | source | states |
|---|---|---|
| `Handler.TxHandler.constructor` | src/com/harshad/bitCoinCoursera/week1/TxHandler.java:16-18 | The handler's pool equals the caller's pool. It is a value, so the two are never shared. |
| `Handler.TxHandler.IsValidTx` | src/com/harshad/bitCoinCoursera/week1/TxHandler.java:20-52 | The result is true exactly when all five conditions hold. (1) Every claimed output is in the pool. (2) Every input's signature verifies against the claimed output's address and that input's signed message. (3) No UTXO is claimed twice. (4) No output value is negative. (5) The claimed inputs' total is at least the outputs' total. The method has no modifies clause, so it never changes the pool. |
| `Handler.CheckTwice` | src/com/harshad/bitCoinCoursera/week1/TxHandler.java:29-52 | Two validity checks in a row give the same answer, and that answer is the pool's verdict. |
| `Handler.TxHandler.ApplyTx` | src/com/harshad/bitCoinCoursera/week1/TxHandler.java:64-72 | Removing each claimed key and then adding each output leaves the pool equal to `Apply` of the old pool. |
| `Handler.TxHandler.HandleTxs` | src/com/harshad/bitCoinCoursera/week1/TxHandler.java:59-75 | The returned list and the new pool are exactly the result of the left-to-right fold `HandleSpec` from the old pool. |
| `TxHandlerSpec.Apply` | src/com/harshad/bitCoinCoursera/week1/TxHandler.java:64-72 | A spent key is absent afterwards unless the transaction's own outputs re-create it. Key (tx.hash, j) maps to `outputs[j]` for every j. Every other key is unchanged, both in presence and in value. |
| `TxHandlerSpec.AcceptedAreTheValidOnes` | src/com/harshad/bitCoinCoursera/week1/TxHandler.java:60-63 | The accepted list is the batch filtered by one verdict per transaction. Each verdict is whether that transaction was valid against the pool as it stood when the scan reached it. |
| `TxHandlerSpec.SelectIsSubsequence` | src/com/harshad/bitCoinCoursera/week1/TxHandler.java:60-63 | Filtering a sequence keeps the relative order of what it keeps. |
| `TxHandlerSpec.AcceptedIsSubsequence` | src/com/harshad/bitCoinCoursera/week1/TxHandler.java:59-75 | The accepted transactions form a subsequence of the batch, in input order. |
| `TxHandlerSpec.AllRejectedChangesNothing` | src/com/harshad/bitCoinCoursera/week1/TxHandler.java:61-62 | If every transaction is invalid against the starting pool, nothing is accepted and the pool is unchanged. |
| `TxHandlerSpec.KeySpentAtMostOnce` | src/com/harshad/bitCoinCoursera/week1/TxHandler.java:61-72 | Take a key that no transaction of the batch can re-create. The number of accepted transactions claiming it, plus one if it is still unspent at the end, equals one if it was unspent at the start and zero otherwise. |
| `TxHandlerSpec.NoDoubleSpendInBatch` | src/com/harshad/bitCoinCoursera/week1/TxHandler.java:61-72 | A key that the batch does not re-create is claimed by at most one accepted transaction. It is claimed by none if it was not in the starting pool. |
| `Scenarios.SingleSpend` | src/com/harshad/bitCoinCoursera/week1/TxHandler.java:59-75 | Spending a 10-unit output into outputs of 4 and 5 is valid. The batch `[t1]` returns `[t1]` and leaves exactly the two new outputs. |
| `Scenarios.OrderMatters` | src/com/harshad/bitCoinCoursera/week1/TxHandler.java:61-72 | `t2` spends an output of `t1`. The batch `[t2, t1]` accepts only `[t1]`, and the batch `[t1, t2]` accepts both. |
| `Scenarios.OverspendRejected` | src/com/harshad/bitCoinCoursera/week1/TxHandler.java:50 | Outputs worth more than the claimed input are rejected, and the pool is unchanged. |

## Left out

- Floating point: `value`, `inputSum` and `outputValue` are `double` in the source. They are modelled as `real`, so rounding in the sums is not modelled. NaN and infinite amounts are not modelled either. This changes the Java verdict: `output.value < 0` is false for NaN, so a NaN output passes the non-negativity check even though the documentation requires every output to be non-negative. `outputValue` then becomes NaN, and `inputSum < outputValue` is false whenever either side is NaN, so such a transaction is accepted and its NaN output enters the pool. A later transaction that spends a NaN-valued entry makes `inputSum` NaN, and its outputs then pass the value check whatever their size. The model's `ValidTx` over `real` accepts none of these.
- `Crypto.verifySignature` and `Transaction.getRawDataToSign` are foreign code. They are parameters of the model (`Primitives`) with no properties assumed. `Transaction.getHash` is modelled as a stored `hash` field.
- The internals of `UTXOPool`, `UTXO` and `Transaction` are not part of this model. `getTxOutput`, `removeUTXO` and `addUTXO` become map lookup, key removal and map update (an update overwrites). Equality and hashing of `UTXO`, including the `HashSet` of seen keys, become datatype value equality.
- The copy made by the constructor is not a separate object. The pool is a map value, so no aliasing can arise.
- `possibleTxs` is a Java array that is only read, so the model takes it as a sequence. The conversion of the `ArrayList` result to an array is not modelled.
- Java object identity and the allocation of `UTXO` objects are not modelled.
- The batch algorithm's removal and addition loops are a separate method, `ApplyTx`, in the model. The source inlines them in `handleTxs`.
- The documentation of `handleTxs` calls its argument an "unordered array". The code processes it in index order, and the model follows the code.
- KeySpentAtMostOnce, NoDoubleSpendInBatch: both assume that no transaction of the batch has the key's producing hash. That is, hashes are taken to be fresh. Nothing in the source guarantees this, because hashing is foreign.
