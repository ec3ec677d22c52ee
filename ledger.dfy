/**
  The values a UTXO ledger is made of: output references (UTXO keys), outputs,
  inputs, transactions and the pool of unspent outputs. A UTXO key compares by
  value (its hash bytes and its index), which is what the pool's keys and the
  set of keys already claimed by a transaction rely on.
 */
module Ledger {

  newtype byte = x: int | 0 <= x < 256

  type Bytes = seq<byte>

  /** An owner identity (a public key), compared by its encoding. */
  datatype PublicKey = PublicKey(encoding: Bytes)

  /** A reference to one output: the hash of the producing transaction and
      the position of the output among that transaction's outputs. */
  datatype UTXO = UTXO(txHash: Bytes, index: int)

  /** A spendable amount and the identity allowed to spend it. */
  datatype Output = Output(value: real, address: PublicKey)

  /** A claim on an earlier output, with the signature that authorises it. */
  datatype Input = Input(prevTxHash: Bytes, outputIndex: int, signature: Bytes)

  datatype Transaction = Transaction(hash: Bytes, inputs: seq<Input>, outputs: seq<Output>)

  /** The unspent-output set: UTXO key to the output it denotes. */
  type Pool = map<UTXO, Output>

  /** The collaborators the admission logic calls but does not define: the
      signature verifier (public key, message, signature) and the transaction's
      canonical message for the input at a given position. No property of
      either is assumed. */
  datatype Primitives = Primitives(
    verifySignature: (PublicKey, Bytes, Bytes) -> bool,
    rawDataToSign: (Transaction, nat) -> Bytes)

  /** The pool key an input claims. */
  function UtxoOf(input: Input): UTXO
  {
    UTXO(input.prevTxHash, input.outputIndex)
  }
}
