/**
  The transaction handler: it owns a UTXO pool, checks single transactions
  against it and admits batches, updating the pool as it goes.
 */
module Handler {
  import opened Ledger
  import opened TxHandlerSpec

  class TxHandler {
    /** The handler's own pool of unspent outputs. */
    var publicLedger: Pool
    /** The signature verifier and signed-message encoding it relies on. */
    const primitives: Primitives

    /** Starts from a copy of the caller's pool; being a value, later changes
        on either side are not shared. */
    constructor (utxoPool: Pool, primitives: Primitives)
      ensures publicLedger == utxoPool
      ensures this.primitives == primitives
    {
      publicLedger := utxoPool;
      this.primitives := primitives;
    }

    /** One pass over the inputs (present, signed, not claimed twice, summed),
        one over the outputs (non-negative, summed), then the value check. It
        changes nothing. */
    method IsValidTx(tx: Transaction) returns (valid: bool)
      ensures valid == ValidTx(publicLedger, tx, primitives)
    {
      var index := 0;
      var inputSum := 0.0;
      var uniqueUtxos: set<UTXO> := {};
      while index < |tx.inputs|
        invariant 0 <= index <= |tx.inputs|
        invariant forall i :: 0 <= i < index ==> UtxoOf(tx.inputs[i]) in publicLedger
        invariant forall i :: 0 <= i < index ==>
          primitives.verifySignature(publicLedger[UtxoOf(tx.inputs[i])].address,
                                     primitives.rawDataToSign(tx, i), tx.inputs[i].signature)
        invariant forall i, j :: 0 <= i < j < index ==> UtxoOf(tx.inputs[i]) != UtxoOf(tx.inputs[j])
        invariant uniqueUtxos == ClaimedUpTo(tx, index)
        invariant inputSum == ClaimedValue(publicLedger, tx.inputs[..index])
      {
        var input := tx.inputs[index];
        var utxo := UTXO(input.prevTxHash, input.outputIndex);
        if utxo !in publicLedger {
          return false;
        }
        var output := publicLedger[utxo];
        if !primitives.verifySignature(output.address, primitives.rawDataToSign(tx, index), input.signature) {
          return false;
        }
        if utxo in uniqueUtxos {
          return false;
        }
        uniqueUtxos := uniqueUtxos + {utxo};
        assert tx.inputs[..index + 1][..index] == tx.inputs[..index];
        inputSum := inputSum + output.value;
        index := index + 1;
      }
      assert tx.inputs[..index] == tx.inputs;

      var outputValue := 0.0;
      var j := 0;
      while j < |tx.outputs|
        invariant 0 <= j <= |tx.outputs|
        invariant forall k :: 0 <= k < j ==> tx.outputs[k].value >= 0.0
        invariant outputValue == OutputSum(tx.outputs[..j])
      {
        var output := tx.outputs[j];
        if output.value < 0.0 {
          return false;
        }
        assert tx.outputs[..j + 1][..j] == tx.outputs[..j];
        outputValue := outputValue + output.value;
        j := j + 1;
      }
      assert tx.outputs[..j] == tx.outputs;

      if inputSum < outputValue {
        return false;
      }
      return true;
    }

    /** Accepts tx into the pool: removes every key its inputs claim, then
        adds one entry per output keyed by the transaction's hash and the
        output's position. */
    method ApplyTx(tx: Transaction)
      modifies this
      ensures publicLedger == Apply(old(publicLedger), tx)
    {
      var k := 0;
      while k < |tx.inputs|
        invariant 0 <= k <= |tx.inputs|
        invariant publicLedger == old(publicLedger) - ClaimedUpTo(tx, k)
      {
        var input := tx.inputs[k];
        publicLedger := publicLedger - {UTXO(input.prevTxHash, input.outputIndex)};
        ClaimedUpToStep(tx, k);
        k := k + 1;
      }
      ghost var removed := publicLedger;
      var index := 0;
      while index < |tx.outputs|
        invariant 0 <= index <= |tx.outputs|
        invariant publicLedger == removed + CreatedUpTo(tx, index)
      {
        publicLedger := publicLedger[UTXO(tx.hash, index) := tx.outputs[index]];
        CreatedUpToStep(removed, tx, index);
        index := index + 1;
      }
    }

    /** Scans the batch left to right; each transaction valid against the
        current pool is kept and applied at once, so later transactions see
        its effect. */
    method HandleTxs(possibleTxs: seq<Transaction>) returns (accepted: seq<Transaction>)
      modifies this
      ensures ScanState(accepted, publicLedger) == HandleSpec(old(publicLedger), possibleTxs, primitives)
    {
      var valids: seq<Transaction> := [];
      var i := 0;
      while i < |possibleTxs|
        invariant 0 <= i <= |possibleTxs|
        invariant ScanState(valids, publicLedger) == HandleSpec(old(publicLedger), possibleTxs[..i], primitives)
      {
        var tx := possibleTxs[i];
        var ok := IsValidTx(tx);
        if ok {
          valids := valids + [tx];
          ApplyTx(tx);
        }
        assert possibleTxs[..i + 1][..i] == possibleTxs[..i];
        i := i + 1;
      }
      assert possibleTxs[..i] == possibleTxs;
      accepted := valids;
    }
  }

  /** A caller that checks the same transaction twice: with nothing changed
      in between, both answers agree and are the pool's verdict. */
  method CheckTwice(h: TxHandler, tx: Transaction) returns (first: bool, second: bool)
    ensures first == second
    ensures first == ValidTx(h.publicLedger, tx, h.primitives)
  {
    first := h.IsValidTx(tx);
    second := h.IsValidTx(tx);
  }
}
