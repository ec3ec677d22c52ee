/**
  Worked batches: a single spend, two batches that differ only in order, and
  a transaction whose outputs exceed its inputs.
 */
module Scenarios {
  import opened Ledger
  import opened TxHandlerSpec

  const OWNER_K := PublicKey([11])
  const OWNER_A := PublicKey([12])
  const OWNER_B := PublicKey([13])
  const OWNER_C := PublicKey([14])

  /** Key X, an unspent output worth 10 owned by K. */
  const REF_X := UTXO([1], 0)
  const POOL_X: Pool := map[REF_X := Output(10.0, OWNER_K)]

  /** t1 spends X into 4 for A and 5 for B. */
  const T1 := Transaction([2], [Input([1], 0, [21])], [Output(4.0, OWNER_A), Output(5.0, OWNER_B)])

  /** t2 spends t1's first output into 3 for C. */
  const T2 := Transaction([3], [Input([2], 0, [22])], [Output(3.0, OWNER_C)])

  /** t3 claims X but promises 11. */
  const T3 := Transaction([4], [Input([1], 0, [23])], [Output(11.0, OWNER_A)])

  lemma SingleSpend(p: Primitives)
    requires p.verifySignature(OWNER_K, p.rawDataToSign(T1, 0), [21])
    ensures ValidTx(POOL_X, T1, p)
    ensures HandleSpec(POOL_X, [T1], p)
         == ScanState([T1], map[UTXO([2], 0) := Output(4.0, OWNER_A), UTXO([2], 1) := Output(5.0, OWNER_B)])
  {
    assert [T1][..0] == [];
    assert ClaimedValue(POOL_X, T1.inputs) == 10.0 by {
      assert T1.inputs[..0] == [];
    }
    assert OutputSum(T1.outputs) == 9.0 by {
      assert T1.outputs[..1][..0] == [];
      assert OutputSum(T1.outputs[..1]) == 4.0;
    }
    var created := map[UTXO([2], 0) := Output(4.0, OWNER_A), UTXO([2], 1) := Output(5.0, OWNER_B)];
    assert Claimed(T1) == {REF_X};
    assert Created(T1) == created;
  }

  lemma OrderMatters(p: Primitives)
    requires p.verifySignature(OWNER_K, p.rawDataToSign(T1, 0), [21])
    requires p.verifySignature(OWNER_A, p.rawDataToSign(T2, 0), [22])
    ensures HandleSpec(POOL_X, [T2, T1], p).accepted == [T1]
    ensures HandleSpec(POOL_X, [T1, T2], p).accepted == [T1, T2]
  {
    SingleSpend(p);
    assert !ValidTx(POOL_X, T2, p);
    assert [T2, T1][..1] == [T2] && [T2][..0] == [];
    assert [T1, T2][..1] == [T1];
    var after := Apply(POOL_X, T1);
    assert UtxoOf(T2.inputs[0]) in after;
    assert ClaimedValue(after, T2.inputs) == 4.0 by {
      assert T2.inputs[..0] == [];
    }
    assert OutputSum(T2.outputs) == 3.0 by {
      assert T2.outputs[..0] == [];
    }
    assert ValidTx(after, T2, p);
  }

  lemma OverspendRejected(p: Primitives)
    ensures HandleSpec(POOL_X, [T3], p) == ScanState([], POOL_X)
  {
    assert [T3][..0] == [];
    if AllClaimedInPool(POOL_X, T3) {
      assert ClaimedValue(POOL_X, T3.inputs) == 10.0 by {
        assert T3.inputs[..0] == [];
      }
      assert OutputSum(T3.outputs) == 11.0 by {
        assert T3.outputs[..0] == [];
      }
    }
  }
}
