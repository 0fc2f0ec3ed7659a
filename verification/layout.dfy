/**
 * The reserved "meta" keys. The last `numMetaKeys` keys of the table carry
 * control signals instead of embeddings; the first five of them are, in
 * order, the stop flag, the entity and relation optimizer step counters and
 * the entity and relation learning rates.
 */
module Layout {

  /** The two parameter groups that own an optimizer counter and a learning rate. */
  datatype Group = Entity | Relation {
    function Other(): Group {
      if this == Entity then Relation else Entity
    }
  }

  datatype MetaKeys = MetaKeys(stop: int, entityStep: int, relationStep: int, entityLr: int, relationLr: int)
  {
    /** The five keys in offset order. */
    function Keys(): seq<int> {
      [stop, entityStep, relationStep, entityLr, relationLr]
    }

    function StepKey(g: Group): int {
      if g == Entity then entityStep else relationStep
    }

    function LrKey(g: Group): int {
      if g == Entity then entityLr else relationLr
    }
  }

  /** Number of control signals that live in the meta region. */
  const SignalCount := 5

  /** First key that is not an embedding key. */
  function MetaBase(numKeys: int, numMetaKeys: int): int {
    numKeys - numMetaKeys
  }

  /** Embedding keys are exactly the keys below the meta region. */
  predicate IsEmbeddingKey(numKeys: int, numMetaKeys: int, k: int) {
    0 <= k < MetaBase(numKeys, numMetaKeys)
  }

  /**
   * The meta keys computed from the key count and the size of the meta
   * region (the Lapse and shared-memory clients use all five, the
   * command client only the stop key).
   */
  function Compute(numKeys: int, numMetaKeys: int): (m: MetaKeys)
    ensures |m.Keys()| == SignalCount
    ensures forall i :: 0 <= i < SignalCount ==> m.Keys()[i] == MetaBase(numKeys, numMetaKeys) + i
    ensures forall i, j :: 0 <= i < j < SignalCount ==> m.Keys()[i] != m.Keys()[j]
    ensures forall i :: 0 <= i < SignalCount ==> !IsEmbeddingKey(numKeys, numMetaKeys, m.Keys()[i])
    ensures (forall i :: 0 <= i < SignalCount ==> 0 <= m.Keys()[i] < numKeys)
            <==> SignalCount <= numMetaKeys <= numKeys
  {
    var base := MetaBase(numKeys, numMetaKeys);
    var m := MetaKeys(base, base + 1, base + 2, base + 3, base + 4);
    assert m.Keys()[0] == base && m.Keys()[4] == base + 4;
    m
  }

  /** With exactly five meta keys the signals occupy the last five keys. */
  lemma LastFiveKeys(numKeys: int)
    ensures forall k :: k in Compute(numKeys, SignalCount).Keys() <==> numKeys - SignalCount <= k < numKeys
  {
  }

  /** A group's step key and learning-rate key, and the two groups' keys, never coincide. */
  lemma GroupKeysDistinct(numKeys: int, numMetaKeys: int, g: Group)
    ensures var m := Compute(numKeys, numMetaKeys);
      && m.StepKey(g) != m.StepKey(g.Other())
      && m.LrKey(g) != m.LrKey(g.Other())
      && m.StepKey(g) != m.LrKey(g) && m.StepKey(g) != m.LrKey(g.Other())
      && m.stop != m.StepKey(g) && m.stop != m.LrKey(g)
  {
  }

  /** The concrete layout for 107 keys with a 5-key meta region. */
  lemma Layout107()
    ensures Compute(107, 5) == MetaKeys(102, 103, 104, 105, 106)
  {
  }
}
