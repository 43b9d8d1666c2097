/** Transactions and the value checks on them (src/uhs/transaction/validation.cpp). Values are
    64-bit, and sums wrap around where the source's do. */
module Transactions {
  import opened Basics

  const TWO64: nat := 0x1_0000_0000_0000_0000

  function Wrap(x: nat): (w: nat)
    ensures w < TWO64
  {
    x % TWO64
  }

  datatype OutPoint = OutPoint(txId: nat, index: nat)

  datatype Output = Output(commitment: nat, value: nat)

  datatype Input = Input(point: OutPoint, data: Output)

  /** `witnesses` is the number of witnesses; what they say is not modelled. */
  datatype Tx = Tx(inputs: seq<Input>, outputs: seq<Output>, witnesses: nat)

  datatype TxError = NoInputs | NoOutputs | MissingWitness | Duplicate(idx: nat)
                   | ZeroInput(idx: nat) | ZeroOutput(idx: nat) | ValueOverflow | AsymmetricValues

  function InValues(s: seq<Input>): (v: seq<nat>)
    ensures |v| == |s|
  {
    seq(|s|, i requires 0 <= i < |s| => s[i].data.value)
  }

  function OutValues(s: seq<Output>): (v: seq<nat>)
    ensures |v| == |s|
  {
    seq(|s|, i requires 0 <= i < |s| => s[i].value)
  }

  function Sum(v: seq<nat>): nat { if v == [] then 0 else Sum(v[..|v| - 1]) + v[|v| - 1] }

  predicate AllPositive(v: seq<nat>) { forall i :: 0 <= i < |v| ==> v[i] > 0 }

  predicate All64(v: seq<nat>) { forall i :: 0 <= i < |v| ==> v[i] < TWO64 }

  lemma {:induction false} SumAppend(v: seq<nat>, w: seq<nat>)
    ensures Sum(v + w) == Sum(v) + Sum(w)
    decreases |w|
  {
    if w == [] {
      assert v + w == v;
    } else {
      assert (v + w)[..|v + w| - 1] == v + w[..|w| - 1];
      SumAppend(v, w[..|w| - 1]);
    }
  }

  lemma {:induction false} SumPrefix(v: seq<nat>, n: nat)
    requires n <= |v|
    ensures Sum(v[..n]) <= Sum(v)
  {
    assert v == v[..n] + v[n..];
    SumAppend(v[..n], v[n..]);
  }

  // ---- Sums with overflow detection ----

  /** Adds up values in 64 bits; a value that does not increase the total is an overflow. */
  method CheckedSum(v: seq<nat>) returns (ok: bool, total: nat)
    requires All64(v)
    ensures ok <==> AllPositive(v) && Sum(v) < TWO64
    ensures ok ==> total == Sum(v)
  {
    total := 0;
    for i := 0 to |v|
      invariant total == Sum(v[..i]) < TWO64 && AllPositive(v[..i])
    {
      assert v[..i + 1][..i] == v[..i];
      if Wrap(total + v[i]) <= total {
        OverflowIs(total, v[i]);
        SumPrefix(v, i + 1);
        return false, total;
      }
      OverflowIs(total, v[i]);
      total := Wrap(total + v[i]);
    }
    assert v[..|v|] == v;
    ok := true;
  }

  /** A wrapped sum does not exceed its first term exactly if nothing was added or it overflowed. */
  lemma OverflowIs(total: nat, x: nat)
    requires total < TWO64 && x < TWO64
    ensures Wrap(total + x) <= total <==> x == 0 || total + x >= TWO64
    ensures total + x < TWO64 ==> Wrap(total + x) == total + x
  {
  }

  predicate Valued(tx: Tx) { All64(InValues(tx.inputs)) && All64(OutValues(tx.outputs)) }

  /** The value rules: all values positive, and equal sums that fit 64 bits. */
  predicate ValuesOk(tx: Tx) {
    && AllPositive(InValues(tx.inputs)) && AllPositive(OutValues(tx.outputs))
    && Sum(InValues(tx.inputs)) == Sum(OutValues(tx.outputs)) < TWO64
  }

  method CheckInOutSet(tx: Tx) returns (error: Option<TxError>)
    requires Valued(tx)
    ensures error.None? <==> ValuesOk(tx)
    ensures error.Some? ==>
            (error.value.AsymmetricValues? && Sum(InValues(tx.inputs)) != Sum(OutValues(tx.outputs)))
            || error.value.ValueOverflow?
  {
    var ok, inputTotal := CheckedSum(InValues(tx.inputs));
    if !ok {
      return Some(ValueOverflow);
    }
    var outputTotal;
    ok, outputTotal := CheckedSum(OutValues(tx.outputs));
    if !ok {
      return Some(ValueOverflow);
    }
    if inputTotal != outputTotal {
      return Some(AsymmetricValues);
    }
    error := None;
  }

  // ---- The structure of a transaction ----

  predicate DistinctPoints(s: seq<Input>) { forall i, j :: 0 <= i < j < |s| ==> s[i].point != s[j].point }

  /** Finds the first input that spends an output spent before. */
  method CheckInputSet(tx: Tx) returns (error: Option<TxError>)
    ensures error.None? <==> DistinctPoints(tx.inputs)
    ensures error.Some? ==>
            error.value.Duplicate? && error.value.idx < |tx.inputs|
            && DistinctPoints(tx.inputs[..error.value.idx])
                            && exists j :: 0 <= j < error.value.idx
                                 && tx.inputs[j].point == tx.inputs[error.value.idx].point
  {
    var seen: set<OutPoint> := {};
    for i := 0 to |tx.inputs|
      invariant seen == set j | 0 <= j < i :: tx.inputs[j].point
      invariant DistinctPoints(tx.inputs[..i])
    {
      if tx.inputs[i].point in seen {
        var j :| 0 <= j < i && tx.inputs[j].point == tx.inputs[i].point;
        return Some(Duplicate(i));
      }
      assert forall j :: 0 <= j < i ==> tx.inputs[j].point != tx.inputs[i].point;
      seen := seen + {tx.inputs[i].point};
    }
    assert tx.inputs[..|tx.inputs|] == tx.inputs;
    error := None;
  }

  /** Everything `check_tx` demands apart from the witnesses themselves. */
  predicate WellFormed(tx: Tx) {
    tx.inputs != [] && tx.outputs != [] && |tx.inputs| == tx.witnesses && DistinctPoints(tx.inputs) && ValuesOk(tx)
  }

  method FindZero(v: seq<nat>) returns (found: bool, idx: nat)
    ensures found <==> !AllPositive(v)
    ensures found ==> idx < |v| && v[idx] == 0 && AllPositive(v[..idx])
  {
    idx := 0;
    while idx < |v|
      invariant idx <= |v| && AllPositive(v[..idx])
    {
      if v[idx] < 1 {
        return true, idx;
      }
      idx := idx + 1;
    }
    found := false;
  }

  /** `check_tx` without the witness checks: it accepts exactly the well-formed transactions. */
  method CheckTx(tx: Tx) returns (error: Option<TxError>)
    requires Valued(tx)
    ensures error.None? <==> WellFormed(tx)
  {
    if tx.inputs == [] {
      return Some(NoInputs);
    }
    if tx.outputs == [] {
      return Some(NoOutputs);
    }
    if |tx.inputs| != tx.witnesses {
      return Some(MissingWitness);
    }
    error := CheckInputSet(tx);
    if error.Some? {
      return;
    }
    var zero, idx := FindZero(InValues(tx.inputs));
    if zero {
      return Some(ZeroInput(idx));
    }
    zero, idx := FindZero(OutValues(tx.outputs));
    if zero {
      return Some(ZeroOutput(idx));
    }
    error := CheckInOutSet(tx);
  }
}
