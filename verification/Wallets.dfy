/** The wallet's coins (src/uhs/transaction/wallet.cpp): an index of unspent inputs by the output
    they spend, a queue of the same inputs in the order of their arrival, their total value, and
    coins seeded by number. Keys, signatures and hashes are parameters. */
module Wallets {
  import opened Basics
  import opened Transactions

  predicate HasPoint(q: seq<Input>, p: OutPoint) { exists i :: 0 <= i < |q| && q[i].point == p }

  /** Index and queue hold the same inputs, and the queue holds none twice. */
  ghost predicate Agrees(q: seq<Input>, utxos: map<OutPoint, Output>) {
    && DistinctPoints(q)
    && (forall i :: 0 <= i < |q| ==> q[i].point in utxos && utxos[q[i].point] == q[i].data)
    && (forall p :: p in utxos ==> HasPoint(q, p))
  }

  /** The queue after credits were added, each once. */
  function Credited(q: seq<Input>, credits: seq<Input>): seq<Input> {
    if credits == [] then q
    else
      var before, c := Credited(q, credits[..|credits| - 1]), credits[|credits| - 1];
      if HasPoint(before, c.point) then before else before + [c]
  }

  // ---- Arithmetic modulo 2^64 ----

  lemma WrapAdd(x: nat, v: nat)
    ensures Wrap(Wrap(x) + v) == Wrap(x + v)
  {
    var q := x / TWO64;
    assert x + v == q * TWO64 + (x % TWO64 + v);
    WrapMultiple(q, x % TWO64 + v);
  }

  lemma WrapSmall(x: nat)
    requires x < TWO64
    ensures Wrap(x) == x
  {
  }

  lemma WrapMultiple(q: nat, x: nat)
    ensures (q * TWO64 + x) % TWO64 == x % TWO64
  {
  }

  lemma WrapSubtract(v: nat, x: nat)
    requires v < TWO64
    ensures Wrap(Wrap(v + x) + (TWO64 - v)) == Wrap(x)
  {
    WrapAdd(v + x, TWO64 - v);
    assert v + x + (TWO64 - v) == 1 * TWO64 + x;
    WrapMultiple(1, x);
  }

  lemma FrontValue(q: seq<Input>)
    requires q != []
    ensures Sum(InValues(q)) == q[0].data.value + Sum(InValues(q[1..]))
  {
    assert InValues(q) == [q[0].data.value] + InValues(q[1..]);
    SumAppend([q[0].data.value], InValues(q[1..]));
    assert [q[0].data.value][..0] == [];
  }

  lemma BackValue(q: seq<Input>, c: Input)
    ensures Sum(InValues(q + [c])) == Sum(InValues(q)) + c.data.value
    ensures All64(InValues(q)) && c.data.value < TWO64 ==> All64(InValues(q + [c]))
  {
    assert InValues(q + [c])[..|q|] == InValues(q);
  }

  lemma ValuesAppend(a: seq<Input>, b: seq<Input>)
    ensures InValues(a + b) == InValues(a) + InValues(b) && Sum(InValues(a + b)) == Sum(InValues(a)) + Sum(InValues(b))
  {
    assert InValues(a + b) == InValues(a) + InValues(b);
    SumAppend(InValues(a), InValues(b));
  }

  // ---- Index and queue ----

  lemma AddCoin(q: seq<Input>, utxos: map<OutPoint, Output>, c: Input)
    requires Agrees(q, utxos) && c.point !in utxos
    ensures Agrees(q + [c], utxos[c.point := c.data])
  {
    var r := q + [c];
    forall p | p == c.point || p in utxos ensures HasPoint(r, p) {
      if p == c.point {
        assert r[|q|].point == p;
      } else {
        var i :| 0 <= i < |q| && q[i].point == p;
        assert r[i].point == p;
      }
    }
  }

  lemma DropCoin(q: seq<Input>, utxos: map<OutPoint, Output>)
    requires Agrees(q, utxos) && q != []
    ensures Agrees(q[1..], utxos - {q[0].point})
  {
    var r := q[1..];
    forall p | p in utxos && p != q[0].point ensures HasPoint(r, p) {
      var i :| 0 <= i < |q| && q[i].point == p;
      assert r[i - 1].point == p;
    }
  }

  lemma {:induction false} SizesAgree(q: seq<Input>, utxos: map<OutPoint, Output>)
    requires Agrees(q, utxos)
    ensures |q| == |utxos|
    decreases |q|
  {
    if q != [] {
      var p := q[0].point;
      DropCoin(q, utxos);
      SizesAgree(q[1..], utxos - {p});
      assert (utxos - {p}).Keys == utxos.Keys - {p};
    } else {
      assert forall p :: p in utxos ==> HasPoint(q, p);
      assert utxos == map[];
    }
  }

  /** Debits leave the index but not the queue: afterwards both have the same size, as the
      source asserts, if and only if no debit was in the index. */
  lemma DebitsMustBeOut(q: seq<Input>, utxos: map<OutPoint, Output>, debits: set<OutPoint>)
    requires Agrees(q, utxos)
    ensures |q| == |utxos - debits| <==> utxos.Keys !! debits
  {
    SizesAgree(q, utxos);
    var kept := utxos - debits;
    assert kept.Keys == utxos.Keys - debits;
    if utxos.Keys !! debits {
      assert kept == utxos;
    } else {
      var p :| p in utxos && p in debits;
      Smaller(kept.Keys, utxos.Keys, p);
    }
  }

  function Points(s: seq<Input>): set<OutPoint> { set i | 0 <= i < |s| :: s[i].point }

  lemma PointsAppend(s: seq<Input>, n: nat)
    requires n < |s|
    ensures Points(s[..n + 1]) == Points(s[..n]) + {s[n].point}
  {
    assert s[..n + 1] == s[..n] + [s[n]];
  }

  lemma DebitFits(s: seq<Input>, n: nat)
    requires n < |s| && All64(InValues(s))
    ensures s[n].data.value == InValues(s)[n] < TWO64
  {
  }

  lemma DebitsOut(q: seq<Input>, utxos: map<OutPoint, Output>, debits: seq<Input>)
    requires Agrees(q, utxos)
    ensures utxos.Keys !! Points(debits) <==> forall i :: 0 <= i < |debits| ==> !HasPoint(q, debits[i].point)
  {
    if !(utxos.Keys !! Points(debits)) {
      var p :| p in utxos && p in Points(debits);
      var i :| 0 <= i < |debits| && debits[i].point == p;
      assert HasPoint(q, debits[i].point);
    }
  }

  /** The value of the debits that are in the index, each counted once. */
  function DebitedValue(known: set<OutPoint>, debits: seq<Input>): nat {
    if debits == [] then 0
    else
      var before, d := debits[..|debits| - 1], debits[|debits| - 1];
      DebitedValue(known, before) + if d.point in known && d.point !in Points(before) then d.data.value else 0
  }

  lemma DebitOne(known: set<OutPoint>, debits: seq<Input>, n: nat)
    requires n < |debits|
    ensures DebitedValue(known, debits[..n + 1]) ==
            DebitedValue(known, debits[..n]) + if debits[n].point in known && debits[n].point !in Points(debits[..n])
              then debits[n].data.value else 0
  {
    assert debits[..n + 1][..n] == debits[..n];
  }

  lemma WrapDebit(left: nat, taken: nat, v: nat)
    requires v < TWO64
    ensures Wrap(Wrap(left + (TWO64 - v)) + (taken + v)) == Wrap(left + taken)
  {
    WrapAdd(left + (TWO64 - v), taken + v);
    assert left + (TWO64 - v) + (taken + v) == 1 * TWO64 + (left + taken);
    WrapMultiple(1, left + taken);
  }

  lemma NothingDebited(known: set<OutPoint>, debits: seq<Input>)
    requires known !! Points(debits)
    ensures DebitedValue(known, debits) == 0
  {
    if debits != [] {
      var n := |debits| - 1;
      PointsAppend(debits, n);
      assert debits[..n + 1] == debits;
      NothingDebited(known, debits[..n]);
    }
  }

  /** Index and balance are those of the queue without the debits. */
  ghost predicate Debited(q: seq<Input>, utxos: map<OutPoint, Output>, balance: nat, debits: seq<Input>) {
    exists known ::
      && Agrees(q, known) && utxos == known - Points(debits)
      && balance < TWO64 && Wrap(balance + DebitedValue(known.Keys, debits)) == Wrap(Sum(InValues(q)))
  }

  lemma IsDebited(q: seq<Input>, known: map<OutPoint, Output>, balance: nat, debits: seq<Input>)
    requires Agrees(q, known) && balance < TWO64
             && Wrap(balance + DebitedValue(known.Keys, debits)) == Wrap(Sum(InValues(q)))
    ensures Debited(q, known - Points(debits), balance, debits)
  {
    hide Agrees, Points, DebitedValue, Sum;
  }

  /** Takes debits out of the index, and their value out of the balance. */
  method TakeDebits(balance: nat, utxos: map<OutPoint, Output>, debits: seq<Input>)
    returns (left: nat, kept: map<OutPoint, Output>)
    requires All64(InValues(debits)) && balance < TWO64
    ensures kept == utxos - Points(debits)
    ensures left < TWO64 && Wrap(left + DebitedValue(utxos.Keys, debits)) == balance
  {
    left, kept := balance, utxos;
    for i := 0 to |debits|
      invariant kept == utxos - Points(debits[..i])
      invariant left < TWO64 && Wrap(left + DebitedValue(utxos.Keys, debits[..i])) == balance
    {
      PointsAppend(debits, i);
      DebitFits(debits, i);
      DebitOne(utxos.Keys, debits, i);
      WrapDebit(left, DebitedValue(utxos.Keys, debits[..i]), debits[i].data.value);
      hide All64, InValues, Points, DebitedValue;
      if debits[i].point in kept {
        left := Wrap(left + (TWO64 - debits[i].data.value));
      }
      kept := kept - {debits[i].point};
    }
    assert debits[..|debits|] == debits;
  }

  lemma Smaller(a: set<OutPoint>, b: set<OutPoint>, p: OutPoint)
    requires a <= b && p in b && p !in a
    ensures |a| < |b|
  {
    NotLarger(a, b - {p});
  }

  // ---- Choosing coins and making outputs ----

  /** Coins of which any can be spent together: distinct, of positive value, and no overflow. */
  predicate Healthy(coins: seq<Input>) {
    DistinctPoints(coins) && AllPositive(InValues(coins)) && Sum(InValues(coins)) < TWO64
  }

  /** Takes coins from the front of a queue while the total is below `amount`. */
  method TakeCoins(q: seq<Input>, seeds: seq<Input>, sum: nat, amount: nat)
    returns (inputs: seq<Input>, total: nat, i: nat)
    requires sum == Wrap(Sum(InValues(seeds)))
    ensures i <= |q| && inputs == seeds + q[..i] && total == Wrap(Sum(InValues(inputs)))
    ensures (total < amount ==> i == |q|) && (i > 0 || total < amount ==> sum < amount)
  {
    inputs, total, i := seeds, sum, 0;
    while total < amount && i < |q|
      invariant i <= |q| && inputs == seeds + q[..i] && total == Wrap(Sum(InValues(inputs)))
      invariant if i > 0 then sum < amount else total == sum
      decreases |q| - i
    {
      hide Sum, Wrap;
      BackValue(inputs, q[i]);
      WrapAdd(Sum(InValues(inputs)), q[i].data.value);
      assert seeds + q[..i + 1] == inputs + [q[i]];
      inputs := inputs + [q[i]];
      total := Wrap(total + q[i].data.value);
      i := i + 1;
    }
  }

  /** Takes coins from the front of a queue until there are `count`. */
  method TakeCount(q: seq<Input>, seeds: seq<Input>, sum: nat, count: nat)
    returns (inputs: seq<Input>, total: nat, i: nat)
    requires sum == Wrap(Sum(InValues(seeds))) && |seeds| <= count
    ensures i <= |q| && inputs == seeds + q[..i] && total == Wrap(Sum(InValues(inputs)))
    ensures |inputs| <= count && (|inputs| < count ==> i == |q|) && (i > 0 ==> |seeds| < count)
  {
    inputs, total, i := seeds, sum, 0;
    while i < |q| && |inputs| < count
      invariant i <= |q| && inputs == seeds + q[..i] && total == Wrap(Sum(InValues(inputs)))
      invariant |inputs| <= count && (i > 0 ==> |seeds| < count)
    {
      hide Sum, Wrap;
      BackValue(inputs, q[i]);
      WrapAdd(Sum(InValues(inputs)), q[i].data.value);
      assert seeds + q[..i + 1] == inputs + [q[i]];
      inputs := inputs + [q[i]];
      total := Wrap(total + q[i].data.value);
      i := i + 1;
    }
  }

  /** What is taken from the front of healthy coins is spent for its exact value. */
  lemma HealthySpend(coins: seq<Input>, inputs: seq<Input>, left: seq<Input>)
    requires coins == inputs + left && Healthy(coins)
    ensures DistinctPoints(inputs) && AllPositive(InValues(inputs))
    ensures Sum(InValues(inputs)) == Wrap(Sum(InValues(inputs))) < TWO64
    ensures inputs != [] ==> Sum(InValues(inputs)) > 0
    ensures inputs == [] ==> Sum(InValues(inputs)) == 0
  {
    SumOfPart(coins, inputs, left);
    ValuesAppend(inputs, left);
    assert forall i :: 0 <= i < |inputs| ==> InValues(inputs)[i] == InValues(coins)[i];
    assert forall i :: 0 <= i < |inputs| ==> inputs[i] == coins[i];
  }

  lemma OneValue(outputs: seq<Output>)
    requires |outputs| == 1
    ensures Sum(OutValues(outputs)) == outputs[0].value
  {
    assert OutValues(outputs)[..0] == [];
  }

  lemma LastValue(outputs: seq<Output>, out: Output)
    ensures Sum(OutValues(outputs + [out])) == Sum(OutValues(outputs)) + out.value
    ensures AllPositive(OutValues(outputs)) && out.value > 0 ==> AllPositive(OutValues(outputs + [out]))
  {
    assert OutValues(outputs + [out])[..|outputs|] == OutValues(outputs);
  }

  lemma Divides(total: nat, n: nat)
    requires n > 0
    ensures total / n == 0 <==> total < n
    ensures total / n * (n - 1) <= total - total / n
  {
    assert total / n * n <= total;
    assert total / n * (n - 1) == total / n * n - total / n;
  }

  /** Splits `total` evenly over `n` outputs; the last one takes the rest. */
  method SplitAmount(total: nat, n: nat, payee: nat) returns (outputs: seq<Output>)
    requires n > 0
    ensures |outputs| == n && Sum(OutValues(outputs)) == total
    ensures forall i :: 0 <= i < n - 1 ==> outputs[i].value == total / n <= outputs[n - 1].value
    ensures total >= n ==> AllPositive(OutValues(outputs))
  {
    Divides(total, n);
    var left := total;
    outputs := [];
    for i := 0 to n
      invariant |outputs| == i && Sum(OutValues(outputs)) == total - left
      invariant i < n ==> left == total - total / n * i && forall j :: 0 <= j < i ==> outputs[j].value == total / n
      invariant i == n ==> left == 0 && forall j :: 0 <= j < n - 1 ==>
                outputs[j].value == total / n <= outputs[n - 1].value
      invariant total >= n ==> AllPositive(OutValues(outputs))
    {
      hide Sum, AllPositive;
      var value := if i == n - 1 then left else total / n;
      Share(total, n, i);
      LastValue(outputs, Output(payee, value));
      left := left - value;
      outputs := outputs + [Output(payee, value)];
    }
  }

  lemma Share(total: nat, n: nat, i: nat)
    requires i < n
    ensures total / n * i + total / n == total / n * (i + 1) <= total
  {
    var q, rest := total / n, n - (i + 1);
    assert q * n <= total;
    assert q * (i + 1) == q * i + q;
    assert q * ((i + 1) + rest) == q * (i + 1) + q * rest;
  }

  /** Adds `count` equal outputs to those there are, whose value is `change`. */
  method Repeat(start: seq<Output>, out: Output, count: nat, ghost change: nat) returns (outputs: seq<Output>)
    requires if change == 0 then start == [] else |start| == 1 && start[0].value == change
    ensures Sum(OutValues(outputs)) == change + count * out.value
    ensures out.value > 0 ==> AllPositive(OutValues(outputs))
    ensures count > 0 ==> outputs != []
  {
    outputs := start;
    if change > 0 {
      OneValue(start);
    }
    for i := 0 to count
      invariant |outputs| == |start| + i && Sum(OutValues(outputs)) == change + i * out.value
      invariant out.value > 0 ==> AllPositive(OutValues(outputs))
    {
      hide Sum, AllPositive;
      LastValue(outputs, out);
      assert (i + 1) * out.value == i * out.value + out.value;
      outputs := outputs + [out];
    }
  }

  lemma WrapBoth(x: nat, y: nat)
    ensures Wrap(x + Wrap(y)) == Wrap(x + y)
  {
    WrapAdd(y, x);
  }

  class Wallet {
    var balance: nat
    var utxos: map<OutPoint, Output>
    var queue: seq<Input>
    var seedFrom: nat
    var seedTo: nat
    const seedValue: nat
    const seedCommitment: nat
    /** The id of the transaction that makes a seeded coin spendable: a hash. */
    const seedId: nat -> nat

    ghost predicate Valid()
      reads this
    {
      && Agrees(queue, utxos) && balance == Wrap(Sum(InValues(queue)))
      && seedFrom <= seedTo && seedValue < TWO64 && All64(InValues(queue))
    }

    function SeedInput(i: nat): Input { Input(OutPoint(seedId(i), 0), Output(seedCommitment, seedValue)) }

    function Seeds(from: nat, n: nat): (s: seq<Input>)
      ensures |s| == n
    {
      seq(n, i requires 0 <= i < n => SeedInput(from + i))
    }

    /** Everything the wallet can spend, in the order in which it spends it. */
    function Coins(): seq<Input>
      reads this
      requires seedFrom <= seedTo
    {
      Seeds(seedFrom, seedTo - seedFrom) + queue
    }

    constructor (seedFrom: nat, seedTo: nat, seedValue: nat, seedCommitment: nat, seedId: nat -> nat)
      requires seedFrom <= seedTo && seedValue < TWO64
      ensures Valid() && queue == [] && this.seedFrom == seedFrom && this.seedTo == seedTo
    {
      balance, utxos, queue := 0, map[], [];
      this.seedFrom, this.seedTo, this.seedValue := seedFrom, seedTo, seedValue;
      this.seedCommitment, this.seedId := seedCommitment, seedId;
    }

    /** Adds one input unless it is known. */
    method Credit(c: Input)
      requires Valid() && c.data.value < TWO64
      modifies this`balance, this`utxos, this`queue
      ensures Valid() && queue == if HasPoint(old(queue), c.point) then old(queue) else old(queue) + [c]
    {
      if c.point !in utxos {
        AddCoin(queue, utxos, c);
        BackValue(queue, c);
        WrapAdd(Sum(InValues(queue)), c.data.value);
        assert !HasPoint(queue, c.point);
        hide Agrees, Sum, Wrap, HasPoint;
        balance := Wrap(balance + c.data.value);
        utxos := utxos[c.point := c.data];
        queue := queue + [c];
      }
    }

    /** Adds credits, takes debits out of the index only, and compares the sizes of queue and index:
        `ok` is the source's assertion. When it fails, the debits have left the index and the
        balance, and are still queued. */
    method UpdateBalance(credits: seq<Input>, debits: seq<Input>) returns (ok: bool)
      requires Valid() && All64(InValues(credits)) && All64(InValues(debits))
      modifies this`balance, this`utxos, this`queue
      ensures queue == Credited(old(queue), credits)
      ensures ok <==> forall i :: 0 <= i < |debits| ==> !HasPoint(queue, debits[i].point)
      ensures ok ==> Valid()
      ensures Debited(queue, utxos, balance, debits)
    {
      hide Agrees, All64, HasPoint, Points, Credited, DebitedValue, InValues, Sum, Debited, Wrap;
      AddCredits(credits);
      DebitsMustBeOut(queue, utxos, Points(debits));
      DebitsOut(queue, utxos, debits);
      ghost var known, all := utxos, balance;
      if known.Keys !! Points(debits) { NothingDebited(known.Keys, debits); }
      balance, utxos := TakeDebits(balance, utxos, debits);
      ok := |queue| == |utxos|;
      IsDebited(queue, known, balance, debits);
      WrapSmall(balance);
      if known.Keys !! Points(debits) { assert utxos == known && balance == all; }
    }

    method AddCredits(credits: seq<Input>)
      requires Valid() && All64(InValues(credits))
      modifies this`balance, this`utxos, this`queue
      ensures Valid() && queue == Credited(old(queue), credits)
    {
      for i := 0 to |credits|
        invariant Valid() && queue == Credited(old(queue), credits[..i])
      {
        hide Valid, HasPoint;
        assert credits[..i + 1][..i] == credits[..i];
        assert credits[i].data.value == InValues(credits)[i];
        Credit(credits[i]);
      }
      assert credits[..|credits|] == credits;
    }

    method ConfirmInputs(credits: seq<Input>)
      requires Valid() && All64(InValues(credits))
      modifies this`balance, this`utxos, this`queue
      ensures Valid() && queue == Credited(old(queue), credits)
    {
      var ok := UpdateBalance(credits, []);
    }

    /** Credits the outputs that are the wallet's own; the inputs must have left the index when the
        transaction was made. */
    method ConfirmTransaction(tx: Tx, txId: nat, ours: set<nat>) returns (ok: bool)
      requires Valid() && Valued(tx)
      modifies this`balance, this`utxos, this`queue
      ensures queue == Credited(old(queue), OwnOutputs(tx, txId, ours, |tx.outputs|))
      ensures ok <==> forall i :: 0 <= i < |tx.inputs| ==> !HasPoint(queue, tx.inputs[i].point)
      ensures ok ==> Valid()
      ensures Debited(queue, utxos, balance, tx.inputs)
    {
      var credits := [];
      for i := 0 to |tx.outputs|
        invariant credits == OwnOutputs(tx, txId, ours, i)
      {
        if tx.outputs[i].commitment in ours {
          credits := credits + [Input(OutPoint(txId, i), tx.outputs[i])];
        }
      }
      OwnValues(tx, txId, ours, |tx.outputs|);
      ok := UpdateBalance(credits, tx.inputs);
    }

    // ---- Spending ----

    /** Takes seeded coins while the total is below `amount`. */
    method TakeSeeds(amount: nat) returns (inputs: seq<Input>, total: nat)
      requires Valid()
      modifies this`seedFrom
      ensures Valid() && seedFrom == old(seedFrom) + |inputs| && inputs == Seeds(old(seedFrom), |inputs|)
      ensures total == Wrap(Sum(InValues(inputs))) && (total < amount ==> seedFrom == seedTo)
    {
      inputs, total := [], 0;
      while seedFrom != seedTo && total < amount
        invariant seedFrom == old(seedFrom) + |inputs| <= seedTo && inputs == Seeds(old(seedFrom), |inputs|)
        invariant total == Wrap(Sum(InValues(inputs)))
        decreases seedTo - seedFrom
      {
        var c := SeedInput(seedFrom);
        BackValue(inputs, c);
        WrapAdd(Sum(InValues(inputs)), seedValue);
        assert Seeds(old(seedFrom), |inputs| + 1) == Seeds(old(seedFrom), |inputs|) + [c];
        inputs := inputs + [c];
        total := Wrap(total + seedValue);
        seedFrom := seedFrom + 1;
      }
    }

    /** Takes up to `count` seeded coins. */
    method TakeSeedCount(count: nat) returns (inputs: seq<Input>, total: nat)
      requires Valid()
      modifies this`seedFrom
      ensures Valid() && seedFrom == old(seedFrom) + |inputs| && inputs == Seeds(old(seedFrom), |inputs|)
      ensures total == Wrap(Sum(InValues(inputs))) && |inputs| <= count && (|inputs| < count ==> seedFrom == seedTo)
    {
      inputs, total := [], 0;
      while seedFrom != seedTo && |inputs| < count
        invariant seedFrom == old(seedFrom) + |inputs| <= seedTo && inputs == Seeds(old(seedFrom), |inputs|)
        invariant total == Wrap(Sum(InValues(inputs))) && |inputs| <= count
        decreases seedTo - seedFrom
      {
        var c := SeedInput(seedFrom);
        BackValue(inputs, c);
        WrapAdd(Sum(InValues(inputs)), seedValue);
        assert Seeds(old(seedFrom), |inputs| + 1) == Seeds(old(seedFrom), |inputs|) + [c];
        inputs := inputs + [c];
        total := Wrap(total + seedValue);
        seedFrom := seedFrom + 1;
      }
    }

    /** Takes the first input off the queue. */
    method DropFront()
      requires Valid() && queue != []
      modifies this`balance, this`utxos, this`queue
      ensures Valid() && queue == old(queue)[1..]
    {
      hide Agrees, Sum, Wrap, DistinctPoints;
      DropCoin(queue, utxos);
      FrontValue(queue);
      assert queue[0].data.value == InValues(queue)[0] < TWO64;
      WrapSubtract(queue[0].data.value, Sum(InValues(queue[1..])));
      assert InValues(queue[1..]) == InValues(queue)[1..];
      balance := Wrap(balance + (TWO64 - queue[0].data.value));
      utxos := utxos - {queue[0].point};
      queue := queue[1..];
    }

    /** Takes the first `n` inputs off the queue. */
    method DropCoins(n: nat)
      requires Valid() && n <= |queue|
      modifies this`balance, this`utxos, this`queue
      ensures Valid() && queue == old(queue)[n..]
    {
      hide Agrees, Sum, Wrap, All64;
      for i := 0 to n
        invariant Valid() && queue == old(queue)[i..]
      {
        DropFront();
      }
    }

    /** What a successful spend has taken: coins from the front of what the wallet can spend. */
    ghost predicate Spent(coins: seq<Input>, inputs: seq<Input>)
      reads this
    {
      Valid() && coins == inputs + Coins()
    }

    /** Nothing the wallet could spend has changed. */
    twostate predicate Kept()
      reads this
    {
      Valid() && queue == old(queue) && utxos == old(utxos) && balance == old(balance) && seedFrom == old(seedFrom)
        && seedTo == old(seedTo)
    }

    /** Coins for `amount`, or nothing at all if there are not enough. */
    method AccumulateInputs(amount: nat) returns (found: bool, inputs: seq<Input>, total: nat)
      requires Valid()
      modifies this`seedFrom, this`balance, this`utxos, this`queue
      ensures !found ==> Kept()
      ensures found ==> Spent(old(Coins()), inputs) && total == Wrap(Sum(InValues(inputs))) && total >= amount
      ensures Sum(InValues(old(Coins()))) < TWO64 ==> (found <==> Sum(InValues(old(Coins()))) >= amount)
    {
      hide Agrees, Sum, All64, Wrap, InValues, Seeds;
      ghost var coins := Coins();
      var seeds, sum := TakeSeeds(amount);
      var i;
      inputs, total, i := TakeCoins(queue, seeds, sum, amount);
      SplitCoins(old(seedFrom), seedTo, |seeds|, queue, i);
      SumOfPart(coins, inputs, Seeds(seedFrom, seedTo - seedFrom) + queue[i..]);
      if total < amount {
        assert Seeds(seedFrom, seedTo - seedFrom) + queue[i..] == [];
        assert coins == inputs;
        seedFrom := seedFrom - |seeds|;
        found := false;
      } else {
        DropCoins(i);
        found := true;
      }
    }

    /** Pays `amount`, with change to the wallet's own `change` if there is any. */
    method SendTo(amount: nat, payee: nat, change: nat) returns (tx: Option<Tx>)
      requires Valid() && amount < TWO64
      modifies this`seedFrom, this`balance, this`utxos, this`queue
      ensures tx.None? ==> Kept()
      ensures tx.Some? ==> Spent(old(Coins()), tx.value.inputs)
      ensures tx.Some? ==>
        && 1 <= |tx.value.outputs| <= 2 && tx.value.outputs[0] == Output(payee, amount)
        && (|tx.value.outputs| == 2 ==> tx.value.outputs[1].commitment == change)
      ensures tx.Some? ==> Sum(OutValues(tx.value.outputs)) == Wrap(Sum(InValues(tx.value.inputs)))
      ensures Healthy(old(Coins())) && amount > 0 ==>
        (tx.Some? <==> Sum(InValues(old(Coins()))) >= amount) && (tx.Some? ==> WellFormed(tx.value))
    {
      hide Agrees, Sum, All64, Wrap, InValues, DistinctPoints;
      ghost var coins := Coins();
      var found, inputs, total := AccumulateInputs(amount);
      if !found {
        return None;
      }
      var outputs := [Output(payee, amount)];
      OneValue(outputs);
      if total > amount {
        LastValue(outputs, Output(change, total - amount));
        outputs := outputs + [Output(change, total - amount)];
      }
      if Healthy(coins) {
        HealthySpend(coins, inputs, Coins());
      }
      tx := Some(Tx(inputs, outputs, |inputs|));
    }

    /** Spends exactly `inputCount` coins and splits their value over `outputCount` outputs. */
    method SendMany(inputCount: nat, outputCount: nat, payee: nat, sign: bool) returns (tx: Option<Tx>)
      requires Valid() && inputCount > 0 && outputCount > 0
      modifies this`seedFrom, this`balance, this`utxos, this`queue
      ensures tx.None? ==> Kept()
      ensures tx.Some? ==>
              Spent(old(Coins()), tx.value.inputs) && |tx.value.inputs| == inputCount
              && |tx.value.outputs| == outputCount
      ensures tx.Some? ==> Sum(OutValues(tx.value.outputs)) == Wrap(Sum(InValues(tx.value.inputs)))
      ensures Healthy(old(Coins())) && sign && tx.Some? ==> WellFormed(tx.value)
      ensures Healthy(old(Coins())) ==>
        (tx.Some? <==>
          inputCount <= |old(Coins())|
          && (outputCount == 1 || Sum(InValues(old(Coins())[..inputCount])) >= outputCount))
    {
      hide Agrees, Sum, All64, Wrap, InValues, DistinctPoints, Seeds;
      ghost var coins := Coins();
      AsMany();
      if |utxos| + seedTo - seedFrom < inputCount {
        return None;
      }
      var seeds, sum := TakeSeedCount(inputCount);
      var inputs, total, i := TakeCount(queue, seeds, sum, inputCount);
      SplitCoins(old(seedFrom), seedTo, |seeds|, queue, i);
      assert coins[..inputCount] == inputs;
      if Healthy(coins) {
        HealthySpend(coins, inputs, Seeds(seedFrom, seedTo - seedFrom) + queue[i..]);
      }
      Divides(total, outputCount);
      if total / outputCount == 0 && outputCount > 1 {
        seedFrom := seedFrom - |seeds|;
        return None;
      }
      DropCoins(i);
      var outputs := SplitAmount(total, outputCount, payee);
      tx := Some(Tx(inputs, outputs, if sign then inputCount else |seeds|));
    }

    /** Pays `count` outputs of `value`, after the change; the amount is a product in 64 bits. */
    method Fan(count: nat, value: nat, payee: nat, change: nat) returns (tx: Option<Tx>)
      requires Valid() && value < TWO64
      modifies this`seedFrom, this`balance, this`utxos, this`queue
      ensures tx.None? ==> Kept()
      ensures tx.Some? ==> Spent(old(Coins()), tx.value.inputs)
      ensures tx.Some? ==> (Sum(OutValues(tx.value.outputs)) == Wrap(Sum(InValues(tx.value.inputs)))
              <==> count * value < TWO64)
      ensures Sum(InValues(old(Coins()))) < TWO64 ==> (tx.Some? <==> Sum(InValues(old(Coins()))) >= Wrap(count * value))
      ensures Healthy(old(Coins())) && 0 < count * value < TWO64 ==>
        (tx.Some? <==> Sum(InValues(old(Coins()))) >= count * value) && (tx.Some? ==> WellFormed(tx.value))
    {
      hide Agrees, Sum, All64, InValues, DistinctPoints;
      ghost var coins := Coins();
      var amount := Wrap(count * value);
      var found, inputs, total := AccumulateInputs(amount);
      if !found {
        return None;
      }
      var outputs := [];
      if total > amount {
        outputs := [Output(change, total - amount)];
      }
      outputs := Repeat(outputs, Output(payee, value), count, total - amount);
      if Healthy(coins) {
        HealthySpend(coins, inputs, Coins());
      }
      tx := Some(Tx(inputs, outputs, |inputs|));
    }

    /** A payment that is made and then confirmed: the inputs have left the index when the
        confirmation looks for them, so the assertion holds, and the wallet's coins fall in value by
        exactly what went to others. */
    method PayAndConfirm(amount: nat, payee: nat, change: nat, txId: nat, ours: set<nat>)
      returns (tx: Option<Tx>, ok: bool)
      requires Valid() && 0 < amount < TWO64 && Healthy(Coins())
      requires forall i :: 0 <= i < |Coins()| ==> Coins()[i].point.txId != txId
      modifies this`seedFrom, this`balance, this`utxos, this`queue
      ensures tx.Some? <==> Sum(InValues(old(Coins()))) >= amount
      ensures tx.None? ==> Kept()
      ensures tx.Some? ==> ok && Valid() && WellFormed(tx.value)
      ensures tx.Some? ==> Sum(InValues(Coins())) + Foreign(tx.value.outputs, ours) == Sum(InValues(old(Coins())))
      ensures tx.Some? && payee !in ours && change in ours ==>
              Sum(InValues(Coins())) + amount == Sum(InValues(old(Coins())))
    {
      hide Agrees, Sum, All64, Wrap, InValues, DistinctPoints, Seeds, Healthy, WellFormed, Debited, HasPoint, Foreign,
        Credited, OwnOutputs;
      ghost var coins := Coins();
      tx := SendTo(amount, payee, change);
      ok := true;
      if tx.Some? {
        ghost var kept, seeds, own := queue, Seeds(seedFrom, seedTo - seedFrom), OwnOutputs(tx.value, txId, ours,
          |tx.value.outputs|);
        WellFormedIsValued(tx.value);
        HealthySplit(coins, tx.value.inputs, seeds, kept);
        OwnPoints(tx.value, txId, ours, |tx.value.outputs|);
        FreshCredits(tx.value.inputs, seeds, kept, own, txId);
        OwnAndForeign(tx.value, txId, ours);
        ok := ConfirmTransaction(tx.value, txId, ours);
        SettledValue(coins, tx.value, seeds, kept, own, ours);
        ForeignPart(tx.value.outputs, payee, amount, change, ours);
      }
    }

    /** The value of everything the wallet can spend. */
    method Balance() returns (total: nat)
      requires Valid()
      ensures total == Wrap(Sum(InValues(Coins())))
    {
      hide Agrees, Sum, Wrap, All64, InValues, Seeds;
      total := balance;
      var seeded := (seedTo - seedFrom) * seedValue;
      SeedsValue(seedFrom, seedTo - seedFrom);
      ValuesAppend(Seeds(seedFrom, seedTo - seedFrom), queue);
      WrapAdd(Sum(InValues(queue)), seeded);
      if seedFrom != seedTo {
        WrapBoth(total, seeded);
        total := Wrap(total + Wrap(seeded));
      }
    }

    /** The number of coins the wallet can spend. */
    method Count() returns (n: nat)
      requires Valid()
      ensures n == |Coins()|
    {
      n := |utxos|;
      AsMany();
      if seedFrom != seedTo {
        n := n + (seedTo - seedFrom);
      }
    }

    lemma AsMany()
      requires Valid()
      ensures |utxos| == |queue|
    {
      SizesAgree(queue, utxos);
    }

    lemma {:induction false} SeedsValue(from: nat, n: nat)
      ensures Sum(InValues(Seeds(from, n))) == n * seedValue
      decreases n
    {
      if n > 0 {
        SeedsValue(from, n - 1);
        assert Seeds(from, n) == Seeds(from, n - 1) + [SeedInput(from + n - 1)];
        BackValue(Seeds(from, n - 1), SeedInput(from + n - 1));
      }
    }

    lemma SplitCoins(from: nat, to: nat, n: nat, q: seq<Input>, i: nat)
      requires from + n <= to && i <= |q| && (i > 0 ==> from + n == to)
      ensures Seeds(from, to - from) + q == (Seeds(from, n) + q[..i]) + (Seeds(from + n, to - from - n) + q[i..])
    {
      assert Seeds(from, to - from) == Seeds(from, n) + Seeds(from + n, to - from - n);
      assert q == q[..i] + q[i..];
      if i > 0 {
        assert Seeds(from + n, 0) == [];
      }
    }
  }

  /** The value of the outputs that are not the wallet's own. */
  function Foreign(outputs: seq<Output>, ours: set<nat>): nat {
    if outputs == [] then 0
    else
      var out := outputs[|outputs| - 1];
      Foreign(outputs[..|outputs| - 1], ours) + if out.commitment in ours then 0 else out.value
  }

  /** A payment with change: what is not the wallet's own is the amount. */
  lemma ForeignPart(outputs: seq<Output>, payee: nat, amount: nat, change: nat, ours: set<nat>)
    requires |outputs| == 1 || (|outputs| == 2 && outputs[1].commitment == change)
    requires outputs[0] == Output(payee, amount)
    ensures payee !in ours && change in ours ==> Foreign(outputs, ours) == amount
  {
    assert outputs[..1][..0] == [];
    assert outputs[..1] == [outputs[0]];
    assert Foreign([outputs[0]], ours) == if payee in ours then 0 else amount;
  }

  lemma {:induction false} EachFits(v: seq<nat>)
    requires Sum(v) < TWO64
    ensures All64(v)
  {
    if v != [] { EachFits(v[..|v| - 1]); }
  }

  lemma WellFormedIsValued(tx: Tx)
    requires WellFormed(tx)
    ensures Valued(tx) && Sum(OutValues(tx.outputs)) == Sum(InValues(tx.inputs))
  {
    EachFits(InValues(tx.inputs));
    EachFits(OutValues(tx.outputs));
  }

  /** The coins of a spend are apart from those that are left. */
  lemma HealthySplit(coins: seq<Input>, inputs: seq<Input>, seeds: seq<Input>, kept: seq<Input>)
    requires Healthy(coins) && coins == inputs + (seeds + kept)
    ensures DistinctPoints(kept) && (forall i :: 0 <= i < |inputs| ==> !HasPoint(kept, inputs[i].point))
    ensures Sum(InValues(coins)) == Sum(InValues(inputs)) + Sum(InValues(seeds)) + Sum(InValues(kept))
  {
    ValuesAppend(inputs, seeds + kept);
    ValuesAppend(seeds, kept);
    var n := |inputs| + |seeds|;
    forall j | 0 <= j < |kept| ensures kept[j] == coins[n + j] {}
    forall i | 0 <= i < |inputs| ensures inputs[i] == coins[i] {}
  }

  lemma {:induction false} OwnPoints(tx: Tx, txId: nat, ours: set<nat>, n: nat)
    requires n <= |tx.outputs|
    ensures var own := OwnOutputs(tx, txId, ours, n);
            DistinctPoints(own) && forall i :: 0 <= i < |own| ==> own[i].point.txId == txId && own[i].point.index < n
  {
    if n > 0 { OwnPoints(tx, txId, ours, n - 1); }
  }

  lemma {:induction false} CreditedFresh(q: seq<Input>, credits: seq<Input>)
    requires DistinctPoints(credits) && forall i :: 0 <= i < |credits| ==> !HasPoint(q, credits[i].point)
    ensures Credited(q, credits) == q + credits
    decreases |credits|
  {
    if credits != [] {
      var n := |credits| - 1;
      var before := credits[..n];
      CreditedFresh(q, before);
      assert before + [credits[n]] == credits;
      assert !HasPoint(q + before, credits[n].point) by {
        forall i | 0 <= i < |q + before| ensures (q + before)[i].point != credits[n].point {}
      }
    }
  }

  /** The wallet's own outputs are new to it, and none of the inputs comes back. */
  lemma FreshCredits(inputs: seq<Input>, seeds: seq<Input>, kept: seq<Input>, own: seq<Input>, txId: nat)
    requires forall i :: 0 <= i < |inputs + (seeds + kept)| ==> (inputs + (seeds + kept))[i].point.txId != txId
    requires DistinctPoints(own) && forall i :: 0 <= i < |own| ==> own[i].point.txId == txId
    requires forall i :: 0 <= i < |inputs| ==> !HasPoint(kept, inputs[i].point)
    ensures Credited(kept, own) == kept + own
    ensures forall i :: 0 <= i < |inputs| ==> !HasPoint(kept + own, inputs[i].point)
  {
    var all := inputs + (seeds + kept);
    forall i | 0 <= i < |kept| ensures kept[i].point.txId != txId { assert kept[i] == all[|inputs| + |seeds| + i]; }
    forall i | 0 <= i < |inputs| ensures inputs[i].point.txId != txId { assert inputs[i] == all[i]; }
    CreditedFresh(kept, own);
    hide Credited;
    forall i | 0 <= i < |inputs| ensures !HasPoint(kept + own, inputs[i].point) {
      forall j | 0 <= j < |kept + own| ensures (kept + own)[j].point != inputs[i].point {
        if j < |kept| { assert (kept + own)[j] == kept[j]; }
      }
    }
  }

  lemma {:induction false} OwnAndForeignTo(tx: Tx, txId: nat, ours: set<nat>, n: nat)
    requires n <= |tx.outputs|
    ensures Sum(InValues(OwnOutputs(tx, txId, ours, n))) + Foreign(tx.outputs[..n], ours)
            == Sum(OutValues(tx.outputs[..n]))
  {
    if n > 0 {
      OwnAndForeignTo(tx, txId, ours, n - 1);
      var out, before := tx.outputs[n - 1], OwnOutputs(tx, txId, ours, n - 1);
      assert tx.outputs[..n] == tx.outputs[..n - 1] + [out] && tx.outputs[..n][..n - 1] == tx.outputs[..n - 1];
      LastValue(tx.outputs[..n - 1], out);
      BackValue(before, Input(OutPoint(txId, n - 1), out));
      assert before + [] == before;
    }
  }

  lemma OwnAndForeign(tx: Tx, txId: nat, ours: set<nat>)
    ensures Sum(InValues(OwnOutputs(tx, txId, ours, |tx.outputs|))) + Foreign(tx.outputs, ours)
            == Sum(OutValues(tx.outputs))
  {
    OwnAndForeignTo(tx, txId, ours, |tx.outputs|);
    assert tx.outputs[..|tx.outputs|] == tx.outputs;
  }

  lemma SettledValue(coins: seq<Input>, tx: Tx, seeds: seq<Input>, kept: seq<Input>, own: seq<Input>, ours: set<nat>)
    requires Sum(InValues(coins)) == Sum(InValues(tx.inputs)) + Sum(InValues(seeds)) + Sum(InValues(kept))
    requires Sum(OutValues(tx.outputs)) == Sum(InValues(tx.inputs))
    requires Sum(InValues(own)) + Foreign(tx.outputs, ours) == Sum(OutValues(tx.outputs))
    ensures Sum(InValues(seeds + (kept + own))) + Foreign(tx.outputs, ours) == Sum(InValues(coins))
  {
    ValuesAppend(seeds, kept + own);
    ValuesAppend(kept, own);
  }

  /** A coin that is still indexed when a transaction that spends it is confirmed, because the
      wallet did not make that transaction: the source's assertion fails. */
  method DebitStillIn(coin: Input, txId: nat, payee: nat) returns (ok: bool)
    requires coin.data.value < TWO64
    ensures !ok
  {
    var wallet := new Wallet(0, 0, 0, 0, _ => 0);
    assert InValues([coin]) == [coin.data.value];
    assert Credited([], [coin]) == [coin] by { assert [coin][..0] == []; }
    wallet.ConfirmInputs([coin]);
    var tx := Tx([coin], [Output(payee, coin.data.value)], 1);
    assert OutValues(tx.outputs) == [coin.data.value];
    assert OwnOutputs(tx, txId, {}, 1) == [] by { assert OwnOutputs(tx, txId, {}, 0) == []; }
    ok := wallet.ConfirmTransaction(tx, txId, {});
    assert wallet.queue[0].point == tx.inputs[0].point;
  }

  /** 2^33 outputs of 2^31 each, the latter a 32-bit amount: the product that `Fan` computes in 64 bits is zero, so it
      spends nothing and pays out 2^64. */
  method FanOverflows(payee: nat, change: nat) returns (tx: Option<Tx>)
    ensures tx.Some? && Sum(OutValues(tx.value.outputs)) != Wrap(Sum(InValues(tx.value.inputs)))
  {
    var wallet := new Wallet(0, 0, 0, 0, _ => 0);
    assert wallet.Coins() == [];
    tx := wallet.Fan(0x2_0000_0000, 0x8000_0000, payee, change);
  }

  lemma SumOfPart(coins: seq<Input>, inputs: seq<Input>, left: seq<Input>)
    requires coins == inputs + left
    ensures Sum(InValues(inputs)) <= Sum(InValues(coins))
    ensures Sum(InValues(coins)) < TWO64 ==> Wrap(Sum(InValues(inputs))) == Sum(InValues(inputs))
  {
    ValuesAppend(inputs, left);
  }

  /** The outputs of a transaction that belong to the wallet, as inputs that can spend them. */
  function OwnOutputs(tx: Tx, txId: nat, ours: set<nat>, n: nat): seq<Input>
    requires n <= |tx.outputs|
  {
    if n == 0 then []
    else OwnOutputs(tx, txId, ours, n - 1) + if tx.outputs[n - 1].commitment in ours
      then [Input(OutPoint(txId, n - 1), tx.outputs[n - 1])] else []
  }

  lemma {:induction false} OwnValues(tx: Tx, txId: nat, ours: set<nat>, n: nat)
    requires n <= |tx.outputs| && Valued(tx)
    ensures All64(InValues(OwnOutputs(tx, txId, ours, n)))
  {
    if n > 0 {
      OwnValues(tx, txId, ours, n - 1);
      assert tx.outputs[n - 1].value == OutValues(tx.outputs)[n - 1];
      BackValue(OwnOutputs(tx, txId, ours, n - 1), Input(OutPoint(txId, n - 1), tx.outputs[n - 1]));
      assert OwnOutputs(tx, txId, ours, n - 1) + [] == OwnOutputs(tx, txId, ours, n - 1);
    }
  }
}
