// The round robin of shardRun over a 32-bit counter that wraps around.
module RoundRobin {

  const WORD: nat := 0x1_0000_0000

  // atomic.AddUint32(&nextShard, 1)
  function Ticket(next: nat): (t: nat)
    ensures t < WORD
  {
    (next + 1) % WORD
  }

  // The counter before request k; NewRuntime leaves it one below zero.
  function Counter(k: nat): (c: nat)
    ensures c < WORD
  {
    if k == 0 then WORD - 1 else Ticket(Counter(k - 1))
  }

  // The shard of request k.
  function ShardOf(k: nat, shards: nat): (i: nat)
    requires shards > 0
    ensures i < shards
  {
    Ticket(Counter(k)) % shards
  }

  lemma {:induction false} TicketIsNumber(k: nat)
    ensures Ticket(Counter(k)) == k % 0x1_0000_0000
  {
    if k == 0 {
      assert Counter(0) + 1 == WORD;
    } else {
      TicketIsNumber(k - 1);
      var r := (k - 1) % WORD;
      assert Counter(k) == r;
      NextRemainder(k - 1, WORD);
      if r == WORD - 1 { assert r + 1 == WORD; } else { Remainder(r + 1, 0, r + 1, WORD); }
    }
  }

  // How many of the first n requests shard i has been given.
  function Count(i: nat, n: nat, shards: nat): nat
    requires shards > 0
  {
    if n == 0 then 0 else Count(i, n - 1, shards) + (if ShardOf(n - 1, shards) == i then 1 else 0)
  }

  // The same without the wrap-around.
  function Plain(i: nat, n: nat, shards: nat): nat
    requires shards > 0
  {
    if n == 0 then 0 else Plain(i, n - 1, shards) + (if (n - 1) % shards == i then 1 else 0)
  }

  lemma {:induction false} PlainIsEven(i: nat, j: nat, n: nat, shards: nat)
    requires i < j < shards
    ensures Plain(i, n, shards) - Plain(j, n, shards) == if i < n % shards <= j then 1 else 0
  {
    if n > 0 {
      PlainIsEven(i, j, n - 1, shards);
      NextRemainder(n - 1, shards);
    } else {
      assert 0 % shards == 0;
    }
  }

  lemma NextRemainder(n: nat, d: nat)
    requires d > 0
    ensures (n + 1) % d == if n % d == d - 1 then 0 else n % d + 1
  {
    var q, r := n / d, n % d;
    assert n == q * d + r;
    if r == d - 1 {
      assert n + 1 == (q + 1) * d;
      Remainder(n + 1, q + 1, 0, d);
    } else {
      Remainder(n + 1, q, r + 1, d);
    }
  }

  lemma Remainder(n: nat, q: nat, r: nat, d: nat)
    requires r < d && n == q * d + r
    ensures n / d == q && n % d == r
  {
    var p := n / d;
    assert n == p * d + n % d;
    assert (q - p) * d == q * d - p * d == n % d - r;
    if q > p { Multiples(q - p, d); }
    if q < p { Multiples(p - q, d); }
  }

  lemma Multiples(k: nat, d: nat)
    requires k >= 1
    ensures k * d >= d
  {}

  // Whole turns of the counter, and what is left over.
  lemma {:induction false} CountByTurns(i: nat, turns: nat, left: nat, shards: nat)
    requires shards > 0 && left <= WORD
    ensures Count(i, turns * WORD + left, shards) == turns * Plain(i, WORD, shards) + Plain(i, left, shards)
    decreases turns, left
  {
    if left > 0 {
      CountByTurns(i, turns, left - 1, shards);
      var k := turns * WORD + (left - 1);
      TicketIsNumber(k);
      Remainder(k, turns, left - 1, WORD);
    } else if turns > 0 {
      CountByTurns(i, turns - 1, WORD, shards);
      assert turns * WORD + 0 == (turns - 1) * WORD + WORD;
      assert turns * Plain(i, WORD, shards) == (turns - 1) * Plain(i, WORD, shards) + Plain(i, WORD, shards);
    }
  }

  // Between two shards the difference is exactly one for each whole turn that favours
  // the lower, and one more while the current turn does.
  lemma DifferenceExactly(i: nat, j: nat, n: nat, shards: nat)
    requires i < j < shards
    ensures var turn := if i < WORD % shards <= j then 1 else 0;
      Count(i, n, shards) - Count(j, n, shards) == (n / WORD) * turn + (if i < (n % WORD) % shards <= j then 1 else 0)
  {
    var w, left := n / WORD, n % WORD;
    assert n == w * WORD + left;
    CountByTurns(i, w, left, shards);
    CountByTurns(j, w, left, shards);
    PlainIsEven(i, j, WORD, shards);
    PlainIsEven(i, j, left, shards);
    Distribute(w, Plain(i, WORD, shards), Plain(j, WORD, shards));
  }

  lemma Distribute(w: nat, a: nat, b: nat)
    ensures w * a - w * b == w * (a - b)
  {}

  // A lower shard never has fewer requests, and at most one more than the counter
  // has wrapped, plus one.
  lemma NearlyEven(i: nat, j: nat, n: nat, shards: nat)
    requires i < j < shards
    ensures 0 <= Count(i, n, shards) - Count(j, n, shards) <= n / WORD + 1
  {
    DifferenceExactly(i, j, n, shards);
  }

  // The round robin stays even, however long it runs, exactly when the number of
  // shards divides the number of counter values.
  ghost predicate AlwaysEven(shards: nat)
    requires shards > 0
  {
    forall i: nat, j: nat, n: nat :: i < j < shards ==> Count(i, n, shards) - Count(j, n, shards) <= 1
  }

  lemma EvenExactly(shards: nat)
    requires shards > 0
    ensures AlwaysEven(shards) <==> 0x1_0000_0000 % shards == 0
  {
    if WORD % shards == 0 {
      forall i: nat, j: nat, n: nat | i < j < shards ensures Count(i, n, shards) - Count(j, n, shards) <= 1 {
        DifferenceExactly(i, j, n, shards);
      }
    } else {
      var n := WORD + 1;
      assert shards > 1 && WORD % shards <= shards - 1;
      assert n / WORD == 1 && n % WORD == 1 && 1 % shards == 1;
      DifferenceExactly(0, shards - 1, n, shards);
    }
  }
}
