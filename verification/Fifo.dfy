/**
  First-in-first-out lots.

  A lot is a quantity with a tag.  Live cost layers, rebuilt historical layers and cost allocations
  are all lists of lots, so one small theory serves issues, transfer receipts and log replays.
  `Take` and `Drop` are the reference meaning of "consume q from the front"; `TagAt` says which
  tag pays for the unit at a given position, and is the meaning against which slices are stated.
*/
module Fifo {
  datatype Option<+T> = None | Some(value: T)

  datatype Lot<T> = Lot(qty: real, tag: T)

  function Min(a: real, b: real): real { if a <= b then a else b }

  /** Sum of a measure over a list. */
  function SumBy<T>(s: seq<T>, f: T -> real): real
  {
    if s == [] then 0.0 else SumBy(s[..|s| - 1], f) + f(s[|s| - 1])
  }

  function Sum<T>(ls: seq<Lot<T>>): real
  {
    if ls == [] then 0.0 else ls[0].qty + Sum(ls[1..])
  }

  function Value<T>(ls: seq<Lot<T>>, cost: T -> real): real
  {
    if ls == [] then 0.0 else ls[0].qty * cost(ls[0].tag) + Value(ls[1..], cost)
  }

  predicate Positive<T>(ls: seq<Lot<T>>)
  {
    forall i :: 0 <= i < |ls| ==> ls[i].qty > 0.0
  }

  /** What the first q units consist of. */
  function Take<T>(ls: seq<Lot<T>>, q: real): seq<Lot<T>>
  {
    if q <= 0.0 || ls == [] then []
    else if ls[0].qty <= q then [ls[0]] + Take(ls[1..], q - ls[0].qty)
    else [Lot(q, ls[0].tag)]
  }

  /** What is left once the first q units are gone. */
  function Drop<T>(ls: seq<Lot<T>>, q: real): seq<Lot<T>>
  {
    if q <= 0.0 || ls == [] then ls
    else if ls[0].qty <= q then Drop(ls[1..], q - ls[0].qty)
    else [Lot(ls[0].qty - q, ls[0].tag)] + ls[1..]
  }

  /** The tag of the unit at distance x from the front. */
  function TagAt<T>(ls: seq<Lot<T>>, x: real): Option<T>
  {
    if ls == [] || x < 0.0 then None
    else if x < ls[0].qty then Some(ls[0].tag)
    else TagAt(ls[1..], x - ls[0].qty)
  }

  function Retag<T, U>(ls: seq<Lot<T>>, f: T -> U): (r: seq<Lot<U>>)
    ensures |r| == |ls|
    ensures forall i :: 0 <= i < |ls| ==> r[i] == Lot(ls[i].qty, f(ls[i].tag))
  {
    seq(|ls|, i requires 0 <= i < |ls| => Lot(ls[i].qty, f(ls[i].tag)))
  }

  // ------------------------------------------------------------------ measures over lists

  lemma SumBySnoc<T>(s: seq<T>, x: T, f: T -> real)
    ensures SumBy(s + [x], f) == SumBy(s, f) + f(x)
  {
    assert (s + [x])[..|s|] == s;
  }

  lemma {:induction false} SumByUpdate<T>(s: seq<T>, i: nat, x: T, f: T -> real)
    requires i < |s|
    ensures SumBy(s[i := x], f) == SumBy(s, f) - f(s[i]) + f(x)
  {
    var n := |s| - 1;
    if i == n {
      assert s[i := x][..n] == s[..n];
    } else {
      assert s[i := x][..n] == s[..n][i := x];
      SumByUpdate(s[..n], i, x, f);
    }
  }

  lemma {:induction false} SumByConcat<T>(s: seq<T>, t: seq<T>, f: T -> real)
    ensures SumBy(s + t, f) == SumBy(s, f) + SumBy(t, f)
  {
    if t == [] {
      assert s + t == s;
    } else {
      var n := |t| - 1;
      assert (s + t)[..|s + t| - 1] == s + t[..n];
      SumByConcat(s, t[..n], f);
    }
  }

  lemma {:induction false} SumByZero<T>(s: seq<T>, f: T -> real)
    requires forall i :: 0 <= i < |s| ==> f(s[i]) == 0.0
    ensures SumBy(s, f) == 0.0
  {
    if s != [] {
      SumByZero(s[..|s| - 1], f);
    }
  }

  lemma {:induction false} SumByNonNegative<T>(s: seq<T>, f: T -> real)
    requires forall i :: 0 <= i < |s| ==> f(s[i]) >= 0.0
    ensures SumBy(s, f) >= 0.0
    ensures forall i :: 0 <= i < |s| ==> f(s[i]) <= SumBy(s, f)
  {
    if s != [] {
      SumByNonNegative(s[..|s| - 1], f);
    }
  }

  lemma {:induction false} SumByFinite<T>(s: seq<T>, t: seq<T>, f: T -> real)
    requires |s| == |t| && forall i :: 0 <= i < |s| ==> f(s[i]) == f(t[i])
    ensures SumBy(s, f) == SumBy(t, f)
  {
    if s != [] {
      SumByFinite(s[..|s| - 1], t[..|t| - 1], f);
    }
  }

  // ------------------------------------------------------------------ taking and dropping

  lemma {:induction false} SumPositive<T>(ls: seq<Lot<T>>)
    requires Positive(ls)
    ensures Sum(ls) >= 0.0 && (ls != [] ==> Sum(ls) > 0.0)
  {
    if ls != [] {
      SumPositive(ls[1..]);
    }
  }

  lemma {:induction false} SumConcat<T>(xs: seq<Lot<T>>, ys: seq<Lot<T>>)
    ensures Sum(xs + ys) == Sum(xs) + Sum(ys)
  {
    if xs == [] {
      assert xs + ys == ys;
    } else {
      assert (xs + ys)[1..] == xs[1..] + ys;
      SumConcat(xs[1..], ys);
    }
  }

  lemma {:induction false} ValueConcat<T>(xs: seq<Lot<T>>, ys: seq<Lot<T>>, cost: T -> real)
    ensures Value(xs + ys, cost) == Value(xs, cost) + Value(ys, cost)
  {
    if xs == [] {
      assert xs + ys == ys;
    } else {
      assert (xs + ys)[1..] == xs[1..] + ys;
      ValueConcat(xs[1..], ys, cost);
    }
  }

  lemma {:induction false} SplitQuantity<T>(ls: seq<Lot<T>>, q: real)
    requires Positive(ls) && q >= 0.0
    ensures Positive(Take(ls, q)) && Positive(Drop(ls, q))
    ensures Sum(Take(ls, q)) == Min(q, Sum(ls))
    ensures Sum(Take(ls, q)) + Sum(Drop(ls, q)) == Sum(ls)
  {
    SumPositive(ls);
    if q > 0.0 && ls != [] {
      var h := ls[0].qty;
      SumPositive(ls[1..]);
      if h <= q {
        SplitQuantity(ls[1..], q - h);
        var t := Take(ls[1..], q - h);
        assert ([ls[0]] + t)[1..] == t;
      } else {
        var d := [Lot(h - q, ls[0].tag)] + ls[1..];
        assert d[1..] == ls[1..];
        assert [Lot(q, ls[0].tag)][1..] == [];
      }
    }
  }

  lemma {:induction false} SplitValue<T>(ls: seq<Lot<T>>, q: real, cost: T -> real)
    requires q >= 0.0
    ensures Value(Take(ls, q), cost) + Value(Drop(ls, q), cost) == Value(ls, cost)
  {
    if q > 0.0 && ls != [] {
      var h, c := ls[0].qty, cost(ls[0].tag);
      if h <= q {
        SplitValue(ls[1..], q - h, cost);
        var t := Take(ls[1..], q - h);
        assert ([ls[0]] + t)[1..] == t;
      } else {
        var d := [Lot(h - q, ls[0].tag)] + ls[1..];
        assert d[1..] == ls[1..];
        var t := [Lot(q, ls[0].tag)];
        assert t[1..] == [];
        assert Value(t, cost) == q * c;
        assert Value(d, cost) == (h - q) * c + Value(ls[1..], cost);
        Distribute(h, q, c);
      }
    }
  }

  lemma Distribute(h: real, q: real, c: real)
    ensures (h - q) * c + q * c == h * c
  {
  }

  /** Consuming q takes exactly q (or everything), leaves the rest, and loses no value. */
  lemma Split<T>(ls: seq<Lot<T>>, q: real, cost: T -> real)
    requires Positive(ls) && q >= 0.0
    ensures Positive(Take(ls, q)) && Positive(Drop(ls, q))
    ensures Sum(Take(ls, q)) == Min(q, Sum(ls))
    ensures Sum(Take(ls, q)) + Sum(Drop(ls, q)) == Sum(ls)
    ensures Value(Take(ls, q), cost) + Value(Drop(ls, q), cost) == Value(ls, cost)
  {
    SplitQuantity(ls, q);
    SplitValue(ls, q, cost);
  }

  lemma {:induction false} TakeAll<T>(ls: seq<Lot<T>>, q: real)
    requires Positive(ls) && q >= Sum(ls)
    ensures Take(ls, q) == ls && Drop(ls, q) == []
  {
    SumPositive(ls);
    if ls != [] {
      SumPositive(ls[1..]);
      TakeAll(ls[1..], q - ls[0].qty);
    }
  }

  /** Taking a then b is taking a + b, as far as what is left is concerned. */
  lemma {:induction false} DropDrop<T>(ls: seq<Lot<T>>, a: real, b: real)
    requires Positive(ls) && a >= 0.0 && b >= 0.0
    ensures Drop(Drop(ls, a), b) == Drop(ls, a + b)
  {
    if ls != [] && a > 0.0 {
      if ls[0].qty <= a {
        DropDrop(ls[1..], a - ls[0].qty, b);
        assert a + b - ls[0].qty == a - ls[0].qty + b;
      } else {
        var d := [Lot(ls[0].qty - a, ls[0].tag)] + ls[1..];
        assert d[1..] == ls[1..] && d[0] == Lot(ls[0].qty - a, ls[0].tag);
        if b > 0.0 && d[0].qty <= b {
          assert b - d[0].qty == a + b - ls[0].qty;
        }
      }
    }
  }

  /** Lots appended at the back are reached only when the front is used up. */
  lemma {:induction false} DropConcat<T>(xs: seq<Lot<T>>, ys: seq<Lot<T>>, q: real)
    requires Positive(xs) && Positive(ys)
    ensures Drop(xs + ys, q) ==
            if q <= Sum(xs) then Drop(xs, q) + ys else Drop(ys, q - Sum(xs))
  {
    SumPositive(xs);
    if xs == [] {
      assert xs + ys == ys;
    } else {
      assert (xs + ys)[1..] == xs[1..] + ys;
      SumPositive(xs[1..]);
      if q > 0.0 && xs[0].qty <= q {
        DropConcat(xs[1..], ys, q - xs[0].qty);
      }
    }
  }

  lemma {:induction false} TakeConcat<T>(xs: seq<Lot<T>>, ys: seq<Lot<T>>, q: real)
    requires Positive(xs) && Positive(ys)
    ensures Take(xs + ys, q) == Take(xs, q) + Take(ys, q - Sum(xs))
  {
    SumPositive(xs);
    if xs == [] {
      assert xs + ys == ys;
    } else {
      assert (xs + ys)[1..] == xs[1..] + ys;
      SumPositive(xs[1..]);
      if q > 0.0 && xs[0].qty <= q {
        TakeConcat(xs[1..], ys, q - xs[0].qty);
        assert Take(xs + ys, q) == [xs[0]] + Take(xs[1..] + ys, q - xs[0].qty);
      } else {
        assert Take(ys, q - Sum(xs)) == [];
      }
    }
  }

  lemma {:induction false} DropRetag<T, U>(ls: seq<Lot<T>>, q: real, f: T -> U)
    ensures Drop(Retag(ls, f), q) == Retag(Drop(ls, q), f)
    ensures Take(Retag(ls, f), q) == Retag(Take(ls, q), f)
  {
    if q > 0.0 && ls != [] {
      assert Retag(ls, f)[1..] == Retag(ls[1..], f);
      if ls[0].qty <= q {
        DropRetag(ls[1..], q - ls[0].qty, f);
      }
    }
  }

  // ------------------------------------------------------------------ position by position

  /** The unit at position x of what was taken is the unit at position x of the original. */
  lemma {:induction false} TagAtTake<T>(ls: seq<Lot<T>>, q: real, x: real)
    requires Positive(ls) && 0.0 <= x
    ensures TagAt(Take(ls, q), x) == if x < q then TagAt(ls, x) else None
  {
    if q > 0.0 && ls != [] {
      if ls[0].qty <= q {
        var t := Take(ls[1..], q - ls[0].qty);
        assert ([ls[0]] + t)[1..] == t;
        if x >= ls[0].qty {
          TagAtTake(ls[1..], q - ls[0].qty, x - ls[0].qty);
        }
      } else {
        assert [Lot(q, ls[0].tag)][1..] == [];
      }
    }
  }

  /** Dropping q shifts every position by q. */
  lemma {:induction false} TagAtDrop<T>(ls: seq<Lot<T>>, q: real, x: real)
    requires Positive(ls) && 0.0 <= q && 0.0 <= x
    ensures TagAt(Drop(ls, q), x) == TagAt(ls, q + x)
  {
    if q > 0.0 && ls != [] {
      if ls[0].qty <= q {
        TagAtDrop(ls[1..], q - ls[0].qty, x);
        assert q + x - ls[0].qty == q - ls[0].qty + x;
      } else {
        var d := [Lot(ls[0].qty - q, ls[0].tag)] + ls[1..];
        assert d[1..] == ls[1..];
        assert x - d[0].qty == q + x - ls[0].qty;
      }
    }
  }

  /** Two consecutive stretches are worth what the stretch of both is worth. */
  lemma {:induction false} TakeTakeValue<T>(ls: seq<Lot<T>>, a: real, b: real, cost: T -> real)
    requires Positive(ls) && a >= 0.0 && b >= 0.0
    ensures Value(Take(ls, a), cost) + Value(Take(Drop(ls, a), b), cost) == Value(Take(ls, a + b), cost)
  {
    Split(ls, a, cost);
    Split(Drop(ls, a), b, cost);
    Split(ls, a + b, cost);
    DropDrop(ls, a, b);
  }

  // ------------------------------------------------------------------ FIFO has no choice

  /** An assignment of used quantities that respects FIFO order and uses q in all. */
  predicate FifoUse<T>(ls: seq<Lot<T>>, used: seq<real>, q: real)
  {
    && |used| == |ls|
    && (forall i :: 0 <= i < |ls| ==> 0.0 <= used[i] <= ls[i].qty)
    && (forall i, j :: 0 <= i < j < |ls| && used[j] > 0.0 ==> used[i] == ls[i].qty)
    && SumBy(used, (u: real) => u) == q
  }

  /** The lots that remain, exhausted ones removed. */
  function Remaining<T>(ls: seq<Lot<T>>, used: seq<real>): seq<Lot<T>>
    requires |used| == |ls|
  {
    if ls == [] then []
    else (if used[0] < ls[0].qty then [Lot(ls[0].qty - used[0], ls[0].tag)] else []) +
         Remaining(ls[1..], used[1..])
  }

  /** The quantities `Take` uses, lot by lot. */
  function Used<T>(ls: seq<Lot<T>>, q: real): (u: seq<real>)
    ensures |u| == |ls|
  {
    if ls == [] then []
    else if q <= 0.0 then [0.0] + Used(ls[1..], q)
    else [Min(ls[0].qty, q)] + Used(ls[1..], q - ls[0].qty)
  }

  lemma {:induction false} SumByHead(u: seq<real>)
    requires u != []
    ensures SumBy(u, (x: real) => x) == u[0] + SumBy(u[1..], (x: real) => x)
  {
    assert u == [u[0]] + u[1..];
    SumByConcat([u[0]], u[1..], (x: real) => x);
    SumBySnoc([], u[0], (x: real) => x);
    assert [] + [u[0]] == [u[0]];
  }

  lemma {:induction false} UsedNothing<T>(ls: seq<Lot<T>>, q: real)
    requires q <= 0.0
    ensures forall i :: 0 <= i < |ls| ==> Used(ls, q)[i] == 0.0
    ensures SumBy(Used(ls, q), (x: real) => x) == 0.0
  {
    if ls != [] {
      UsedNothing(ls[1..], q);
      assert Used(ls, q)[1..] == Used(ls[1..], q);
    }
    SumByZero(Used(ls, q), (x: real) => x);
  }

  lemma UseHead<T>(ls: seq<Lot<T>>, head: real, rest: seq<real>, q: real)
    requires ls != [] && FifoUse(ls[1..], rest, q) && 0.0 <= head <= ls[0].qty
    requires head == ls[0].qty || forall i :: 0 <= i < |rest| ==> rest[i] == 0.0
    ensures FifoUse(ls, [head] + rest, head + q)
  {
    var used := [head] + rest;
    SumByHead(used);
    assert used[1..] == rest;
    forall i | 0 <= i < |ls| ensures 0.0 <= used[i] <= ls[i].qty {
      if i > 0 { assert used[i] == rest[i - 1] && ls[i] == ls[1..][i - 1]; }
    }
    forall i, j | 0 <= i < j < |ls| && used[j] > 0.0 ensures used[i] == ls[i].qty {
      assert used[j] == rest[j - 1];
      if i > 0 { assert used[i] == rest[i - 1] && ls[i] == ls[1..][i - 1]; }
    }
  }

  lemma NothingIsFifo<T>(ls: seq<Lot<T>>, q: real)
    requires Positive(ls) && q <= 0.0
    ensures FifoUse(ls, Used(ls, q), 0.0)
  {
    UsedNothing(ls, q);
  }

  lemma {:induction false} UsedIsFifo<T>(ls: seq<Lot<T>>, q: real)
    requires Positive(ls) && 0.0 <= q <= Sum(ls)
    ensures FifoUse(ls, Used(ls, q), q)
  {
    if q == 0.0 {
      NothingIsFifo(ls, q);
    } else if q <= ls[0].qty {
      NothingIsFifo(ls[1..], q - ls[0].qty);
      UsedNothing(ls[1..], q - ls[0].qty);
      UseHead(ls, q, Used(ls[1..], q - ls[0].qty), 0.0);
    } else {
      UsedIsFifo(ls[1..], q - ls[0].qty);
      UseHead(ls, ls[0].qty, Used(ls[1..], q - ls[0].qty), q - ls[0].qty);
    }
  }

  lemma FifoUseTail<T>(ls: seq<Lot<T>>, used: seq<real>, q: real)
    requires Positive(ls) && FifoUse(ls, used, q) && ls != []
    ensures FifoUse(ls[1..], used[1..], q - used[0])
    ensures used[0] < ls[0].qty ==> q == used[0]
  {
    SumByHead(used);
    var rest := used[1..];
    forall i, j | 0 <= i < j < |rest| && rest[j] > 0.0 ensures rest[i] == ls[1..][i].qty {
      assert used[j + 1] > 0.0;
    }
    if used[0] < ls[0].qty {
      forall j | 0 <= j < |rest| ensures rest[j] == 0.0 {
        assert used[j + 1] == rest[j];
      }
      SumByZero(rest, (x: real) => x);
    }
  }

  /**
    First-in-first-out leaves no choice: whatever assignment uses q units in order leaves exactly
    `Drop(ls, q)`.  `UsedIsFifo` shows that such an assignment exists.
  */
  lemma {:induction false} FifoUnique<T>(ls: seq<Lot<T>>, used: seq<real>, q: real)
    requires Positive(ls) && FifoUse(ls, used, q)
    ensures Remaining(ls, used) == Drop(ls, q)
  {
    if ls != [] {
      FifoUseTail(ls, used, q);
      FifoUnique(ls[1..], used[1..], q - used[0]);
      assert q - used[0] >= 0.0 by { FifoUnderflow(ls[1..], used[1..], q - used[0]); }
      RemainingHead(ls, used, q);
    }
  }

  lemma RemainingHead<T>(ls: seq<Lot<T>>, used: seq<real>, q: real)
    requires ls != [] && ls[0].qty > 0.0 && |used| == |ls| && 0.0 <= used[0] <= ls[0].qty && used[0] <= q
    requires used[0] < ls[0].qty ==> q == used[0]
    requires Remaining(ls[1..], used[1..]) == Drop(ls[1..], q - used[0])
    ensures Remaining(ls, used) == Drop(ls, q)
  {
    DropNothing(ls[1..], q - used[0]);
  }

  lemma FifoUnderflow<T>(ls: seq<Lot<T>>, used: seq<real>, q: real)
    requires FifoUse(ls, used, q)
    ensures q >= 0.0
  {
    SumByNonNegative(used, (x: real) => x);
  }

  lemma {:induction false} DropNothing<T>(ls: seq<Lot<T>>, q: real)
    ensures q <= 0.0 ==> Drop(ls, q) == ls
  {
  }
}
