/** Balance books: what a token contract stores, and the sum over all its holders. */
module Balances {
  import opened Soroban
  import Arith

  type Book = map<Address, nat>

  function Get(b: Book, a: Address): nat {
    if a in b then b[a] else 0
  }

  /** An entry that reaches zero is removed. */
  function Spend(b: Book, a: Address, x: nat): (b': Book)
    requires x <= Get(b, a)
  {
    if x == Get(b, a) then b - {a} else b[a := b[a] - x]
  }

  function Receive(b: Book, a: Address, x: nat): Book {
    b[a := Get(b, a) + x]
  }

  function Move(b: Book, from: Address, to: Address, x: nat): Book
    requires x <= Get(b, from)
  {
    Receive(Spend(b, from, x), to, x)
  }

  /** The sum over all holders. */
  ghost function Sum(b: Book): nat {
    if b == map[] then 0 else var a :| a in b; b[a] + Sum(b - {a})
  }

  lemma {:induction false} SumRemove(b: Book, a: Address)
    requires a in b
    ensures Sum(b) == b[a] + Sum(b - {a})
    decreases |b|
  {
    var c :| c in b && Sum(b) == b[c] + Sum(b - {c});
    if c != a {
      SumRemove(b - {c}, a);
      SumRemove(b - {a}, c);
      assert b - {c} - {a} == b - {a} - {c};
    }
  }

  lemma SumSpend(b: Book, a: Address, x: nat)
    requires x <= Get(b, a)
    ensures Sum(Spend(b, a, x)) == Sum(b) - x
  {
    if a in b {
      SumRemove(b, a);
      if x != b[a] {
        SumRemove(Spend(b, a, x), a);
        assert Spend(b, a, x) - {a} == b - {a};
      }
    } else {
      assert b - {a} == b;
    }
  }

  lemma SumReceive(b: Book, a: Address, x: nat)
    ensures Sum(Receive(b, a, x)) == Sum(b) + x
  {
    SumRemove(Receive(b, a, x), a);
    if a in b {
      SumRemove(b, a);
      assert Receive(b, a, x) - {a} == b - {a};
    } else {
      assert Receive(b, a, x) - {a} == b;
    }
  }

  lemma SumMove(b: Book, from: Address, to: Address, x: nat)
    requires x <= Get(b, from)
    ensures Sum(Move(b, from, to, x)) == Sum(b)
  {
    SumSpend(b, from, x);
    SumReceive(Spend(b, from, x), to, x);
  }

  /** No single balance exceeds the sum. */
  lemma GetAtMostSum(b: Book, a: Address)
    ensures Get(b, a) <= Sum(b)
  {
    if a in b { SumRemove(b, a); }
  }

  lemma {:induction false} SumMono(p: Book, b: Book)
    requires p.Keys == b.Keys && forall a :: a in b ==> p[a] <= b[a]
    ensures Sum(p) <= Sum(b)
    decreases |b|
  {
    if b != map[] {
      var a :| a in b;
      SumRemove(b, a);
      SumRemove(p, a);
      SumMono(p - {a}, b - {a});
    } else {
      assert p == map[];
    }
  }

  function Times(b: Book, k: nat): Book { map a | a in b :: b[a] * k }

  lemma TimesRemove(b: Book, a: Address, k: nat)
    requires a in b
    ensures Times(b, k)[a] == b[a] * k && Times(b, k) - {a} == Times(b - {a}, k)
  {
  }

  lemma {:induction false} SumTimes(b: Book, k: nat)
    ensures Sum(Times(b, k)) == Sum(b) * k
    decreases |b|
  {
    if b == map[] {
      assert Times(b, k) == map[];
    } else {
      var a :| a in b;
      var rest := b - {a};
      var times := Times(b, k);
      TimesRemove(b, a, k);
      SumTimes(rest, k);
      SumRemove(b, a);
      SumRemove(times, a);
      assert Sum(times) == b[a] * k + Sum(rest) * k;
      Arith.Distribute(b[a], Sum(rest), k);
    }
  }

  /** If every entry of `p` is at most `num/den` of the entry of `b`, so is the sum. */
  lemma SumScaled(p: Book, b: Book, num: nat, den: nat)
    requires p.Keys == b.Keys
    requires forall a :: a in b ==> Arith.Scaled(p[a], b[a], num, den)
    ensures Arith.Scaled(Sum(p), Sum(b), num, den)
  {
    SumTimes(p, den);
    SumTimes(b, num);
    SumMono(Times(p, den), Times(b, num));
  }

  /** The sum of `b` over the addresses of a list. */
  function SumOver(list: seq<Address>, b: Book): nat {
    if list == [] then 0 else Get(b, list[0]) + SumOver(list[1..], b)
  }

  ghost predicate NoDup<T>(s: seq<T>) {
    forall i, j :: 0 <= i < j < |s| ==> s[i] != s[j]
  }

  /** Changing the entry of one address moves the sum by that entry's change. */
  lemma {:induction false} SumOverUpdate(list: seq<Address>, b: Book, b': Book, k: Address)
    requires NoDup(list)
    requires forall a :: a != k ==> Get(b, a) == Get(b', a)
    ensures SumOver(list, b') == SumOver(list, b) + (if k in list then Get(b', k) - Get(b, k) else 0)
  {
    if list != [] {
      SumOverUpdate(list[1..], b, b', k);
      assert k in list <==> k == list[0] || k in list[1..];
      assert k == list[0] ==> k !in list[1..];
    }
  }

  lemma {:induction false} SumOverSame(list: seq<Address>, b: Book, b': Book)
    requires forall a :: a in list ==> Get(b, a) == Get(b', a)
    ensures SumOver(list, b') == SumOver(list, b)
  {
    if list != [] { SumOverSame(list[1..], b, b'); }
  }

  lemma {:induction false} SumOverAppend(list: seq<Address>, a: Address, b: Book)
    ensures SumOver(list + [a], b) == SumOver(list, b) + Get(b, a)
  {
    if list == [] {
      assert list + [a] == [a];
    } else {
      SumOverAppend(list[1..], a, b);
      assert (list + [a])[1..] == list[1..] + [a];
    }
  }
}
