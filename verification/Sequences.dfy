/** Sequences taken apart from the end, and the equations about them that the proofs call for. */
module Sequences {

  function Init<T>(s: seq<T>): seq<T>
    requires s != []
  {
    s[..|s| - 1]
  }

  function Last<T>(s: seq<T>): T
    requires s != []
  {
    s[|s| - 1]
  }

  lemma InitLastConcat<T>(a: seq<T>, b: seq<T>)
    requires b != []
    ensures Init(a + b) == a + Init(b) && Last(a + b) == Last(b)
  {
  }

  lemma InitLastCons<T>(x: T, rest: seq<T>, tail: seq<T>)
    requires rest != []
    ensures Last([x] + rest) == Last(rest)
    ensures Init([x] + rest) + tail == [x] + (Init(rest) + tail)
  {
    assert Init([x] + rest) == [x] + Init(rest);
  }

  lemma FirstOfMany<T>(all: seq<T>)
    requires |all| > 1
    ensures Init(all) == [all[0]] + Init(all[1..])
  {
  }

  lemma ConsParts<T>(x: T, rest: seq<T>, all: seq<T>)
    requires all == [x] + rest
    ensures all != [] && all[0] == x && all[1..] == rest
  {
  }

  lemma HeadMoves<T>(a: seq<T>, q: seq<T>)
    requires q != []
    ensures (a + [q[0]]) + q[1..] == a + q
  {
  }

  lemma EmptyFirst<T>(s: seq<T>)
    ensures [] + s == s
  {
  }

  lemma EmptyLast<T>(s: seq<T>)
    ensures s + [] == s
  {
  }

  lemma Regroup<T>(a: seq<T>, b: seq<T>, c: seq<T>)
    ensures a + (b + c) == (a + b) + c
  {
  }
}
