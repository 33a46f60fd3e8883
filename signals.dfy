/** The signal labels the system passes around, and counting them. */
module Signals {

  /** 'BUY', 'SELL', 'HOLD', 'NEUTRAL' and 'ERROR'. */
  datatype Signal = Buy | Sell | Hold | Neutral | Error

  /** The three labels that take part in a vote. */
  predicate IsVote(s: Signal)
  {
    s == Buy || s == Sell || s == Hold
  }

  /** `list.count(x)`. */
  function CountOf(s: seq<Signal>, x: Signal): (n: nat)
    ensures n <= |s|
  {
    if |s| == 0 then 0
    else CountOf(s[..|s| - 1], x) + (if s[|s| - 1] == x then 1 else 0)
  }

  /** A label counts zero times exactly when it is absent, and |s| times exactly when it is everywhere. */
  lemma {:induction false} CountOfExtremes(s: seq<Signal>, x: Signal)
    ensures CountOf(s, x) == 0 <==> forall i :: 0 <= i < |s| ==> s[i] != x
    ensures CountOf(s, x) == |s| <==> forall i :: 0 <= i < |s| ==> s[i] == x
  {
    if |s| > 0 {
      var init := s[..|s| - 1];
      CountOfExtremes(init, x);
      assert forall i :: 0 <= i < |init| ==> init[i] == s[i];
    }
  }

  /** The three vote counts never exceed the length, and add up to it when every label is a vote. */
  lemma {:induction false} VoteCountsBounded(s: seq<Signal>)
    ensures CountOf(s, Buy) + CountOf(s, Sell) + CountOf(s, Hold) <= |s|
    ensures (forall i :: 0 <= i < |s| ==> IsVote(s[i])) ==>
              CountOf(s, Buy) + CountOf(s, Sell) + CountOf(s, Hold) == |s|
  {
    if |s| > 0 {
      VoteCountsBounded(s[..|s| - 1]);
    }
  }

  /** `count` on a three-element list, one comparison per element. */
  lemma CountOfThree(a: Signal, b: Signal, c: Signal, x: Signal)
    ensures CountOf([a, b, c], x) == (if a == x then 1 else 0) + (if b == x then 1 else 0) + (if c == x then 1 else 0)
  {
    assert [a, b, c][..2] == [a, b];
    assert [a, b][..1] == [a];
    assert [a][..0] == [];
    assert CountOf([a], x) == (if a == x then 1 else 0);
    assert CountOf([a, b], x) == CountOf([a], x) + (if b == x then 1 else 0);
  }
}
