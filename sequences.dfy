/** Sequence helpers shared by the image detector's clue list and the crash
    monitor's event log. */
module Sequences {

  /** `s.slice(0, n)`: the first n elements, or all of them when there are
      fewer. */
  function Take<T>(s: seq<T>, n: nat): (r: seq<T>)
    ensures r <= s
    ensures |r| == if |s| < n then |s| else n
  {
    if |s| < n then s else s[..n]
  }

  lemma TakeTake<T>(s: seq<T>, m: nat, n: nat)
    requires n <= m
    ensures Take(Take(s, m), n) == Take(s, n)
  {
  }

  lemma TakeCons<T>(x: T, s: seq<T>, n: nat)
    ensures Take([x] + s, n + 1) == [x] + Take(s, n)
  {
    if n < |s| {
      assert ([x] + s)[..n + 1] == [x] + s[..n];
    }
  }
}
