// Shared vocabulary: optional values, reversal and counting on sequences.
module Base {

  datatype Option<+T> = None | Some(value: T)

  function Reverse<T>(s: seq<T>): (r: seq<T>)
    ensures |r| == |s|
    ensures forall i :: 0 <= i < |s| ==> r[i] == s[|s| - 1 - i]
  {
    if s == [] then [] else [s[|s| - 1]] + Reverse(s[..|s| - 1])
  }

  function Map<T, U>(s: seq<T>, f: T -> U): (r: seq<U>)
    ensures |r| == |s|
    ensures forall i :: 0 <= i < |s| ==> r[i] == f(s[i])
  {
    seq(|s|, i requires 0 <= i < |s| => f(s[i]))
  }

  lemma MapFirst<T, U>(s: seq<T>, f: T -> U)
    requires s != []
    ensures Map(s, f) == [f(s[0])] + Map(s[1..], f)
  {}

  lemma MapLast<T, U>(s: seq<T>, f: T -> U, i: nat)
    requires i < |s|
    ensures Map(s[..i + 1], f) == Map(s[..i], f) + [f(s[i])]
  {}

  // Number of true entries.
  function Trues(s: seq<bool>): (n: nat)
    ensures n <= |s|
  {
    if s == [] then 0 else Trues(s[..|s| - 1]) + (if s[|s| - 1] then 1 else 0)
  }

  lemma TruesPush(s: seq<bool>, b: bool)
    ensures Trues(s + [b]) == Trues(s) + (if b then 1 else 0)
  {
    assert (s + [b])[..|s|] == s;
  }

  lemma {:induction false} TruesUpdate(s: seq<bool>, i: nat, b: bool)
    requires i < |s|
    ensures Trues(s[i := b]) == Trues(s) - (if s[i] then 1 else 0) + (if b then 1 else 0)
  {
    var t := s[i := b];
    if i == |s| - 1 {
      assert t[..|t| - 1] == s[..|s| - 1];
    } else {
      assert t[..|t| - 1] == s[..|s| - 1][i := b];
      TruesUpdate(s[..|s| - 1], i, b);
    }
  }

  lemma {:induction false} TruesZero(s: seq<bool>)
    ensures Trues(s) == 0 <==> forall i :: 0 <= i < |s| ==> !s[i]
  {
    if s != [] {
      TruesZero(s[..|s| - 1]);
      assert forall i :: 0 <= i < |s| - 1 ==> s[i] == s[..|s| - 1][i];
    }
  }
}
