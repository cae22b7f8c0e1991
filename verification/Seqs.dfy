/** Facts about concatenation, kept apart so that other proofs need not rediscover them. */
module Seqs {

  lemma Assoc<T>(a: seq<T>, b: seq<T>, c: seq<T>)
    ensures (a + b) + c == a + (b + c)
  {
  }

  lemma Around<T>(a: seq<T>, t: T, b: seq<T>)
    ensures var s := a + [t] + b;
            |s| == |a| + 1 + |b| && s[|a|] == t && s[..|a|] == a && s[|a| + 1..] == b
            && s == a + ([t] + b)
  {
  }

  lemma Bracketed<T>(open: T, a: seq<T>, close: T, b: seq<T>)
    ensures var s := [open] + a + [close] + b;
            |s| == |a| + 2 + |b| && s[0] == open && s[1..] == a + [close] + b
  {
  }

  lemma Cancel<T>(x: seq<T>, a: seq<T>, b: seq<T>)
    ensures x + a == x + b <==> a == b
  {
    assert (x + a)[|x|..] == a && (x + b)[|x|..] == b;
  }

  lemma Parts<T>(x: seq<T>, y: seq<T>)
    ensures (x + y)[..|x|] == x && (x + y)[|x|..] == y
  {
  }

  lemma Cut<T>(s: seq<T>, i: nat, n: nat)
    requires i + n <= |s|
    ensures s[i..] == s[i..][..n] + s[i + n..] && s[i..][n..] == s[i + n..]
  {
  }

  lemma Uncons<T>(s: seq<T>)
    requires s != []
    ensures s == [s[0]] + s[1..]
  {
  }
}
