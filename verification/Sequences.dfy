/** Taking one element out of a sequence. */
module Sequences {

  lemma TakeOut<T>(t: seq<T>, x: T) returns (j: nat)
    requires x in multiset(t)
    ensures j < |t| && t[j] == x && t == (t[..j] + [x]) + t[j + 1..]
    ensures multiset(t[..j] + t[j + 1..]) == multiset(t) - multiset{x}
  {
    j :| j < |t| && t[j] == x;
    assert t == (t[..j] + [x]) + t[j + 1..];
  }

  lemma DropLast<T>(s: seq<T>)
    requires s != []
    ensures s == s[..|s| - 1] + [s[|s| - 1]] && s[|s| - 1] in multiset(s)
    ensures multiset(s[..|s| - 1]) == multiset(s) - multiset{s[|s| - 1]}
  {
    assert s == s[..|s| - 1] + [s[|s| - 1]];
  }
}
