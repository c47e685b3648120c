/** Sequences and text: what several modules use. */
module Sequences {
  lemma Assoc<T>(a: seq<T>, b: seq<T>, c: seq<T>)
    ensures a + (b + c) == (a + b) + c
  {
  }

  /** Every `from` becomes `to`. */
  function Replaced(s: string, from: char, to: char): string {
    if s == [] then [] else [if s[0] == from then to else s[0]] + Replaced(s[1..], from, to)
  }

  /** Without one leading slash. */
  function WithoutSlash(topic: string): string {
    if topic != [] && topic[0] == '/' then topic[1..] else topic
  }

  lemma {:induction false} ReplacedAt(s: string, from: char, to: char, i: nat)
    requires i < |s|
    ensures |Replaced(s, from, to)| == |s|
    ensures Replaced(s, from, to)[i] == if s[i] == from then to else s[i]
    decreases s
  {
    if |s| > 1 { ReplacedAt(s[1..], from, to, if i > 0 then i - 1 else 0); }
  }

  lemma {:induction false} ReplacedHasNone(s: string, from: char, to: char)
    requires from != to
    ensures from !in Replaced(s, from, to)
  {
    if s != [] { ReplacedHasNone(s[1..], from, to); }
  }

  /** Replacing there and back is the identity on names that do not use the second character. */
  lemma {:induction false} ReplacedBack(s: string, a: char, b: char)
    requires b !in s
    ensures Replaced(Replaced(s, a, b), b, a) == s
  {
    if s != [] { ReplacedBack(s[1..], a, b); }
  }
}
