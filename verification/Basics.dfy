/** Small vocabulary shared by the models. */
module Basics {
  datatype Option<+T> = None | Some(value: T)

  function Min(x: int, y: int): int { if x <= y then x else y }

  function Max(x: int, y: int): int { if x >= y then x else y }

  // A hexadecimal digit, whose letters start at the given one.
  function HexChar(n: nat, letter: char): (c: char)
    requires n < 16 && (letter == 'a' || letter == 'A')
    ensures c as int < 128
  {
    if n < 10 then '0' + n as char else letter + (n - 10) as char
  }

  // The three facts about concatenation that the models use, away from their contexts.
  lemma Assoc<T>(a: seq<T>, b: seq<T>, c: seq<T>)
    ensures (a + b) + c == a + (b + c)
  {}

  lemma AppendEmpty<T>(a: seq<T>)
    ensures a + [] == a && [] + a == a
  {}

  lemma TailOfAppend<T>(a: seq<T>, b: seq<T>)
    requires a != []
    ensures (a + b)[0] == a[0] && (a + b)[1..] == a[1..] + b
  {}
}
