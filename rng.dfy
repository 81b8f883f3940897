/**
 * The randomiser cog of cogs/rng.py: randint, which orders its two bounds
 * before drawing, and roll, which draws from 1 to n. The draw itself is the
 * library's: any value random.randint may return is passed in as `draw`.
 */
module Rng {

  /** random.randint(a, b): ValueError (EmptyRange here) for an empty range, else the draw. */
  datatype Draw = Value(n: int) | EmptyRange

  function RandInt(a: int, b: int, draw: int): (r: Draw)
    requires a <= b ==> a <= draw <= b
    ensures r.EmptyRange? <==> a > b
    ensures r.Value? ==> a <= r.n <= b
  {
    if a > b then EmptyRange else Value(draw)
  }

  /** The replies: "(int lo to hi): v", "Rolled v.", and the bound error with a confused reaction. */
  datatype Reply = Drew(lo: int, hi: int, value: int) | Rolled(value: int) | NeedPositiveBound

  /** The bounds randint's converter gives: a defaults to 100 and b to 1; extra arguments are ignored. */
  function Arguments(args: seq<int>): (bounds: (int, int))
  {
    (if |args| >= 1 then args[0] else 100, if |args| >= 2 then args[1] else 1)
  }

  /** `if a > b: a, b = b, a`. */
  function Ordered(a: int, b: int): (r: (int, int))
    ensures r.0 <= r.1
    ensures multiset{r.0, r.1} == multiset{a, b}
    ensures a <= b ==> r == (a, b)
  {
    if a > b then (b, a) else (a, b)
  }

  /** The ordering only reorders: the pair keeps its two values as a set as well. */
  lemma OrderedKeepsValues(a: int, b: int)
    ensures {Ordered(a, b).0, Ordered(a, b).1} == {a, b}
  {
  }

  /** No arguments give the bounds 1 and 100; one argument a >= 1 gives 1 and a. */
  lemma DefaultBounds(a: int)
    ensures Ordered(Arguments([]).0, Arguments([]).1) == (1, 100)
    ensures a >= 1 ==> Ordered(Arguments([a]).0, Arguments([a]).1) == (1, a)
  {
  }

  /** randint: orders the bounds, then reports them and a draw from the inclusive range. */
  function RandomInteger(args: seq<int>, draw: int): (r: Reply)
    requires var (lo, hi) := Ordered(Arguments(args).0, Arguments(args).1); lo <= draw <= hi
    ensures r.Drew?
    ensures r.lo <= r.value <= r.hi
    ensures multiset{r.lo, r.hi} == multiset{Arguments(args).0, Arguments(args).1}
  {
    var (a, b) := Arguments(args);
    var (lo, hi) := Ordered(a, b);
    match RandInt(lo, hi, draw)
    case Value(v) => Drew(lo, hi, v)
    case EmptyRange => assert false; NeedPositiveBound
  }

  /** roll: n defaults to 6; randint(1, n) raises for n < 1, which is answered with the bound error. */
  function Roll(args: seq<int>, draw: int): (r: Reply)
    requires var n := if |args| >= 1 then args[0] else 6; n >= 1 ==> 1 <= draw <= n
    ensures var n := if |args| >= 1 then args[0] else 6;
      && (r == NeedPositiveBound <==> n < 1)
      && (n >= 1 ==> r.Rolled? && 1 <= r.value <= n)
  {
    var n := if |args| >= 1 then args[0] else 6;
    match RandInt(1, n, draw)
    case Value(v) => Rolled(v)
    case EmptyRange => NeedPositiveBound
  }
}
