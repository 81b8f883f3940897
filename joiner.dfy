/**
 * The grammatical list joiner shared by `skipped_msg` (cogs/mod.py,
 * cogs/moderator.py) and `user_chain` (cogs/litwa.py): no names give "",
 * one name gives itself, two give "A and B", three or more give
 * "A, B, and Z".
 */
module Joiner {

  /** What the source's loop over all names but the last builds: each name followed by ", ". */
  function Listing(names: seq<string>): (s: string)
  {
    if names == [] then "" else Listing(names[..|names| - 1]) + names[|names| - 1] + ", "
  }

  /** The joined text, case by case as the source builds it. */
  function Chain(names: seq<string>): (s: string)
  {
    if |names| == 0 then ""
    else if |names| == 1 then names[0]
    else if |names| == 2 then names[0] + " and " + names[1]
    else Listing(names[..|names| - 1]) + "and " + names[|names| - 1]
  }

  /** k copies of ", ". */
  function Commas(k: nat): (seps: seq<string>)
    ensures |seps| == k
    ensures forall i :: 0 <= i < k ==> seps[i] == ", "
  {
    if k == 0 then [] else Commas(k - 1) + [", "]
  }

  /** The separator that follows each name but the last, in a list of n names. */
  function Separators(n: nat): (seps: seq<string>)
    ensures n >= 1 ==> |seps| == n - 1
  {
    if n <= 1 then [] else if n == 2 then [" and "] else Commas(n - 2) + [", and "]
  }

  /** names[0] + seps[0] + names[1] + ... + seps[n-2] + names[n-1]. */
  function Interleave(names: seq<string>, seps: seq<string>): (s: string)
    requires |names| >= 1 && |seps| == |names| - 1
  {
    if |names| == 1 then names[0]
    else Interleave(names[..|names| - 1], seps[..|seps| - 1]) + seps[|seps| - 1] + names[|names| - 1]
  }

  /**
   * The reference reading of the joiner: every name exactly once, in the
   * given order, separated by Separators(|names|).
   */
  function Joined(names: seq<string>): (s: string)
  {
    if names == [] then "" else Interleave(names, Separators(|names|))
  }

  lemma {:induction false} ListingIsInterleave(xs: seq<string>)
    requires |xs| >= 1
    ensures Listing(xs) == Interleave(xs, Commas(|xs| - 1)) + ", "
  {
    var n := |xs|;
    if n > 1 {
      var front := xs[..n - 1];
      ListingIsInterleave(front);
      assert front[..n - 2] == xs[..n - 2];
      assert Commas(n - 1)[..n - 2] == Commas(n - 2);
    } else {
      assert xs[..0] == [];
    }
  }

  /** The source's case-by-case construction is the reference joiner. */
  lemma ChainIsJoined(names: seq<string>)
    ensures Chain(names) == Joined(names)
  {
    var n := |names|;
    if n == 2 {
      var seps := Separators(2);
      assert seps == [" and "] && seps[..0] == [];
      assert Interleave(names[..1], seps[..0]) == names[0];
    } else if n >= 3 {
      var front := names[..n - 1];
      ListingIsInterleave(front);
      var seps := Commas(n - 2) + [", and "];
      assert seps[..n - 2] == Commas(n - 2);
      assert ", " + "and " == ", and ";
      calc {
        Chain(names);
        Listing(front) + "and " + names[n - 1];
        Interleave(front, Commas(n - 2)) + ", " + "and " + names[n - 1];
        Interleave(front, seps[..n - 2]) + seps[n - 2] + names[n - 1];
        Joined(names);
      }
    }
  }

  /** The joined text by list size, as the source promises. */
  lemma JoinedBySize(names: seq<string>)
    ensures |names| == 0 ==> Joined(names) == ""
    ensures |names| == 1 ==> Joined(names) == names[0]
    ensures |names| == 2 ==> Joined(names) == names[0] + " and " + names[1]
    ensures |names| == 3 ==> Joined(names) == names[0] + ", " + names[1] + ", and " + names[2]
  {
    ChainIsJoined(names);
    if |names| == 3 {
      assert names[..2][..1] == [names[0]];
      assert Listing(names[..2][..1]) == names[0] + ", ";
    }
  }

  /** The source's loop over names: appends each name followed by ", ". */
  method AppendListing(msg: string, names: seq<string>) returns (out: string)
    ensures out == msg + Listing(names)
  {
    out := msg;
    var i := 0;
    while i < |names|
      invariant 0 <= i <= |names|
      invariant out == msg + Listing(names[..i])
    {
      assert names[..i + 1][..i] == names[..i];
      out := out + names[i] + ", ";
      i := i + 1;
    }
    assert names[..i] == names;
  }

  /**
   * Appends the joined names to msg, as the source does: directly for one or
   * two names, and for more by the loop over all names but the last.
   */
  method AppendChain(msg: string, names: seq<string>) returns (out: string)
    ensures out == msg + Joined(names)
  {
    ChainIsJoined(names);
    var n := |names|;
    if n == 1 {
      out := msg + names[0];
    } else if n == 2 {
      out := msg + names[0] + " and " + names[1];
    } else if n > 2 {
      out := AppendListing(msg, names[..n - 1]);
      out := out + "and " + names[n - 1];
    } else {
      out := msg;
    }
  }
}
