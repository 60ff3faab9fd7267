/** External process invocations as the modelled code builds them: a program
    name and an argument list that, apart from a few bare words, is a run of
    `flag value` pairs. */
module CommandLine {

  /** `std::process::Command` after its arguments are added: what would be spawned. */
  datatype Command = Command(program: string, args: seq<string>)

  /** Every value that follows `flag` in an argument list read as consecutive
      `flag value` pairs, in order; a trailing odd word is no pair. */
  function Values(args: seq<string>, flag: string): (vs: seq<string>)
    ensures |vs| <= |args| / 2
  {
    if |args| < 2 then []
    else (if args[0] == flag then [args[1]] else []) + Values(args[2..], flag)
  }

  /** Reading pairs commutes with appending a run of whole pairs; `n` is
      the number of pairs in `a`. */
  lemma {:induction false} ValuesAppend(a: seq<string>, b: seq<string>, flag: string, n: nat)
    requires |a| == 2 * n
    ensures Values(a + b, flag) == Values(a, flag) + Values(b, flag)
  {
    if a != [] {
      assert (a + b)[2..] == a[2..] + b;
      ValuesAppend(a[2..], b, flag, n - 1);
    } else {
      assert a + b == b;
    }
  }

  /** An argument list written as its `flag value` pairs. */
  function Flatten(ps: seq<(string, string)>): (args: seq<string>)
    ensures |args| == 2 * |ps|
  {
    if ps == [] then [] else [ps[0].0, ps[0].1] + Flatten(ps[1..])
  }

  /** The values given to `flag` in a list of pairs, in order. */
  function PairValues(ps: seq<(string, string)>, flag: string): (vs: seq<string>)
    ensures |vs| <= |ps|
  {
    if ps == [] then [] else (if ps[0].0 == flag then [ps[0].1] else []) + PairValues(ps[1..], flag)
  }

  lemma {:induction false} FlattenAppend(a: seq<(string, string)>, b: seq<(string, string)>)
    ensures Flatten(a + b) == Flatten(a) + Flatten(b)
  {
    if a == [] {
      assert a + b == b;
    } else {
      assert (a + b)[1..] == a[1..] + b;
      FlattenAppend(a[1..], b);
    }
  }

  lemma {:induction false} PairValuesAppend(a: seq<(string, string)>, b: seq<(string, string)>, flag: string)
    ensures PairValues(a + b, flag) == PairValues(a, flag) + PairValues(b, flag)
  {
    if a == [] {
      assert a + b == b;
    } else {
      assert (a + b)[1..] == a[1..] + b;
      PairValuesAppend(a[1..], b, flag);
    }
  }

  /** Reading the flattened list as pairs gives back each flag's values. */
  lemma {:induction false} ValuesFlatten(ps: seq<(string, string)>, flag: string)
    ensures Values(Flatten(ps), flag) == PairValues(ps, flag)
  {
    if ps != [] {
      assert Flatten(ps)[2..] == Flatten(ps[1..]);
      ValuesFlatten(ps[1..], flag);
    }
  }

  /** A value is among a flag's values exactly when that pair is in the list. */
  lemma {:induction false} PairValuesMember(ps: seq<(string, string)>, flag: string, v: string)
    ensures v in PairValues(ps, flag) <==> (flag, v) in ps
  {
    if ps != [] {
      PairValuesMember(ps[1..], flag, v);
      assert ps == [ps[0]] + ps[1..];
    }
  }
}
