/**
 * The list of connected socket ids (`clients`). Connecting appends an id;
 * disconnecting reassigns the list to `clients.filter(id => id !== socket.id)`.
 */
module Registry {

  /** Number of occurrences of `x` in `xs`. */
  function Count(xs: seq<string>, x: string): nat {
    if xs == [] then 0 else (if xs[0] == x then 1 else 0) + Count(xs[1..], x)
  }

  /** `xs` without any occurrence of `x`, the other ids in their original order. */
  function RemoveAll(xs: seq<string>, x: string): (r: seq<string>)
    ensures forall y :: y in r <==> y in xs && y != x
    ensures |r| == |xs| - Count(xs, x)
  {
    if xs == [] then []
    else if xs[0] == x then RemoveAll(xs[1..], x)
    else [xs[0]] + RemoveAll(xs[1..], x)
  }

  /** Filtering works piecewise, so the surviving ids keep their relative order. */
  lemma {:induction false} RemoveAllAppend(xs: seq<string>, ys: seq<string>, x: string)
    ensures RemoveAll(xs + ys, x) == RemoveAll(xs, x) + RemoveAll(ys, x)
  {
    if xs != [] {
      var zs := xs + ys;
      assert zs != [] && zs[0] == xs[0] && zs[1..] == xs[1..] + ys;
      RemoveAllAppend(xs[1..], ys, x);
      if xs[0] != x {
        calc {
          RemoveAll(zs, x);
          [xs[0]] + RemoveAll(xs[1..] + ys, x);
          [xs[0]] + (RemoveAll(xs[1..], x) + RemoveAll(ys, x));
          ([xs[0]] + RemoveAll(xs[1..], x)) + RemoveAll(ys, x);
        }
      }
    } else {
      assert xs + ys == ys;
    }
  }

  /** Every other id keeps its number of occurrences. */
  lemma {:induction false} RemoveAllKeepsOthers(xs: seq<string>, x: string, y: string)
    requires y != x
    ensures Count(RemoveAll(xs, x), y) == Count(xs, y)
  {
    if xs != [] {
      RemoveAllKeepsOthers(xs[1..], x, y);
      if xs[0] != x {
        assert ([xs[0]] + RemoveAll(xs[1..], x))[1..] == RemoveAll(xs[1..], x);
      }
    }
  }

  /** Removing an id that is not registered changes nothing. */
  lemma {:induction false} RemoveAllAbsent(xs: seq<string>, x: string)
    requires x !in xs
    ensures RemoveAll(xs, x) == xs
  {
    if xs != [] {
      RemoveAllAbsent(xs[1..], x);
    }
  }

  /** A connect followed by the same socket's disconnect restores the registry. */
  lemma ConnectThenDisconnect(xs: seq<string>, x: string)
    requires x !in xs
    ensures RemoveAll(xs + [x], x) == xs
  {
    RemoveAllAppend(xs, [x], x);
    RemoveAllAbsent(xs, x);
    assert RemoveAll([x], x) == [];
  }
}
