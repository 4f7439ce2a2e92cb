/** The `random` module as oracle inputs. Each call of `random.random()`,
    `random.choice` or `random.sample` in the humanizer reads a draw supplied by the
    caller instead of consuming the interpreter's generator; the model thereby covers
    every outcome the generator could produce, and says nothing about probabilities. */
module Entropy {

  /** The draws one rewriting stage consumes: `coins` for `random.random()`, `picks`
      for `random.choice`, `keys` for `random.sample`. A stage reads the draw for its
      k-th decision at position k; a draw the sequence does not supply reads as 0. */
  datatype Oracle = Oracle(coins: seq<real>, picks: seq<nat>, keys: seq<nat>)

  /** The k-th `random.random()` draw. */
  function Coin(o: Oracle, k: nat): real {
    if k < |o.coins| then o.coins[k] else 0.0
  }

  /** The k-th draw for `random.choice`. */
  function Pick(o: Oracle, k: nat): nat {
    if k < |o.picks| then o.picks[k] else 0
  }

  /** `random.choice(xs)` when the generator produced draw `d`: some element of `xs`. */
  function Choice<T>(xs: seq<T>, d: nat): (x: T)
    requires |xs| > 0
    ensures x in xs
  {
    xs[d % |xs|]
  }

  /** No element of `s` appears twice. */
  predicate Distinct<T(==)>(s: seq<T>) {
    forall i, j | 0 <= i < j < |s| :: s[i] != s[j]
  }

  /** `random.sample(pop, min(k, len(pop)))` driven by `keys`: each key selects one of
      the elements not yet taken. */
  function Sample<T(==)>(pop: seq<T>, k: nat, keys: seq<nat>): (r: seq<T>)
    ensures |r| == if k < |pop| then k else |pop|
    ensures forall x | x in r :: x in pop
    ensures Distinct(pop) ==> Distinct(r)
    decreases k
  {
    if k == 0 || pop == [] then []
    else
      var j := (if keys == [] then 0 else keys[0]) % |pop|;
      var rest := pop[..j] + pop[j + 1..];
      assert forall x | x in rest :: x in pop;
      assert Distinct(pop) ==> pop[j] !in rest && Distinct(rest) by {
        if Distinct(pop) {
          forall i, i' | 0 <= i < i' < |rest| ensures rest[i] != rest[i'] {
            var a := if i < j then i else i + 1;
            var b := if i' < j then i' else i' + 1;
            assert rest[i] == pop[a] && rest[i'] == pop[b];
          }
          forall i | 0 <= i < |rest| ensures rest[i] != pop[j] {
            assert rest[i] == pop[if i < j then i else i + 1];
          }
        }
      }
      var tail := Sample(rest, k - 1, if keys == [] then [] else keys[1..]);
      [pop[j]] + tail
  }
}
