/** Option, and the few facts about sequences that several modules share. */
module Common {

  datatype Option<+T> = None | Some(value: T)

  const MAX_U64: nat := 0xFFFF_FFFF_FFFF_FFFF
  const MAX_U32: nat := 0xFFFF_FFFF

  /** Unsigned addition that stops at `limit`, as Rust's `saturating_add` does. */
  function SaturatingAdd(a: nat, b: nat, limit: nat): nat {
    if a + b > limit then limit else a + b
  }

  /** Unsigned subtraction that stops at zero, as Rust's `saturating_sub` does. */
  function SaturatingSub(a: nat, b: nat): nat {
    if a < b then 0 else a - b
  }

  ghost predicate Distinct<T>(q: seq<T>) {
    forall i, j :: 0 <= i < j < |q| ==> q[i] != q[j]
  }

  /** `q` lists every member of `s` once: the order in which a hash table was walked. */
  ghost predicate Enumerates<T>(q: seq<T>, s: set<T>) {
    Distinct(q) && (forall x | x in q :: x in s) && (forall x | x in s :: x in q)
  }

  lemma {:induction false} DistinctMultiset<T>(q: seq<T>, s: set<T>)
    requires Enumerates(q, s)
    ensures multiset(q) == multiset(s)
  {
    if q == [] {
      assert s == {};
    } else {
      var n := |q| - 1;
      var rest := q[..n];
      assert q == rest + [q[n]];
      assert Enumerates(rest, s - {q[n]}) by {
        forall x ensures x in rest <==> x in s - {q[n]} {
          if x in rest { assert x in q; }
          if x in s - {q[n]} { assert x in q; }
        }
      }
      DistinctMultiset(rest, s - {q[n]});
      assert q[n] in q;
      assert s == (s - {q[n]}) + {q[n]};
    }
  }
}
