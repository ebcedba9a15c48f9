/** Options, 64-bit saturating arithmetic and ordered traversal of a finite key set. */
module Base {
  datatype Option<+T> = None | Some(value: T)

  const U64_MAX: nat := 0xFFFF_FFFF_FFFF_FFFF

  function SatAdd(a: nat, b: nat): nat {
    if a + b <= U64_MAX then a + b else U64_MAX
  }

  function SatSub(a: nat, b: nat): nat {
    if b <= a then a - b else 0
  }

  function Max(a: nat, b: nat): nat {
    if a < b then b else a
  }

  function Min(a: nat, b: nat): nat {
    if a < b then a else b
  }

  /** The larger of an optional key and a key (`map_or(k, |f| f.max(k))`). */
  function MaxOpt(f: Option<nat>, k: nat): Option<nat> {
    if f.None? then Some(k) else Some(Max(f.value, k))
  }

  /** `k` lies strictly above the optional bound `f`. */
  predicate Above(f: Option<nat>, k: nat) {
    f.None? || f.value < k
  }

  lemma {:induction false} LeastExists(s: set<nat>)
    requires s != {}
    ensures exists m :: m in s && forall x | x in s :: m <= x
  {
    var m :| m in s;
    if s == {m} {
      LeastWitness(s, m);
    } else {
      LeastExists(s - {m});
      var n :| n in s - {m} && forall x | x in s - {m} :: n <= x;
      forall x | x in s ensures Min(m, n) <= x {
        assert x == m || x in s - {m};
      }
      LeastWitness(s, Min(m, n));
    }
  }

  lemma LeastWitness(s: set<nat>, m: nat)
    requires m in s && forall x | x in s :: m <= x
    ensures exists m :: m in s && forall x | x in s :: m <= x
  {
  }

  /** The first key an ordered-map iterator yields. */
  function Least(s: set<nat>): (m: nat)
    requires s != {}
    ensures m in s
    ensures forall x | x in s :: m <= x
  {
    LeastExists(s);
    var m :| m in s && forall x | x in s :: m <= x;
    m
  }

  /** The keys of an ordered map, in iteration order. */
  function Ascending(s: set<nat>): (r: seq<nat>)
    ensures forall x :: x in r <==> x in s
    ensures forall i, j | 0 <= i < j < |r| :: r[i] < r[j]
  {
    if s == {} then [] else
      var m := Least(s);
      [m] + Ascending(s - {m})
  }
}
