/** Datatypes and container operations shared by the models. */
module Common {
  datatype Option<+T> = None | Some(value: T)

  type Url = string
  type SensorId = nat

  /** `std::map::insert`: an existing key keeps its value. */
  function Inserted<K, V>(m: map<K, V>, k: K, v: V): map<K, V> {
    if k in m then m else m[k := v]
  }

  ghost predicate Distinct<T>(s: seq<T>) {
    forall i, j :: 0 <= i < j < |s| ==> s[i] != s[j]
  }

  /** `std::vector::erase` of one position. */
  function Erased<T>(s: seq<T>, i: nat): seq<T>
    requires i < |s|
  {
    s[..i] + s[i + 1..]
  }

  function MaxInt(a: int, b: int): int {
    if a < b then b else a
  }

  /** A property that holds first, and survives step k exactly when `guard` does, holds throughout
      exactly when every guard held. */
  lemma {:induction false} HoldsThroughout(holds: nat -> bool, guard: nat -> bool, n: nat)
    requires holds(0)
    requires forall k: nat :: k < n && holds(k) ==> (holds(k + 1) <==> guard(k))
    ensures (forall k: nat :: k <= n ==> holds(k)) <==> (forall k: nat :: k < n ==> guard(k))
  {
    if n > 0 {
      HoldsThroughout(holds, guard, n - 1);
      if forall k: nat :: k < n ==> guard(k) {
        assert holds(n - 1) && guard(n - 1);
        assert holds(n - 1 + 1);
      }
    }
    if forall k: nat :: k <= n ==> holds(k) {
      forall k: nat | k < n ensures guard(k) {
        assert holds(k) && holds(k + 1);
      }
    }
  }

  /** The same for a property whose steps are exact only under an invariant that the guard keeps. */
  lemma {:induction false} HoldsThroughoutKeeping(keeps: nat -> bool, holds: nat -> bool, guard: nat -> bool, n: nat)
    requires keeps(0) && holds(0)
    requires forall k: nat :: k < n && keeps(k) && holds(k) ==> (holds(k + 1) <==> guard(k)) && (guard(k) ==> keeps(k + 1))
    ensures (forall k: nat :: k <= n ==> holds(k)) <==> (forall k: nat :: k < n ==> guard(k))
  {
    var both := (k: nat) => keeps(k) && holds(k);
    HoldsThroughout(both, guard, n);
    if forall k: nat :: k <= n ==> holds(k) {
      HeldKeeps(keeps, holds, guard, n);
      forall k: nat | k < n ensures guard(k) {
        assert both(k) && holds(k + 1);
      }
    }
    if forall k: nat :: k < n ==> guard(k) {
      forall k: nat | k <= n ensures holds(k) {
        assert both(k);
      }
    }
  }

  lemma {:induction false} HeldKeeps(keeps: nat -> bool, holds: nat -> bool, guard: nat -> bool, n: nat)
    requires keeps(0) && forall k: nat :: k <= n ==> holds(k)
    requires forall k: nat :: k < n && keeps(k) && holds(k) ==> (holds(k + 1) <==> guard(k)) && (guard(k) ==> keeps(k + 1))
    ensures forall k: nat :: k <= n ==> keeps(k)
  {
    if n > 0 {
      HeldKeeps(keeps, holds, guard, n - 1);
      assert keeps(n - 1) && holds(n - 1) && holds(n - 1 + 1);
    }
  }

  predicate FoundAt(s: string, sub: string, i: nat) {
    i + |sub| <= |s| && s[i..i + |sub|] == sub
  }

  /** `find(sub) != npos`. */
  predicate Contains(s: string, sub: string) {
    exists i: nat | i <= |s| :: FoundAt(s, sub, i)
  }
}
