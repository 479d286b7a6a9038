/** Optional values (TypeScript's `T | undefined` and `T | null`) and the
    pass/throw outcome of a step that may raise an exception. */
module Wrappers {

  datatype Option<+T> = None | Some(value: T) {

    /** The value, or `default` when there is none (TypeScript's `x ?? default`). */
    function GetOr(default: T): T {
      match this
      case Some(v) => v
      case None => default
    }
  }

  /** Whether a step completed normally or raised an exception. */
  datatype Outcome = Completed | Thrown(reason: string)

  /** A function that agrees on each pair of neighbours in a range agrees on
      the range's ends. */
  lemma {:induction false} SameAlongRange<T>(f: nat -> T, i: nat, j: nat)
    requires i <= j
    requires forall k: nat {:trigger f(k)} :: i <= k < j ==> f(k) == f(k + 1)
    ensures f(i) == f(j)
    decreases j - i
  {
    if i < j {
      SameAlongRange(f, i + 1, j);
    }
  }

  /** A leftmost scan from `i` that finds nothing passed no index with a
      value. */
  lemma {:induction false} ScanFindsNothing<T>(scan: nat -> Option<T>, at: nat -> Option<T>, i: nat, j: nat)
    requires i <= j
    requires forall k: nat {:trigger at(k)} :: i <= k <= j ==> scan(k) == (if at(k).Some? then at(k) else scan(k + 1))
    requires scan(i).None?
    ensures at(j).None?
    decreases j - i
  {
    if i < j {
      assert scan(i) == (if at(i).Some? then at(i) else scan(i + 1));
      ScanFindsNothing(scan, at, i + 1, j);
    }
  }

  /** A leftmost scan from `i` that finds a value up to `j`, where the scan
      past `j` finds nothing, found it at some index between. */
  lemma {:induction false} ScanFoundAt<T>(scan: nat -> Option<T>, at: nat -> Option<T>, i: nat, j: nat) returns (m: nat)
    requires i <= j
    requires forall k: nat {:trigger at(k)} :: i <= k <= j ==> scan(k) == (if at(k).Some? then at(k) else scan(k + 1))
    requires scan(j + 1).None?
    ensures scan(i).Some? ==> i <= m <= j && scan(i) == at(m)
    decreases j - i
  {
    m := i;
    assert scan(i) == (if at(i).Some? then at(i) else scan(i + 1));
    if at(i).None? && i < j {
      m := ScanFoundAt(scan, at, i + 1, j);
    }
  }

  /** A leftmost scan from `i` returns the value at the first index that has
      one. */
  lemma {:induction false} ScanFindsFirst<T>(scan: nat -> Option<T>, at: nat -> Option<T>, i: nat, j: nat)
    requires i <= j
    requires forall k: nat {:trigger at(k)} :: i <= k <= j ==> scan(k) == (if at(k).Some? then at(k) else scan(k + 1))
    requires at(j).Some?
    requires forall k: nat {:trigger at(k)} :: i <= k < j ==> at(k).None?
    ensures scan(i) == at(j)
    decreases j - i
  {
    assert scan(i) == (if at(i).Some? then at(i) else scan(i + 1));
    if i < j {
      ScanFindsFirst(scan, at, i + 1, j);
    }
  }
}
