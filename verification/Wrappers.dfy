/** Values that may be missing, and computations that may fail. */
module Wrappers {
  datatype Option<+T> = None | Some(value: T)

  datatype Result<+T, +E> = Success(value: T) | Failure(error: E) {
    predicate IsFailure() { Failure? }

    function PropagateFailure<U>(): Result<U, E>
      requires Failure?
    {
      Failure(error)
    }

    function Extract(): T
      requires Success?
    {
      value
    }
  }

  ghost predicate NoRepeats<T>(s: seq<T>) {
    forall i, j :: 0 <= i < j < |s| ==> s[i] != s[j]
  }

  /** The next element of an iteration over a set, in no particular order. */
  method AnyOf<T>(s: set<T>) returns (x: T)
    requires s != {}
    ensures x in s
  {
    x :| x in s;
  }
}

/** The names under which a rung's effects are recorded, shared by both readings of a rung. */
module RungOutputs {
  /** ST, STN, S and R; the coil kinds of the grid map onto the same four. */
  datatype WriteKind = Plain | Negated | Set | Reset

  datatype Key =
    | Operation(expr: string)
    | Pin(block: string, pin: string)
    | Write(kind: WriteKind, target: string)

  /** `results.get(key, False)` */
  function Recorded(results: map<Key, bool>, key: Key): bool {
    key in results && results[key]
  }

  /** `m.get(name, [])` over a dictionary of lists. */
  function Listed(m: map<string, seq<string>>, name: string): seq<string> {
    if name in m then m[name] else []
  }
}
