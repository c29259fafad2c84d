/** Shared vocabulary of the three scripts. */
module Common {

  /** JavaScript's `null` / `undefined` for a missing element, attribute or pointer. */
  datatype Option<T> = None | Some(value: T)

  /** No element occurs twice: distinct DOM nodes or distinct particle objects. */
  ghost predicate Distinct<T>(s: seq<T>) {
    forall i, j :: 0 <= i < j < |s| ==> s[i] != s[j]
  }

}
