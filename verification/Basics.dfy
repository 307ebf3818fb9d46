/** Small shared vocabulary. */
module Basics {

  datatype Option<+T> = None | Some(value: T)

  /** What the world makes of one operation: it does it, refuses it, or does it and loses the answer. */
  datatype Fate = Works | Refuses | WorksUnheard

  /** No two elements are equal. */
  predicate Distinct<T(==)>(s: seq<T>) {
    forall i, j :: 0 <= i < j < |s| ==> s[i] != s[j]
  }

  /** An empty text is stored as NULL. */
  function NullIfEmpty(text: string): Option<string> {
    if text == "" then None else Some(text)
  }
}
