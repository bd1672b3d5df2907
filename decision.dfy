/** The result shape shared by both classifiers of logic.ts, and the
    `Array.prototype.some` scan both of them use for membership tests. */
module Decision {

  datatype Option<T> = None | Some(value: T)

  /** The three values of `DecisionResult.status`. */
  datatype Status = Positive | Negative | Neutral

  /** A therapy recommendation: drug or protocol name, dose and timing. */
  datatype Therapy = Therapy(name: string, dose: string, timing: string)

  /** `DecisionResult`: `title` is the source's `label` and `subtype` its
      `type` (both words are reserved in Dafny). The optional fields of the
      source are `Option`s; a field the source leaves out is `None`. */
  datatype DecisionResult = DecisionResult(
    status: Status,
    title: string,
    risk: string,
    subtype: Option<string>,
    detail: Option<string>,
    therapy: Option<Therapy>)

  /** `s.some(p)`: scans `s` from the left and is true as soon as one
      element satisfies `p`. */
  function AnyOf<T>(s: seq<T>, p: T -> bool): (r: bool)
    ensures r <==> exists i :: 0 <= i < |s| && p(s[i])
  {
    if s == [] then false
    else if p(s[0]) then true
    else AnyOf(s[1..], p)
  }

  /** `some` only looks at which values occur, not at their order or
      multiplicity. */
  lemma AnyOfMembership<T>(s: seq<T>, p: T -> bool)
    ensures AnyOf(s, p) <==> exists x :: x in s && p(x)
  {
  }
}
