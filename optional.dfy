/** The usual optional-value datatype: `None` stands for a JavaScript `undefined`,
    `null` or `NaN` where the source tests for one. */
module Optional {

  datatype Option<+T> = None | Some(value: T)

  /** The index of the first element of `s` that satisfies `P`
      (`Array.prototype.find` / `findIndex`), or `None` when there is none. */
  function FindFirst<T>(s: seq<T>, P: T -> bool): (r: Option<nat>)
    ensures r.Some? ==> r.value < |s| && P(s[r.value])
    ensures r.Some? ==> forall j :: 0 <= j < r.value ==> !P(s[j])
    ensures r.None? ==> forall j :: 0 <= j < |s| ==> !P(s[j])
  {
    if |s| == 0 then None
    else if P(s[0]) then Some(0)
    else match FindFirst(s[1..], P)
      case None => None
      case Some(i) => Some(i + 1)
  }

  /** `FindFirst` only looks at the predicate's value on each element. */
  lemma FindFirstCongruent<T, U>(s: seq<T>, P: T -> bool, t: seq<U>, Q: U -> bool)
    requires |s| == |t|
    requires forall j :: 0 <= j < |s| ==> P(s[j]) == Q(t[j])
    ensures FindFirst(s, P) == FindFirst(t, Q)
  {
  }
}
