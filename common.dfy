/** Shared vocabulary of the services: optional values, the HTTP error kinds the
    controllers answer with, and the list searches (`find`, `some`, `filter`) that
    they perform on string identifiers. */
module Common {

  datatype Option<T> = None | Some(value: T) {
    /** The value, or `default` when absent (a JavaScript destructuring default). */
    function GetOr(default: T): T {
      if Some? then value else default
    }
  }

  /** The status classes a controller can answer with: 400, 404 and 500. */
  datatype Error = BadRequest | NotFound | ServerError

  datatype Result<T> = Ok(value: T) | Err(error: Error)

  /** Outcome of an operation whose success carries no value. */
  datatype Outcome = Success | Failure(error: Error)

  /** A string field counts as given when it is truthy in JavaScript, that is present
      and non-empty; an absent or null field is modelled as the empty string. */
  predicate Given(s: string) {
    s != ""
  }

  /** No identifier occurs twice. */
  predicate Distinct(xs: seq<string>) {
    forall i, j :: 0 <= i < j < |xs| ==> xs[i] != xs[j]
  }

  /** The position that `Array.prototype.find` stops at: the first occurrence of `x`. */
  function FirstIndexOf(xs: seq<string>, x: string): (r: Option<nat>)
    ensures r.None? <==> x !in xs
    ensures r.Some? ==> r.value < |xs| && xs[r.value] == x
    ensures r.Some? ==> forall k :: 0 <= k < r.value ==> xs[k] != x
  {
    if |xs| == 0 then None
    else if xs[0] == x then Some(0)
    else match FirstIndexOf(xs[1..], x)
      case None => None
      case Some(i) => Some(i + 1)
  }

  /** Appending an identifier that is not yet present keeps the identifiers distinct. */
  lemma DistinctAppend(xs: seq<string>, x: string)
    requires Distinct(xs) && x !in xs
    ensures Distinct(xs + [x])
  {
  }

  /** The identifiers after a distinct first one are distinct and do not repeat it. */
  lemma DistinctTail(xs: seq<string>, x: string)
    requires Distinct([x] + xs)
    ensures Distinct(xs) && x !in xs
  {
    forall i, j | 0 <= i < j < |xs|
      ensures xs[i] != xs[j]
    {
      assert ([x] + xs)[i + 1] == xs[i] && ([x] + xs)[j + 1] == xs[j];
    }
    forall i | 0 <= i < |xs|
      ensures xs[i] != x
    {
      assert ([x] + xs)[0] == x && ([x] + xs)[i + 1] == xs[i];
    }
  }

  /** Putting an identifier that is not yet present in front keeps the identifiers distinct. */
  lemma DistinctPrepend(xs: seq<string>, x: string)
    requires Distinct(xs) && x !in xs
    ensures Distinct([x] + xs)
  {
  }
}
