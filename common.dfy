/** Shared vocabulary of the backend model: optional values, HTTP error
    outcomes of the routers, and small facts about sequences. */
module Common {

  datatype Option<+T> = None | Some(value: T)

  /** The HTTP errors the routers raise. */
  datatype HttpError =
    | BadRequest      // 400
    | NotFound        // 404
    | Conflict        // 409
    | Unprocessable   // 422: request body rejected by the request model's field constraints
    | ServerError     // 500: an uncaught exception inside a handler

  function StatusCode(e: HttpError): (code: int)
    ensures 400 <= code < 600
  {
    match e
    case BadRequest => 400
    case NotFound => 404
    case Conflict => 409
    case Unprocessable => 422
    case ServerError => 500
  }

  datatype Result<+T> = Ok(value: T) | Err(error: HttpError)

  /** Python truthiness of an optional number: absent and zero are both false. */
  predicate TruthyReal(x: Option<real>) { x.Some? && x.value != 0.0 }

  /** Python truthiness of an optional string: absent and empty are both false. */
  predicate TruthyText(x: Option<string>) { x.Some? && x.value != "" }

  predicate Distinct<T(==)>(s: seq<T>) {
    forall i, j :: 0 <= i < j < |s| ==> s[i] != s[j]
  }

  /** `s` with the element at index `k` taken out (Python's list.remove of that element). */
  function RemoveAt<T>(s: seq<T>, k: nat): (r: seq<T>)
    requires k < |s|
    ensures |r| == |s| - 1
  {
    s[..k] + s[k + 1..]
  }

  /** Removal keeps every other element, in order. */
  lemma RemoveAtFacts<T>(s: seq<T>, k: nat)
    requires k < |s|
    ensures multiset(RemoveAt(s, k)) + multiset{s[k]} == multiset(s)
    ensures forall i :: 0 <= i < k ==> RemoveAt(s, k)[i] == s[i]
    ensures forall i :: k <= i < |s| - 1 ==> RemoveAt(s, k)[i] == s[i + 1]
  {
    assert s == s[..k] + [s[k]] + s[k + 1..];
  }

  /** Removing the last element of one sequence and an equal element of a
      permutation of it leaves two permutations of each other. */
  lemma RemoveMatching<T>(a: seq<T>, b: seq<T>, i: nat)
    requires multiset(a) == multiset(b)
    requires a != [] && i < |b| && b[i] == a[|a| - 1]
    ensures multiset(a[..|a| - 1]) == multiset(RemoveAt(b, i))
  {
    var x := a[|a| - 1];
    RemoveAtFacts(b, i);
    assert a == a[..|a| - 1] + [x];
    assert multiset(a[..|a| - 1]) + multiset{x} == multiset(RemoveAt(b, i)) + multiset{x};
    forall y ensures multiset(a[..|a| - 1])[y] == multiset(RemoveAt(b, i))[y] {
      assert (multiset(a[..|a| - 1]) + multiset{x})[y] == (multiset(RemoveAt(b, i)) + multiset{x})[y];
    }
  }

  function Sum(xs: seq<real>): real {
    if xs == [] then 0.0 else Sum(xs[..|xs| - 1]) + xs[|xs| - 1]
  }

  function SumInt(xs: seq<int>): int {
    if xs == [] then 0 else SumInt(xs[..|xs| - 1]) + xs[|xs| - 1]
  }

  lemma {:induction false} SumAppend(a: seq<real>, b: seq<real>)
    ensures Sum(a + b) == Sum(a) + Sum(b)
    decreases |b|
  {
    if b == [] {
      assert a + b == a;
    } else {
      assert (a + b)[..|a + b| - 1] == a + b[..|b| - 1];
      SumAppend(a, b[..|b| - 1]);
    }
  }

  lemma {:induction false} SumIntAppend(a: seq<int>, b: seq<int>)
    ensures SumInt(a + b) == SumInt(a) + SumInt(b)
    decreases |b|
  {
    if b == [] {
      assert a + b == a;
    } else {
      assert (a + b)[..|a + b| - 1] == a + b[..|b| - 1];
      SumIntAppend(a, b[..|b| - 1]);
    }
  }

  /** Arithmetic mean; `statistics` callers guard the empty case. */
  function Mean(xs: seq<real>): real
    requires |xs| > 0
  {
    Sum(xs) / (|xs| as real)
  }

  lemma {:induction false} SumPositive(xs: seq<real>)
    requires |xs| > 0
    requires forall i :: 0 <= i < |xs| ==> xs[i] > 0.0
    ensures Sum(xs) > 0.0
    decreases |xs|
  {
    if |xs| > 1 {
      SumPositive(xs[..|xs| - 1]);
    } else {
      assert xs[..0] == [];
    }
  }

  lemma {:induction false} SumNonNegative(xs: seq<real>)
    requires forall i :: 0 <= i < |xs| ==> xs[i] >= 0.0
    ensures Sum(xs) >= 0.0
    decreases |xs|
  {
    if xs != [] {
      SumNonNegative(xs[..|xs| - 1]);
    }
  }

  /** A distinct sequence has as many elements as the set of its elements. */
  lemma {:induction false} DistinctCardinality<T>(s: seq<T>)
    requires Distinct(s)
    ensures |set x | x in s| == |s|
    decreases |s|
  {
    if s != [] {
      var last := s[|s| - 1];
      var init := s[..|s| - 1];
      DistinctCardinality(init);
      assert (set x | x in s) == (set x | x in init) + {last};
      assert last !in (set x | x in init);
    }
  }

  /** Number of elements of `s` equal to `x`. */
  function Occurrences<T(==)>(s: seq<T>, x: T): nat {
    if s == [] then 0 else Occurrences(s[..|s| - 1], x) + (if s[|s| - 1] == x then 1 else 0)
  }

  function AsciiLower(c: char): (r: char)
    ensures 'A' <= c <= 'Z' ==> 'a' <= r <= 'z'
    ensures !('A' <= c <= 'Z') ==> r == c
  {
    if 'A' <= c <= 'Z' then (c as int + 32) as char else c
  }

  function AsciiUpper(c: char): (r: char)
    ensures 'a' <= c <= 'z' ==> 'A' <= r <= 'Z'
    ensures !('a' <= c <= 'z') ==> r == c
  {
    if 'a' <= c <= 'z' then (c as int - 32) as char else c
  }

  function LowerText(s: string): (r: string)
    ensures |r| == |s|
    ensures forall i :: 0 <= i < |s| ==> r[i] == AsciiLower(s[i])
  {
    if s == [] then [] else [AsciiLower(s[0])] + LowerText(s[1..])
  }

  function UpperText(s: string): (r: string)
    ensures |r| == |s|
    ensures forall i :: 0 <= i < |s| ==> r[i] == AsciiUpper(s[i])
  {
    if s == [] then [] else [AsciiUpper(s[0])] + UpperText(s[1..])
  }

  /** Decimal rendering of a natural number, as JavaScript's template literals print it. */
  function NatText(n: nat): (r: string)
    ensures |r| > 0
    ensures forall i :: 0 <= i < |r| ==> '0' <= r[i] <= '9'
    decreases n
  {
    if n < 10 then [('0' as int + n) as char]
    else NatText(n / 10) + [('0' as int + n % 10) as char]
  }

  /** Some element of a non-empty sequence has image `v` exactly when some
      element before the last does or the last one does. */
  lemma SomeImageStep<T, U>(s: seq<T>, f: T -> U, v: U)
    requires s != []
    ensures (exists x :: x in s && f(x) == v) <==>
              (exists x :: x in s[..|s| - 1] && f(x) == v) || f(s[|s| - 1]) == v
  {
    assert s == s[..|s| - 1] + [s[|s| - 1]];
  }
}
