/** Shared vocabulary of the backend model: ids, optional request fields,
    HTTP replies, JavaScript truthiness and the document-store list updates. */
module Common {

  /** A document id (a MongoDB ObjectId); request ids are assumed well formed. */
  type Id = nat

  datatype Option<+T> = None | Some(value: T)

  /** What a handler sends back: a success status with a JSON body, or an
      error status with the body `{ message }`. */
  datatype Reply<+T> = Ok(status: int, value: T) | Err(status: int, message: string)

  /** The message every controller's `catch` block sends with status 500. */
  const ServerError := "服务器错误，请稍后重试"

  /** JavaScript truthiness of an optional string field of a request body:
      an absent field and the empty string are both falsy. */
  predicate Given(x: Option<string>)
  {
    x.Some? && x.value != ""
  }

  /** `x || fallback` for a string field whose old value is required. */
  function OrElse(x: Option<string>, fallback: string): (r: string)
    ensures Given(x) ==> r == x.value
    ensures !Given(x) ==> r == fallback
  {
    if Given(x) then x.value else fallback
  }

  /** `x || fallback` for a string field whose old value is optional. */
  function OrElseOpt(x: Option<string>, fallback: Option<string>): (r: Option<string>)
    ensures Given(x) ==> r == x
    ensures !Given(x) ==> r == fallback
  {
    if Given(x) then x else fallback
  }

  /** `x || fallback` for a numeric field: the number 0 is falsy, so it never
      replaces the old value. */
  function OrElseNum(x: Option<int>, fallback: int): (r: int)
    ensures x.Some? && x.value != 0 ==> r == x.value
    ensures x.None? || x.value == 0 ==> r == fallback
  {
    if x.Some? && x.value != 0 then x.value else fallback
  }

  /** Number of occurrences of `x` in `s`. */
  function Occurrences(s: seq<Id>, x: Id): (n: nat)
    ensures n <= |s|
    ensures n == 0 <==> x !in s
  {
    if s == [] then 0
    else (if s[0] == x then 1 else 0) + Occurrences(s[1..], x)
  }

  /** The store's `$pull`: every occurrence of `x` leaves the list, the other
      ids stay in their order. */
  function Pull(s: seq<Id>, x: Id): (r: seq<Id>)
    ensures x !in r
    ensures forall y :: y != x ==> (y in r <==> y in s)
    ensures |r| == |s| - Occurrences(s, x)
  {
    if s == [] then []
    else if s[0] == x then Pull(s[1..], x)
    else [s[0]] + Pull(s[1..], x)
  }

  /** `$pull` of an id the list does not hold changes nothing. */
  lemma {:induction false} PullAbsent(s: seq<Id>, x: Id)
    requires x !in s
    ensures Pull(s, x) == s
  {
    if s != [] {
      PullAbsent(s[1..], x);
    }
  }
}
