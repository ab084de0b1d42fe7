/** Shared result types and the few sequence facts every other module needs. */
module Prelude {

  datatype Option<+T> = None | Some(value: T)

  /** The error codes the services raise. */
  datatype Error =
    | NotFound
    | ValidationError
    | InsufficientStock
    | StockReconciliationRequired
    | StockReserved
    | ProductArchived
    | ProductNameTaken
    | ProductHasActiveReservations
    | ProductNotAvailable
    | TransitionNotAllowed
    | PaymentMethodNotAllowed
    | PaymentConnectionRequired
    | PaymentProofRequired
    | PaymentProofReviewRequired
    | PaymentProofAlreadyUploaded
    | PaymentAmountMismatch
    | BuyerDetailsRequired
    | DeliveryDetailsRequired
    | BuyerEmailRequired
    | BankDetailsRequired
    | IntegrityError
    | ProviderUnavailable
    | IdempotencyKeyRequired
    | IdempotencyKeyReused
    | IdempotencyInProgress
    | InvalidCursor
    | QuotaExceeded
    | UnexpectedError

  datatype Result<+T> = Ok(value: T) | Err(error: Error) {
    predicate IsFailure() {
      Err?
    }

    function PropagateFailure<U>(): Result<U>
      requires Err?
    {
      Err(error)
    }

    function Extract(): T
      requires Ok?
    {
      value
    }
  }

  function Min(a: int, b: int): (m: int)
    ensures m <= a && m <= b && (m == a || m == b)
  {
    if a < b then a else b
  }

  function Max(a: int, b: int): (m: int)
    ensures m >= a && m >= b && (m == a || m == b)
  {
    if a > b then a else b
  }

  predicate StrictlyAscending(s: seq<nat>) {
    forall i, j :: 0 <= i < j < |s| ==> s[i] < s[j]
  }

  predicate IsLeast(m: nat, s: set<nat>) {
    m in s && forall y :: y in s ==> m <= y
  }

  lemma {:induction false} LeastExists(s: set<nat>)
    requires s != {}
    ensures exists m :: IsLeast(m, s)
    decreases |s|
  {
    var x :| x in s;
    var rest := s - {x};
    assert forall y :: y in s <==> y == x || y in rest;
    if rest == {} {
      assert IsLeast(x, s);
    } else {
      LeastExists(rest);
      var m :| IsLeast(m, rest);
      assert IsLeast(if x < m then x else m, s);
    }
  }

  lemma {:induction false} PrependLeast(x: nat, rest: seq<nat>)
    requires StrictlyAscending(rest)
    requires forall i :: 0 <= i < |rest| ==> x < rest[i]
    ensures StrictlyAscending([x] + rest)
  {
  }

  /** The elements of a set of row ids in ascending order: Python's `sorted(set(ids))`. */
  function Ascending(s: set<nat>): (r: seq<nat>)
    ensures StrictlyAscending(r)
    ensures forall x :: x in r <==> x in s
  {
    if s == {} then []
    else
      LeastExists(s);
      var x :| IsLeast(x, s);
      var rest := Ascending(s - {x});
      assert forall i :: 0 <= i < |rest| ==> rest[i] in s - {x} && x <= rest[i] && x != rest[i];
      PrependLeast(x, rest);
      assert forall y :: y in [x] + rest <==> y == x || y in rest;
      [x] + rest
  }

  /** Position of an element that occurs. */
  function IndexOf(s: seq<nat>, x: nat): (i: nat)
    requires x in s
    ensures i < |s| && s[i] == x
  {
    if s[0] == x then 0 else 1 + IndexOf(s[1..], x)
  }

  lemma {:induction false} Splice<T>(s: seq<T>, a: nat, b: nat)
    requires a <= b <= |s|
    ensures s[a..b] + s[b..] == s[a..]
  {
  }
}
