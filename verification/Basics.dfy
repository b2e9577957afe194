/** Small definitions shared by every module. */
module Basics {

  datatype Option<+T> = None | Some(value: T) {
    function GetOr(default: T): T {
      if Some? then value else default
    }
  }

  datatype Result<+T, +E> = Ok(value: T) | Refused(reason: E)

  /** The stable codes a job failure carries. */
  datatype Code =
    | Timeout | RateLimited | ProviderDown | Auth | Refusal | InvalidOutput | NotConfigured
    | Internal | UnknownType | Rejected | RecipientCapped

  /** An account's address; a retired account's is made from its id, and no one else can hold it. */
  datatype Address = Address(text: string) | RetiredAddress(user: nat)

  function Min(a: int, b: int): int {
    if a <= b then a else b
  }

  function Max(a: int, b: int): int {
    if a <= b then b else a
  }

  /** Some natural number is outside any finite set. */
  lemma FreshNat(used: set<nat>) returns (n: nat)
    ensures n !in used
  {
    var bound := BoundOf(used);
    n := bound;
  }

  lemma {:induction false} BoundOf(used: set<nat>) returns (bound: nat)
    ensures forall n :: n in used ==> n < bound
    decreases |used|
  {
    if used == {} {
      bound := 0;
    } else {
      var n :| n in used;
      var rest := BoundOf(used - {n});
      bound := Max(rest, n + 1);
      assert forall m :: m in used ==> m == n || m in used - {n};
    }
  }
}
