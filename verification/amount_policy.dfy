/**
 The charge-amount policy of the coin machine backend: an amount is
 acceptable when it is a whole number inside an inclusive band.
 */
module AmountPolicy {

  /** Smallest acceptable amount (inclusive). */
  const MinAmount: int := 10

  /** Largest acceptable amount (inclusive). */
  const MaxAmount: int := 101

  /** The `amount` field of a request body as JavaScript sees it: a finite
      number (held exactly, as a real), NaN or an infinity, or a value that
      is not a number at all (a string, `null`, a missing field). */
  datatype Amount = Number(x: real) | NonFinite | NotNumber

  /** The JavaScript number whose value is the integer `n`. */
  function Whole(n: int): Amount
  {
    Number(n as real)
  }

  /** `Number.isInteger`: a finite number with no fractional part. */
  predicate IsInteger(a: Amount)
  {
    a.Number? && a.x.Floor as real == a.x
  }

  /** `isValidAmount`: an integer between the two bounds, both included. */
  predicate IsValidAmount(a: Amount)
  {
    IsInteger(a) && MinAmount as real <= a.x && a.x <= MaxAmount as real
  }

  /** The policy read as a set of values: exactly the whole numbers of the
      band pass, and nothing else does (no fraction, no NaN, no string). */
  lemma ValidAmountIsWholeInBand(a: Amount)
    ensures IsValidAmount(a) <==> exists n :: MinAmount <= n <= MaxAmount && a == Whole(n)
  {
    if IsValidAmount(a) {
      assert MinAmount <= a.x.Floor <= MaxAmount && a == Whole(a.x.Floor);
    }
  }

  /** On whole numbers the policy is the closed interval itself; in
      particular both bounds are accepted and their neighbours are not. */
  lemma WholeAmountBounds(n: int)
    ensures IsValidAmount(Whole(n)) <==> MinAmount <= n <= MaxAmount
    ensures IsValidAmount(Whole(MinAmount)) && IsValidAmount(Whole(MaxAmount))
    ensures !IsValidAmount(Whole(MinAmount - 1)) && !IsValidAmount(Whole(MaxAmount + 1))
  {
  }

  /** A fractional number inside the band is still refused, and so are the
      values that are not finite numbers. */
  lemma NonIntegersRejected(x: real)
    requires x.Floor as real != x
    ensures !IsValidAmount(Number(x))
    ensures !IsValidAmount(NonFinite) && !IsValidAmount(NotNumber)
  {
  }
}
