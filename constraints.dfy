/** The Jakarta bean-validation constraints the request bodies use, on optional values:
    every constraint except `@NotNull` and `@NotBlank` accepts a missing (null) value.
    Money is in minor units (cents), so `@Digits(integer = 8, fraction = 2)` bounds the
    amount below 10^8 whole units and the fraction digits cannot be exceeded. */
module Constraints {
  import opened Wrappers
  import opened Text

  /** `@Size(max = n)`. */
  predicate SizeAtMost(s: Option<string>, n: nat)
  {
    s.Some? ==> |s.value| <= n
  }

  /** `@Min(lo) @Max(hi)`. */
  predicate Between(x: Option<int>, lo: int, hi: int)
  {
    x.Some? ==> lo <= x.value <= hi
  }

  /** `@Min(lo)` alone. */
  predicate AtLeast(x: Option<int>, lo: int)
  {
    x.Some? ==> lo <= x.value
  }

  /** `@DecimalMin(value = "0.0", inclusive = false)`. */
  predicate Positive(x: Option<int>)
  {
    x.Some? ==> x.value > 0
  }

  /** `@NotBlank`: present and not whitespace only. */
  predicate NotBlank(s: Option<string>)
  {
    s.Some? && !IsBlank(s.value)
  }

  const PriceLimit := 10_000_000_000

  /** `@Digits(integer = 8, fraction = 2)` on an amount in cents. */
  predicate PriceDigits(x: Option<int>)
  {
    x.Some? ==> -PriceLimit < x.value < PriceLimit
  }

  /** `@FutureOrPresent` on a date. */
  predicate TodayOrLater(d: Option<int>, today: int)
  {
    d.Some? ==> today <= d.value
  }

  /** `@Future` on a date. */
  predicate AfterToday(d: Option<int>, today: int)
  {
    d.Some? ==> today < d.value
  }

  /** `@NotBlank` refuses exactly the missing value and the whitespace-only strings. */
  lemma NotBlankIffVisibleCharacter(s: Option<string>)
    ensures NotBlank(s) <==> s.Some? && exists i :: 0 <= i < |s.value| && s.value[i] > ' '
  {
    if s.Some? {
      BlankIffAllSpace(s.value);
    }
  }
}
