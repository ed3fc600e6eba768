module Decimals {

  /** A Python decimal; two finite decimals print alike exactly when they are
      equal in value and in exponent. */
  datatype Decimal = NonFinite | Finite(value: real, exponent: int)
}
