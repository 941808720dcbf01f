/** Small functions on numbers that several modules use. */
module Numbers {
  function Max(a: int, b: int): int { if a < b then b else a }

  function Min(a: int, b: int): int { if a < b then a else b }

  /** `max(1, n)`. */
  function AtLeastOne(n: int): nat { if n < 1 then 1 else n }

  function Decimal(n: nat): (s: string)
    ensures s != ""
  {
    var digit := ['0' + (n % 10) as char];
    if n < 10 then digit else Decimal(n / 10) + digit
  }
}
