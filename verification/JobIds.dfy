/**
 Job identifiers: "job-" followed by a decimal number, and the number that a
 stored identifier is read back as (src/jobs.rs, src/storage.rs).
 */
module JobIds {
  import opened Collections

  type JobId = string

  const U64_MAX: nat := 0xFFFF_FFFF_FFFF_FFFF

  predicate IsDigit(c: char) { '0' <= c <= '9' }

  ghost predicate AllDigits(s: string) { forall i :: 0 <= i < |s| ==> IsDigit(s[i]) }

  function DigitChar(d: nat): (c: char)
    requires d < 10
    ensures IsDigit(c) && (c as int) - ('0' as int) == d
  {
    ('0' as int + d) as char
  }

  /** The number a digit string denotes; no width limit. */
  function DigitsValue(s: string): nat
    requires AllDigits(s)
  {
    if s == "" then 0
    else 10 * DigitsValue(s[..|s| - 1]) + ((s[|s| - 1] as int) - ('0' as int))
  }

  /** Decimal rendering, as `format!` writes an unsigned integer. */
  function Decimal(n: nat): (s: string)
    ensures s != "" && AllDigits(s) && DigitsValue(s) == n
  {
    if n < 10 then
      var s := [DigitChar(n)];
      assert s[..0] == "";
      s
    else
      var front := Decimal(n / 10);
      var s := front + [DigitChar(n % 10)];
      assert s[..|s| - 1] == front;
      s
  }

  function JobIdOf(n: nat): JobId { "job-" + Decimal(n) }

  /** Reading digits as a u64: `None` on anything else, and on overflow. */
  function ParseU64(s: string): Option<nat> {
    var digits := if s != "" && s[0] == '+' then s[1..] else s;
    if digits != "" && (forall i :: 0 <= i < |digits| ==> IsDigit(digits[i])) && DigitsValue(digits) <= U64_MAX
    then Some(DigitsValue(digits)) else None
  }

  /** The number of an identifier; 0 for anything that is not "job-" and a u64. */
  function ParseNumericJobId(id: JobId): nat {
    if "job-" <= id then
      match ParseU64(id[4..])
      case Some(n) => n
      case None => 0
    else 0
  }

  /** Distinct numbers have distinct identifiers. */
  lemma JobIdInjective(m: nat, n: nat)
    requires JobIdOf(m) == JobIdOf(n)
    ensures m == n
  {
    assert JobIdOf(m)[4..] == Decimal(m);
    assert JobIdOf(n)[4..] == Decimal(n);
  }

  /** An identifier is read back as its number exactly when the number fits 64 bits. */
  lemma ParseReadsBack(n: nat)
    ensures ParseNumericJobId(JobIdOf(n)) == if n <= U64_MAX then n else 0
  {
    assert JobIdOf(n)[4..] == Decimal(n);
    assert IsDigit(Decimal(n)[0]);
  }
}
