/**
 Sanitisation of raw query parameters: numeric clamping with a fallback,
 opt-out boolean flags, and JavaScript's truthiness of nullable strings.
 */
module Sanitise {
  import opened Wrappers

  /** JavaScript truthiness of a nullable string: present and non-empty. */
  predicate Truthy(s: Option<string>) {
    s.Some? && s.value != ""
  }

  /** `s || fallback` for a nullable string `s`. */
  function OrElse(s: Option<string>, fallback: string): (r: string)
    ensures Truthy(s) ==> r == s.value
    ensures !Truthy(s) ==> r == fallback
    ensures fallback != "" ==> r != ""
  {
    if Truthy(s) then s.value else fallback
  }

  /** An opt-out flag: only the literal "false" disables it; absence means on. */
  function OptOutFlag(raw: Option<string>): (on: bool)
    ensures !on <==> raw == Some("false")
    ensures raw.None? ==> on
    ensures raw == Some("") ==> on
  {
    raw != Some("false")
  }

  function Max(a: real, b: real): real { if a >= b then a else b }

  function Min(a: real, b: real): real { if a <= b then a else b }

  /** Distance between two reals. */
  function Dist(a: real, b: real): real { if a >= b then a - b else b - a }

  /** `parseFloat(value)`, where `parseFloat(null)` is NaN. */
  function ParseNumber(raw: Option<string>, parseFloat: string -> Option<real>): Option<real> {
    if raw.None? then None else parseFloat(raw.value)
  }

  /**
   `x` is what sanitising the parse outcome `n` into `[lo, hi]` with the given
   fallback must give: the fallback when parsing failed, the value itself when
   it is in range, and the bound it crosses otherwise.
   */
  predicate SanitisedFrom(x: real, n: Option<real>, lo: real, hi: real, fallback: real) {
    match n
    case None => x == fallback
    case Some(v) => (lo <= v <= hi ==> x == v) && (v > hi ==> x == hi) && (v < lo ==> x == lo)
  }

  /**
   `sanitiseNumber`: the fallback when parsing fails, whatever the bounds;
   otherwise the parsed value clamped by `Math.min(Math.max(v, lo), hi)`,
   which is the point of `[lo, hi]` nearest to the value.
   */
  function SanitiseNumber(raw: Option<string>, lo: real, hi: real, fallback: real,
                          parseFloat: string -> Option<real>): (r: real)
    ensures ParseNumber(raw, parseFloat).None? ==> r == fallback
    ensures lo <= hi ==> SanitisedFrom(r, ParseNumber(raw, parseFloat), lo, hi, fallback)
    ensures ParseNumber(raw, parseFloat).Some? ==>
      var v := ParseNumber(raw, parseFloat).value;
      && (lo <= hi ==> lo <= r <= hi)
      && (lo <= v <= hi ==> r == v)
      && (v > hi ==> r == hi)
      && (v < lo && lo <= hi ==> r == lo)
      && (lo > hi ==> r == hi)
      && (lo <= hi ==> forall y :: lo <= y <= hi ==> Dist(r, v) <= Dist(y, v))
  {
    match ParseNumber(raw, parseFloat)
    case None => fallback
    case Some(v) => Min(Max(v, lo), hi)
  }
}
