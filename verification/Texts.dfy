/** Bytes and decimal numbers, as Go's strconv and strings read them. */
module Texts {
  import opened Wrappers

  type Bytes = seq<nat>

  const MAX_INT := 0x7fff_ffff_ffff_ffff

  /** The value of a run of decimal digits. */
  function Digits(t: Bytes): Option<nat> {
    if t == [] then Some(0)
    else
      var last := t[|t| - 1];
      var front := Digits(t[..|t| - 1]);
      if front.None? || last < '0' as int || last > '9' as int then None
      else Some(10 * front.value + (last - '0' as int))
  }

  /** A parsed integer: the value is 0 when the text is no number, and the nearest 64-bit one when out of range. */
  datatype Parsed = Parsed(value: int, valid: bool)

  /** The longest run of digits the text starts with. */
  function LeadingDigits(t: Bytes): (k: nat)
    ensures k <= |t|
  {
    if t != [] && '0' as int <= t[0] <= '9' as int then 1 + LeadingDigits(t[1..]) else 0
  }

  /** The digits before the first character that is none already overflow 64 bits. */
  predicate Overflows(t: Bytes) {
    var n := Digits(t[..LeadingDigits(t)]);
    n.Some? && n.value >= 2 * (MAX_INT + 1)
  }

  /** A decimal integer with an optional sign that fits 64 bits. */
  function Atoi(t: Bytes): Parsed {
    var negative := t != [] && t[0] == '-' as int;
    var digits := if negative || (t != [] && t[0] == '+' as int) then t[1..] else t;
    var limit := if negative then -MAX_INT - 1 else MAX_INT;
    var n := Digits(digits);
    if digits == [] then Parsed(0, false)
    else if n.None? then Parsed(if Overflows(digits) then limit else 0, false)
    else
      var m: int := n.value;
      var v := if negative then -m else m;
      if v < -MAX_INT - 1 || v > MAX_INT then Parsed(limit, false) else Parsed(v, true)
  }

  function Itoa(n: nat): (t: Bytes)
    ensures t != []
  {
    if n < 10 then ['0' as int + n] else Itoa(n / 10) + ['0' as int + n % 10]
  }

  predicate AllDigits(t: Bytes) {
    forall i :: 0 <= i < |t| ==> '0' as int <= t[i] <= '9' as int
  }

  lemma {:induction false} ItoaDigits(n: nat)
    ensures AllDigits(Itoa(n)) && Digits(Itoa(n)) == Some(n)
  {
    var t := Itoa(n);
    if n < 10 {
      assert t[..0] == [];
    } else {
      ItoaDigits(n / 10);
      assert t[..|t| - 1] == Itoa(n / 10);
    }
  }

  /** Every number that fits 64 bits reads back from its decimal text. */
  lemma AtoiItoa(n: nat)
    requires n <= MAX_INT
    ensures Atoi(Itoa(n)) == Parsed(n, true)
  {
    ItoaDigits(n);
  }
}
