/**
 * The argument helpers the list handlers call: the two argument-count checks,
 * the base-10 integer parse and the invalid-integer error. Their bodies are
 * not part of this model; each is modelled by what its name and use promise.
 */
module HandlerArgs {
  import opened Resp

  datatype Option<+T> = None | Some(value: T)

  /** `validateArgsExact(req, n)`: fails exactly when the request has not `n` arguments. */
  function ValidateArgsExact(req: Req, n: nat): (e: Option<Error>)
    ensures e.None? <==> |req.Args| == n
    ensures e.Some? ==> e.value.ArgCount? && e.value.command == req.Command && e.value.rule == Exactly
  {
    if |req.Args| == n then None else Some(ArgCount(req.Command, Exactly, n, |req.Args|))
  }

  /** `validateArgsMin(req, n)`: fails exactly when the request has fewer than `n` arguments. */
  function ValidateArgsMin(req: Req, n: nat): (e: Option<Error>)
    ensures e.None? <==> |req.Args| >= n
    ensures e.Some? ==> e.value.ArgCount? && e.value.command == req.Command && e.value.rule == AtLeast
  {
    if |req.Args| >= n then None else Some(ArgCount(req.Command, AtLeast, n, |req.Args|))
  }

  /** `errInvalidInteger(cmd, lit)`: records both the command and the literal. */
  function ErrInvalidInteger(command: string, literal: string): (e: Error)
    ensures e.InvalidInteger? && e.command == command && e.literal == literal
  {
    InvalidInteger(command, literal)
  }

  predicate IsDigit(c: char) {
    '0' <= c <= '9'
  }

  predicate AllDigits(s: string) {
    forall i :: 0 <= i < |s| ==> IsDigit(s[i])
  }

  /** A base-10 literal: an optional sign followed by one or more ASCII digits. */
  predicate IsDecimal(s: string) {
    if |s| > 0 && (s[0] == '-' || s[0] == '+') then |s| > 1 && AllDigits(s[1..])
    else |s| > 0 && AllDigits(s)
  }

  /** The value of a run of digits, most significant first. */
  function DigitsValue(s: string): nat
    requires AllDigits(s)
  {
    if s == [] then 0 else DigitsValue(s[..|s| - 1]) * 10 + (s[|s| - 1] - '0') as int
  }

  /** `parseInt`: the integer a base-10 literal denotes, or nothing when it is not one. */
  function ParseInt(s: string): (r: Option<int>)
    ensures r.Some? <==> IsDecimal(s)
    ensures r.Some? && s[0] == '-' ==> r.value <= 0
    ensures r.Some? && s[0] != '-' ==> r.value >= 0
  {
    if |s| > 0 && (s[0] == '-' || s[0] == '+') then
      if |s| > 1 && AllDigits(s[1..]) then
        Some(if s[0] == '-' then 0 - DigitsValue(s[1..]) as int else DigitsValue(s[1..]))
      else None
    else if |s| > 0 && AllDigits(s) then Some(DigitsValue(s))
    else None
  }

  /** The digits of a natural number, most significant first, without leading zeros. */
  function NatDigits(n: nat): (s: string)
    ensures |s| > 0 && AllDigits(s)
    ensures s[0] != '-' && s[0] != '+'
  {
    if n < 10 then ['0' + n as char] else NatDigits(n / 10) + ['0' + (n % 10) as char]
  }

  /** The canonical base-10 text of an integer. */
  function FormatInt(n: int): string {
    if n < 0 then "-" + NatDigits(-n) else NatDigits(n)
  }

  lemma {:induction false} DigitsValueOfNatDigits(n: nat)
    ensures DigitsValue(NatDigits(n)) == n
  {
    if n >= 10 {
      var s := NatDigits(n);
      assert s[..|s| - 1] == NatDigits(n / 10);
      DigitsValueOfNatDigits(n / 10);
    }
  }

  /** Parsing inverts formatting: every integer's base-10 text parses back to it. */
  lemma ParseFormatRoundTrip(n: int)
    ensures ParseInt(FormatInt(n)) == Some(n)
  {
    if n < 0 {
      assert FormatInt(n)[1..] == NatDigits(-n);
      DigitsValueOfNatDigits(-n);
    } else {
      DigitsValueOfNatDigits(n);
    }
  }

  lemma {:induction false} LeadingZeroValue(d: string)
    requires AllDigits(d)
    ensures AllDigits("0" + d) && DigitsValue("0" + d) == DigitsValue(d)
  {
    if d != [] {
      assert ("0" + d)[..|"0" + d| - 1] == "0" + d[..|d| - 1];
      LeadingZeroValue(d[..|d| - 1]);
    }
  }

  /** A leading `+` or a leading zero does not change the value of a digit string. */
  lemma LeadingPlusOrZeroIgnored(d: string)
    requires |d| > 0 && AllDigits(d)
    ensures ParseInt("+" + d) == ParseInt(d)
    ensures ParseInt("0" + d) == ParseInt(d)
  {
    assert ("+" + d)[1..] == d;
    LeadingZeroValue(d);
  }

  /** Text that is not a base-10 literal never parses, for instance "x" or "". */
  lemma NonNumeralsFail()
    ensures ParseInt("x") == None && ParseInt("") == None && ParseInt("-") == None && ParseInt("1x") == None
    ensures ParseInt("-12") == Some(-12) && ParseInt("+7") == Some(7)
  {
  }
}
