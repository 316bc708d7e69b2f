/** Decimal numbers on the command line and in responses: the overflow-checked parsers of
    src/runnerctl_main.cpp and src/runnerd_main.cpp, and `std::to_string`. */
module Decimal {
  import opened Jobs
  import opened Wire

  const ZERO: Byte := 48

  predicate IsDigit(c: Byte) {
    48 <= c <= 57
  }

  predicate AllDigits(s: Bytes) {
    forall i | 0 <= i < |s| :: IsDigit(s[i])
  }

  /** The number a digit string denotes. */
  function Number(s: Bytes): nat
    requires AllDigits(s)
  {
    if s == [] then 0 else Number(s[..|s| - 1]) * 10 + (s[|s| - 1] - 48)
  }

  /** `std::to_string` of an unsigned number. */
  function Digits(n: nat): (s: Bytes)
    ensures s != [] && AllDigits(s)
  {
    if n < 10 then [48 + n] else Digits(n / 10) + [48 + n % 10]
  }

  lemma {:induction false} NumberOfDigits(n: nat)
    ensures Number(Digits(n)) == n
  {
    if n >= 10 {
      NumberOfDigits(n / 10);
      assert Digits(n)[..|Digits(n)| - 1] == Digits(n / 10);
    } else {
      assert Number([]) == 0;
      assert Digits(n)[..0] == [];
    }
  }

  /** A digit string is what its number prints as exactly if it has no superfluous zero in front. */
  lemma {:induction false} DigitsOfNumber(s: Bytes)
    requires AllDigits(s) && s != []
    ensures Digits(Number(s)) == s <==> (|s| == 1 || s[0] != ZERO)
    ensures s[0] != ZERO ==> Number(s) > 0
  {
    var init := s[..|s| - 1];
    assert s == init + [s[|s| - 1]];
    if |s| > 1 {
      assert init[0] == s[0];
      DigitsOfNumber(init);
      if s[0] == ZERO {
        LeadingZero(s);
      }
    } else {
      assert Number(init) == 0;
    }
  }

  lemma LeadingZero(s: Bytes)
    requires AllDigits(s) && |s| > 1 && s[0] == ZERO
    ensures Digits(Number(s)) != s
  {
    NoLeadingZero(Number(s));
    if Digits(Number(s)) == s {
      assert Number(s) < 10;
    }
  }

  lemma {:induction false} NoLeadingZero(n: nat)
    ensures n >= 10 ==> Digits(n)[0] != ZERO
  {
    if n >= 100 {
      NoLeadingZero(n / 10);
    }
  }

  // ----- parsing -----

  datatype ParseError = Empty | NotANumber | TooLarge | Zero
  datatype Parse = Parsed(value: nat) | Rejected(error: ParseError)

  /** The digits before the first character that is not one. */
  function LeadingDigits(s: Bytes): (r: Bytes)
    ensures AllDigits(r) && r <= s
    ensures r == s || !IsDigit(s[|r|])
  {
    if s == [] || !IsDigit(s[0]) then [] else [s[0]] + LeadingDigits(s[1..])
  }

  lemma {:induction false} NumberGrows(s: Bytes, n: nat)
    requires AllDigits(s) && n <= |s|
    ensures Number(s[..n]) <= Number(s)
    decreases |s|
  {
    if n < |s| {
      NumberGrows(s[..|s| - 1], n);
      assert s[..|s| - 1][..n] == s[..n];
    } else {
      assert s[..n] == s;
    }
  }

  lemma PrefixOfDigits(s: Bytes, n: nat)
    requires n <= |s| && AllDigits(s[..n])
    ensures n <= |LeadingDigits(s)| && LeadingDigits(s)[..n] == s[..n]
  {
    var d := LeadingDigits(s);
    assert d <= s;
  }

  /** The loop that every decimal parser of the program runs, with its own maximum.
      It accepts exactly the digit strings whose number lies in 1..maximum, and says why it refuses. */
  method ParsePositive(text: Bytes, maximum: nat) returns (r: Parse)
    requires maximum >= 9
    ensures r.Parsed? <==> text != [] && AllDigits(text) && 0 < Number(text) <= maximum
    ensures r.Parsed? ==> r.value == Number(text)
    ensures r == Rejected(Empty) <==> text == []
    ensures r == Rejected(TooLarge) <==> Number(LeadingDigits(text)) > maximum
    ensures r == Rejected(NotANumber) <==> !AllDigits(text) && Number(LeadingDigits(text)) <= maximum
    ensures r == Rejected(Zero) <==> text != [] && AllDigits(text) && Number(text) == 0
  {
    if text == [] {
      return Rejected(Empty);
    }
    var value := 0;
    for i := 0 to |text|
      invariant AllDigits(text[..i]) && value == Number(text[..i]) && value <= maximum
    {
      PrefixOfDigits(text, i);
      if text[i] < 48 || text[i] > 57 {
        assert LeadingDigits(text) == text[..i];
        return Rejected(NotANumber);
      }
      var digit := text[i] - 48;
      var next := text[..i + 1];
      assert next[..i] == text[..i] && AllDigits(next);
      PrefixOfDigits(text, i + 1);
      NumberGrows(LeadingDigits(text), i + 1);
      if value > (maximum - digit) / 10 {
        assert Number(next) > maximum;
        assert AllDigits(text) ==> LeadingDigits(text) == text;
        return Rejected(TooLarge);
      }
      value := value * 10 + digit;
    }
    assert text[..|text|] == text;
    PrefixOfDigits(text, |text|);
    assert LeadingDigits(text) == text;
    r := if value == 0 then Rejected(Zero) else Parsed(value);
  }

  method ParseJobId(text: Bytes) returns (r: Parse)
    ensures r.Parsed? <==> text != [] && AllDigits(text) && 0 < Number(text) < JOB_ID_SPACE
    ensures r.Parsed? ==> r.value == Number(text)
  {
    r := ParsePositive(text, JOB_ID_SPACE - 1);
  }

  method ParsePositiveTimeout(text: Bytes) returns (r: Parse)
    ensures r.Parsed? <==> text != [] && AllDigits(text) && 0 < Number(text) < U32_SPACE
    ensures r.Parsed? ==> r.value == Number(text)
  {
    r := ParsePositive(text, U32_SPACE - 1);
  }

  function SubmitResponse(id: JobId): Bytes {
    Ascii("OK ") + Digits(id)
  }

  /** The client's reading of the answer to SUBMIT. */
  method ParseSubmitSuccessResponse(response: Bytes) returns (r: Option<JobId>)
    ensures r.Some? <==> |response| > 3 && response[..3] == Ascii("OK ") && AllDigits(response[3..]) && 0 < Number(response[3..]) < JOB_ID_SPACE
    ensures r.Some? ==> r.value == Number(response[3..])
  {
    if |response| < 3 || response[..3] != Ascii("OK ") || |response| == 3 {
      return None;
    }
    var p := ParsePositive(response[3..], JOB_ID_SPACE - 1);
    r := if p.Parsed? then Some(p.value) else None;
  }

  /** What the daemon prints for a JobId, the client reads back, over all of 1..2^64-1. */
  method SubmitResponseRoundTrip(id: JobId) returns (text: Parse, answer: Option<JobId>)
    requires 0 < id < JOB_ID_SPACE
    ensures text == Parsed(id) && answer == Some(id)
  {
    NumberOfDigits(id);
    text := ParseJobId(Digits(id));
    assert SubmitResponse(id)[3..] == Digits(id);
    assert SubmitResponse(id)[..3] == Ascii("OK ");
    answer := ParseSubmitSuccessResponse(SubmitResponse(id));
  }
}
