/**
 * validarENormalizarCep, which both CepService variants share word for word:
 * reject a null or blank input, strip every character outside 0-9, and
 * demand exactly eight digits. The two variants differ only in the message
 * of the CepInvalidoException they throw, so the decision is modelled once
 * here and each variant turns a Rejection into its own exception.
 */
module CepNormalizer {
  import opened Wrappers
  import opened Domain

  const CepLength: nat := 8

  predicate IsAsciiDigit(c: char) {
    '0' <= c <= '9'
  }

  predicate AllDigits(s: string) {
    forall i :: 0 <= i < |s| ==> IsAsciiDigit(s[i])
  }

  /** The canonical CEP form: exactly eight ASCII digits. */
  predicate IsCanonical(s: string) {
    |s| == CepLength && AllDigits(s)
  }

  /** s.replaceAll("[^0-9]", "") */
  function DigitsOf(s: string): (d: string)
    ensures |d| <= |s|
    ensures AllDigits(d)
  {
    if s == [] then []
    else (if IsAsciiDigit(s[0]) then [s[0]] else []) + DigitsOf(s[1..])
  }

  /** Why validarENormalizarCep threw. */
  datatype Rejection =
    | Blank                           // null or blank input: "CEP não pode ser vazio"
    | WrongLength(cleanedLength: nat) // the cleaned string did not have eight digits

  /** validarENormalizarCep, up to the message of the exception it throws. */
  function Normalize(cep: Option<string>): (r: Result<string, Rejection>)
    ensures r.Ok? ==> IsCanonical(r.value)
    ensures r.Err? && r.error.WrongLength? ==> cep.Some? && r.error.cleanedLength != CepLength
  {
    if IsNullOrBlank(cep) then Err(Blank)
    else
      var cleaned := DigitsOf(cep.value);
      if |cleaned| != CepLength then Err(WrongLength(|cleaned|)) else Ok(cleaned)
  }

  // ---------------------------------------------------------------------------
  // DigitsOf: an independent characterisation, character by character

  /** Stripping distributes over concatenation, so it keeps the digits in their order. */
  lemma {:induction false} DigitsOfConcat(a: string, b: string)
    ensures DigitsOf(a + b) == DigitsOf(a) + DigitsOf(b)
  {
    if a == [] {
      assert a + b == b;
    } else {
      var head := if IsAsciiDigit(a[0]) then [a[0]] else [];
      assert (a + b)[0] == a[0];
      assert (a + b)[1..] == a[1..] + b;
      assert DigitsOf(a + b) == head + DigitsOf(a[1..] + b);
      DigitsOfConcat(a[1..], b);
      assert DigitsOf(a) == head + DigitsOf(a[1..]);
    }
  }

  /** On a single character stripping keeps a digit and drops anything else. */
  lemma DigitsOfChar(c: char)
    ensures DigitsOf([c]) == if IsAsciiDigit(c) then [c] else []
  {
    assert [c][1..] == [];
  }

  /** A string that already is all digits is left unchanged. */
  lemma {:induction false} DigitsOfAllDigits(s: string)
    requires AllDigits(s)
    ensures DigitsOf(s) == s
  {
    if s != [] {
      DigitsOfAllDigits(s[1..]);
    }
  }

  /** Stripping twice is stripping once. */
  lemma DigitsOfIdempotent(s: string)
    ensures DigitsOf(DigitsOf(s)) == DigitsOf(s)
  {
    DigitsOfAllDigits(DigitsOf(s));
  }

  /** Each digit occurs in the result as often as in the input; nothing else occurs. */
  lemma {:induction false} DigitsOfCounts(s: string, c: char)
    ensures multiset(DigitsOf(s))[c] == if IsAsciiDigit(c) then multiset(s)[c] else 0
  {
    if s != [] {
      DigitsOfCounts(s[1..], c);
      assert s == [s[0]] + s[1..];
      assert multiset(s) == multiset([s[0]]) + multiset(s[1..]);
    }
  }

  /** A blank string holds no digits at all. */
  lemma {:induction false} BlankHasNoDigits(s: string)
    requires IsBlank(s)
    ensures DigitsOf(s) == []
  {
    if s != [] {
      assert IsJavaWhitespace(s[0]);
      BlankHasNoDigits(s[1..]);
    }
  }

  // ---------------------------------------------------------------------------
  // Normalize: what it accepts, what it returns

  /**
   * A CEP is accepted exactly when it is non-null and holds eight digits:
   * the blank check only chooses the message, since a blank string has no digits.
   */
  lemma NormalizeAcceptsExactly(cep: Option<string>)
    ensures Normalize(cep).Ok? <==> cep.Some? && |DigitsOf(cep.value)| == CepLength
  {
    if cep.Some? && IsBlank(cep.value) {
      BlankHasNoDigits(cep.value);
    }
  }

  /** On success the result is the input's digits; a null or blank input is rejected as Blank. */
  lemma NormalizeResult(cep: Option<string>)
    ensures Normalize(cep).Ok? ==> Normalize(cep).value == DigitsOf(cep.value)
    ensures Normalize(cep) == Err(Blank) <==> IsNullOrBlank(cep)
  {
  }

  /** Normalising a normalised CEP returns it unchanged. */
  lemma NormalizeIdempotent(cep: Option<string>)
    requires Normalize(cep).Ok?
    ensures Normalize(Some(Normalize(cep).value)) == Normalize(cep)
  {
    var d := Normalize(cep).value;
    DigitsOfAllDigits(d);
  }

  /** Every eight-digit string is accepted as it is, and so is its "00000-000" form. */
  lemma NormalizeAcceptsBothForms(d: string)
    requires IsCanonical(d)
    ensures Normalize(Some(d)) == Ok(d)
    ensures Normalize(Some(d[..5] + "-" + d[5..])) == Ok(d)
  {
    DigitsOfAllDigits(d);
    assert !IsJavaWhitespace(d[0]);
    var head, tail := d[..5], d[5..];
    var dashed := head + "-" + tail;
    DigitsOfAllDigits(head);
    DigitsOfAllDigits(tail);
    DigitsOfConcat(head, "-");
    DigitsOfConcat(head + "-", tail);
    DigitsOfChar('-');
    assert "-" == ['-'];
    assert DigitsOf(dashed) == head + tail;
    assert head + tail == d;
    assert dashed[0] == d[0];
  }

  /** Any input whose digits do not number eight is rejected. */
  lemma NormalizeRejectsWrongLength(s: string)
    requires |DigitsOf(s)| != CepLength
    ensures Normalize(Some(s)).Err?
  {
  }

  /** A non-empty all-digit input is its own cleaned form, so only its length decides. */
  lemma NormalizeAllDigits(s: string)
    requires |s| > 0 && AllDigits(s)
    ensures Normalize(Some(s)) == if |s| == CepLength then Ok(s) else Err(WrongLength(|s|))
  {
    DigitsOfAllDigits(s);
    assert !IsJavaWhitespace(s[0]);
  }

  /** The example the unit tests use: the plain spelling of a CEP is accepted. */
  lemma NormalizePlainExample()
    ensures Normalize(Some("01310100")) == Ok("01310100")
  {
    NormalizeAllDigits("01310100");
  }

  /** The example the unit tests use: the hyphenated spelling of a CEP is accepted. */
  lemma NormalizeHyphenatedExample()
    ensures Normalize(Some("01310" + "-" + "100")) == Ok("01310" + "100")
  {
    NormalizeAcceptsBothForms("01310" + "100");
    assert ("01310" + "100")[..5] == "01310";
    assert ("01310" + "100")[5..] == "100";
  }

  /** The example the unit tests use: too few digits are rejected. */
  lemma NormalizeRejectsTooShortExample()
    ensures Normalize(Some("123")) == Err(WrongLength(3))
  {
    NormalizeAllDigits("123");
  }

  /** The example the unit tests use: too many digits are rejected. */
  lemma NormalizeRejectsTooLongExample()
    ensures Normalize(Some("123456789")) == Err(WrongLength(9))
  {
    NormalizeAllDigits("123456789");
  }

  /** The examples the unit tests use: null, empty and blank inputs are rejected as Blank. */
  lemma NormalizeBlankExamples()
    ensures Normalize(Some("")) == Err(Blank)
    ensures Normalize(Some("   ")) == Err(Blank)
    ensures Normalize(None) == Err(Blank)
  {
    assert IsBlank("   ");
  }
}
