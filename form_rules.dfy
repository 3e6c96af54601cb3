/** The validation rules the requirement cards and the Telegram fields
    register with react-hook-form, and the order in which the form library
    applies them to a field value: `required`, then `max` and `min`, then
    `pattern`, then `validate`; the first rule that fails gives the field's
    error. Also the requirement record the cards edit, and the address
    pattern two of them share. */
module FormRules {
  import opened Wrappers
  import opened Js
  import opened Ascii

  /** `requirements.<index>` in the form: the fields the cards read and
      write. The record's `type` field is called `kind` here. */
  datatype Requirement = Requirement(chain: Value, kind: Value, address: Value, value: Value,
                                     data: Value)

  datatype Rule = Required | Max | Min | Pattern | Validate

  datatype FieldError = FieldError(rule: Rule, message: string)

  datatype Bound = Bound(limit: int, message: string)

  datatype PatternRule = PatternRule(test: string -> bool, message: string)

  /** A rules object. `required` is the message, or None when the rule is
      off (`required: false`); `validate` maps the field value to what the
      callback returns. */
  datatype Rules = Rules(required: Option<string>, max: Option<Bound>, min: Option<Bound>,
                         pattern: Option<PatternRule>, validate: Option<Value -> Value>)

  /** A rules object with only a `required` message. */
  function RequiredOnly(message: string): (r: Rules)
    ensures r.required == Some(message)
    ensures r.max.None? && r.min.None? && r.pattern.None? && r.validate.None?
  {
    Rules(Some(message), None, None, None, None)
  }

  const RequiredMessage: string := "This field is required."

  /** What the form library counts as no value at all. */
  predicate IsEmptyValue(v: Value) {
    v.Undefined? || v.Null? || v == Str("") || v == Bool(false) || (v.Arr? && |v.items| == 0)
  }

  /** The number `min` and `max` compare: a number, a string holding a
      decimal integer, or a boolean read as 1 or 0 (the unary `+`). */
  function NumberOf(v: Value): (n: Option<int>)
    ensures v.Num? ==> n == Some(v.n)
    ensures v.Str? ==> n == ParseDecimal(v.s)
    ensures v.Bool? ==> n == Some(if v.b then 1 else 0)
    ensures !v.Num? && !v.Str? && !v.Bool? ==> n.None?
  {
    match v
    case Num(k) => Some(k)
    case Str(s) => ParseDecimal(s)
    case Bool(b) => Some(if b then 1 else 0)
    case _ => None
  }

  /** An array holding only strings, which the library reads as a
      `validate` failure. */
  predicate IsMessageArray(v: Value) {
    v.Arr? && forall i :: 0 <= i < |v.items| ==> v.items[i].Str?
  }

  /** The `validate` results that are failures. */
  predicate FailsValidation(v: Value) {
    v.Str? || v == Bool(false) || IsMessageArray(v)
  }

  /** What a `validate` result means: a string is an error with that
      message, `false` or an array of strings (the empty one included) an
      error without one, anything else a pass. */
  function ValidateError(result: Value): (m: Option<string>)
    ensures m.Some? <==> FailsValidation(result)
    ensures result.Str? ==> m == Some(result.s)
    ensures m.Some? && !result.Str? ==> m == Some("")
  {
    match result
    case Str(s) => Some(s)
    case Bool(b) => if b then None else Some("")
    case Arr(items) => if IsMessageArray(result) then Some("") else None
    case _ => None
  }

  predicate RequiredFails(r: Rules, v: Value) {
    r.required.Some? && IsEmptyValue(v)
  }

  /** `min` and `max` skip a missing value and "" (neither is a number
      here) but, unlike `required`, do compare `false`, as 0. */
  predicate MaxFails(r: Rules, v: Value) {
    r.max.Some? && NumberOf(v).Some? && NumberOf(v).value > r.max.value.limit
  }

  predicate MinFails(r: Rules, v: Value) {
    r.min.Some? && NumberOf(v).Some? && NumberOf(v).value < r.min.value.limit
  }

  /** A pattern is only tested on a non-empty string. */
  predicate PatternFails(r: Rules, v: Value) {
    r.pattern.Some? && !IsEmptyValue(v) && v.Str? && !r.pattern.value.test(v.s)
  }

  predicate ValidateFails(r: Rules, v: Value) {
    r.validate.Some? && ValidateError(r.validate.value(v)).Some?
  }

  predicate Passes(r: Rules, v: Value) {
    !RequiredFails(r, v) && !MaxFails(r, v) && !MinFails(r, v) && !PatternFails(r, v)
      && !ValidateFails(r, v)
  }

  /** The error a field value gets: the first failing rule, with its message. */
  function Check(r: Rules, v: Value): (e: Option<FieldError>)
    ensures e.None? <==> Passes(r, v)
    ensures e.Some? && e.value.rule == Required ==>
      RequiredFails(r, v) && e.value.message == r.required.value
    ensures e.Some? && e.value.rule == Max ==>
      !RequiredFails(r, v) && MaxFails(r, v) && e.value.message == r.max.value.message
    ensures e.Some? && e.value.rule == Min ==>
      !RequiredFails(r, v) && !MaxFails(r, v) && MinFails(r, v)
      && e.value.message == r.min.value.message
    ensures e.Some? && e.value.rule == Pattern ==>
      !RequiredFails(r, v) && !MaxFails(r, v) && !MinFails(r, v) && PatternFails(r, v)
      && e.value.message == r.pattern.value.message
    ensures e.Some? && e.value.rule == Validate ==>
      !RequiredFails(r, v) && !MaxFails(r, v) && !MinFails(r, v) && !PatternFails(r, v)
      && ValidateFails(r, v) && Some(e.value.message) == ValidateError(r.validate.value(v))
  {
    if RequiredFails(r, v) then Some(FieldError(Required, r.required.value))
    else if MaxFails(r, v) then Some(FieldError(Max, r.max.value.message))
    else if MinFails(r, v) then Some(FieldError(Min, r.min.value.message))
    else if PatternFails(r, v) then Some(FieldError(Pattern, r.pattern.value.message))
    else if ValidateFails(r, v) then
      Some(FieldError(Validate, ValidateError(r.validate.value(v)).value))
    else None
  }

  /** A field with only `required` set is valid iff it holds a value. */
  lemma RequiredOnlyIff(message: string, v: Value)
    ensures Check(RequiredOnly(message), v).None? <==> !IsEmptyValue(v)
    ensures IsEmptyValue(v) ==> Check(RequiredOnly(message), v) == Some(FieldError(Required, message))
  {
  }

  // -----------------------------------------------------------------------
  // The address pattern `/^0x[A-F0-9]{40}$/i`.

  predicate IsHexDigit(c: char) {
    '0' <= c <= '9' || 'a' <= c <= 'f' || 'A' <= c <= 'F'
  }

  predicate AllHex(s: string) {
    forall i :: 0 <= i < |s| ==> IsHexDigit(s[i])
  }

  /** The pattern read character by character: '0', 'x' in either case,
      then hex digits up to exactly 42 characters. */
  predicate IsAddress(s: string) {
    |s| == 42 && s[0] == '0' && (s[1] == 'x' || s[1] == 'X') && AllHex(s[2..])
  }

  const AddressMessage: string :=
    "Please input a 42 characters long, 0x-prefixed hexadecimal address."

  function Zeros(n: nat): (z: string)
    ensures |z| == n && forall i :: 0 <= i < n ==> z[i] == '0'
  {
    if n == 0 then "" else Zeros(n - 1) + "0"
  }

  /** "0x" followed by forty zeros. */
  const ZeroAddress: string := "0x" + Zeros(40)

  /** The pattern accepts exactly a "0x" or "0X" prefix followed by forty
      hex digits. */
  lemma AddressShape(s: string)
    ensures IsAddress(s) <==>
      exists digits: string :: |digits| == 40 && AllHex(digits) &&
        (s == "0x" + digits || s == "0X" + digits)
  {
    if IsAddress(s) {
      var digits := s[2..];
      assert s == s[..2] + digits;
      assert s[..2] == "0x" || s[..2] == "0X";
    }
    if exists digits: string :: |digits| == 40 && AllHex(digits) &&
        (s == "0x" + digits || s == "0X" + digits) {
      var digits: string :| |digits| == 40 && AllHex(digits) &&
        (s == "0x" + digits || s == "0X" + digits);
      assert s[2..] == digits;
    }
  }

  /** The `i` flag: changing the case of letters does not change the
      verdict. */
  lemma AddressIgnoresCase(s: string)
    ensures IsAddress(ToLower(s)) <==> IsAddress(s)
    ensures IsAddress(ToUpper(s)) <==> IsAddress(s)
  {
    if |s| == 42 {
      assert ToLower(s)[2..] == ToLower(s[2..]);
      assert ToUpper(s)[2..] == ToUpper(s[2..]);
    }
  }

  /** The all-zero address, which stands for a chain's native coin, passes. */
  lemma ZeroAddressIsAddress()
    ensures IsAddress(ZeroAddress)
  {
    assert ZeroAddress[2..] == Zeros(40);
  }
}
