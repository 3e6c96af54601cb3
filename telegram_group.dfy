/** The Telegram section of the create-guild form: the group-ID field's
    rules, the effects run when the bot lookup answers, and the bot button.
    The lookup (`useIsTGBotIn`) is a parameter: `isIn` is its `ok` field
    and `errorMessage` its `message` field, either of which may be missing
    while it loads. The telemetry calls are kept as named records. */
module TelegramGroup {
  import opened Wrappers
  import opened Js
  import opened Ascii
  import opened FormRules

  const GroupIdMessage: string := "A Group ID starts with a '-' and contains only numbers"

  const BotInviteUrl: string := "https://t.me/guildxyz_bot?startgroup=true"

  /** `/^-[0-9]+/i`: a '-' and at least one digit at the start. The
      expression has no end anchor, so nothing after the first digit is
      looked at. */
  predicate GroupIdPattern(s: string) {
    |s| >= 2 && s[0] == '-' && IsDigit(s[1])
  }

  /** `validate: () => isIn || errorMessage`; the field value is ignored. */
  function BotCheck(isIn: Value, errorMessage: Value): (r: Value)
    ensures Truthy(isIn) ==> r == isIn
    ensures !Truthy(isIn) ==> r == errorMessage
  {
    Or(isIn, errorMessage)
  }

  /** The rules registered on `guildPlatforms.0.platformGuildId`. */
  function GroupIdRules(isIn: Value, errorMessage: Value): (r: Rules)
    ensures r.required == Some(RequiredMessage) && r.max.None? && r.min.None?
    ensures r.pattern.Some? && r.pattern.value.message == GroupIdMessage
    ensures forall s :: r.pattern.value.test(s) <==> GroupIdPattern(s)
    ensures r.validate.Some? && forall v :: r.validate.value(v) == BotCheck(isIn, errorMessage)
  {
    Rules(Some(RequiredMessage), None, None,
          Some(PatternRule(GroupIdPattern, GroupIdMessage)),
          Some(_ => BotCheck(isIn, errorMessage)))
  }

  /** What the effects record and do. */
  datatype Step =
    | RecordAction(name: string)
    | RecordError(name: string, error: Value)
    | TriggerValidation

  /** The effect on the pasted group ID. */
  function PastedEffect(platformId: Value): (e: seq<Step>)
    ensures |e| <= 1
    ensures forall i :: 0 <= i < |e| ==> e[i] == RecordAction("Pasted a Telegram group ID")
  {
    if !Truthy(platformId) then [] else [RecordAction("Pasted a Telegram group ID")]
  }

  /** The effect on the lookup's answer. The source tests
      `isIn && !errorMessage` a second time; it always holds there. */
  function BotEffect(isIn: Value, errorMessage: Value): (e: seq<Step>)
    ensures e == [RecordError("Telegram group ID error", errorMessage)] ||
            (|e| == 3 && e[2] == RecordAction("Successful platform setup"))
  {
    if !Truthy(isIn) || Truthy(errorMessage) then
      [RecordError("Telegram group ID error", errorMessage)]
    else
      [TriggerValidation, RecordAction("Telegram bot added successfully"),
       RecordAction("Successful platform setup")]
  }

  datatype BotButton =
    | AddBot(caption: string, href: string, isLoading: bool, disabled: bool)
    | BotAdded(caption: string, disabled: bool)

  /** The first step's button, with the two captions as parameters (the
      role form shows the same button under other captions). */
  function ButtonWith(isIn: Value, isLoading: bool, addCaption: string, addedCaption: string): BotButton {
    if !Truthy(isIn) then AddBot(addCaption, BotInviteUrl, isLoading, isLoading)
    else BotAdded(addedCaption, true)
  }

  function Button(isIn: Value, isLoading: bool): (b: BotButton)
    ensures b.AddBot? <==> !Truthy(isIn)
    ensures b.caption == if Truthy(isIn) then "Guild bot added" else "Add Guild bot"
  {
    ButtonWith(isIn, isLoading, "Add Guild bot", "Guild bot added")
  }

  // -----------------------------------------------------------------------
  // Properties

  /** The pattern holds exactly for text that starts with '-' and a digit,
      whatever follows. */
  lemma PatternShape(s: string)
    ensures GroupIdPattern(s) <==> exists d: char, rest: string :: IsDigit(d) && s == ['-', d] + rest
  {
    if GroupIdPattern(s) {
      assert s == ['-', s[1]] + s[2..];
    }
  }

  /** With `ok` a boolean or missing, the bot check fails exactly when the
      bot is not in the group and the lookup gave a message (or `false`, or
      an array of messages); a missing message lets the field through while
      the bot is not in. */
  lemma BotCheckIff(isIn: Value, errorMessage: Value)
    ensures ValidateError(BotCheck(isIn, errorMessage)).Some? <==>
      (Truthy(isIn) && FailsValidation(isIn)) || (!Truthy(isIn) && FailsValidation(errorMessage))
    ensures isIn.Bool? || Nullish(isIn) ==>
      (ValidateError(BotCheck(isIn, errorMessage)).Some? <==>
         !Truthy(isIn) && FailsValidation(errorMessage))
    ensures !Truthy(isIn) && errorMessage.Str? ==>
      ValidateError(BotCheck(isIn, errorMessage)) == Some(errorMessage.s)
    ensures !Truthy(isIn) && Nullish(errorMessage) ==> ValidateError(BotCheck(isIn, errorMessage)).None?
  {
  }

  /** The field's error for a typed text: required first, then the
      pattern with its message, then the bot check with the lookup's
      message; no error iff all three pass. */
  lemma GroupIdErrors(isIn: Value, errorMessage: Value, s: string)
    ensures var e := Check(GroupIdRules(isIn, errorMessage), Str(s));
      && (e.None? <==> s != "" && GroupIdPattern(s) && ValidateError(BotCheck(isIn, errorMessage)).None?)
      && (s == "" ==> e == Some(FieldError(Required, RequiredMessage)))
      && (s != "" && !GroupIdPattern(s) ==> e == Some(FieldError(Pattern, GroupIdMessage)))
      && (s != "" && GroupIdPattern(s) && !Truthy(isIn) && errorMessage.Str? ==>
            e == Some(FieldError(Validate, errorMessage.s)))
  {
    var r := GroupIdRules(isIn, errorMessage);
    assert r.validate.value(Str(s)) == BotCheck(isIn, errorMessage);
    assert s != "" ==> !IsEmptyValue(Str(s));
  }

  /** Validation is triggered exactly when the bot is in and there is no
      message; otherwise the error is recorded, and it is one or the other. */
  lemma BotEffectIff(isIn: Value, errorMessage: Value)
    ensures var e := BotEffect(isIn, errorMessage);
      && (TriggerValidation in e <==> Truthy(isIn) && !Truthy(errorMessage))
      && (RecordError("Telegram group ID error", errorMessage) in e <==> TriggerValidation !in e)
      && (TriggerValidation in e ==> e[0] == TriggerValidation)
  {
  }

  /** A pasted ID is recorded iff it is truthy. */
  lemma PastedEffectIff(platformId: Value)
    ensures |PastedEffect(platformId)| == 1 <==> Truthy(platformId)
    ensures PastedEffect(platformId) != [] ==>
      PastedEffect(platformId) == [RecordAction("Pasted a Telegram group ID")]
  {
  }

  /** The invite button shows until the bot is in, and is disabled exactly
      while the lookup loads; once the bot is in the button is disabled. */
  lemma ButtonStates(isIn: Value, isLoading: bool, addCaption: string, addedCaption: string)
    ensures var b := ButtonWith(isIn, isLoading, addCaption, addedCaption);
      && (b.AddBot? <==> !Truthy(isIn))
      && (b.AddBot? ==> b.href == BotInviteUrl && b.disabled == isLoading && b.caption == addCaption)
      && (b.BotAdded? ==> b.disabled && b.caption == addedCaption)
  {
  }

  // -----------------------------------------------------------------------
  // The pattern's missing end anchor

  /** A group ID whose tail is not numeric still passes the pattern, and
      with the bot in, the whole field, despite the message saying the ID
      contains only numbers. */
  lemma PatternAcceptsLetters()
    ensures GroupIdPattern("-1a")
    ensures Check(GroupIdRules(Bool(true), Undefined), Str("-1a")).None?
  {
    assert IsDigit('1');
    GroupIdErrors(Bool(true), Undefined, "-1a");
  }

  /** `/^-[0-9]+$/`: a '-' followed by one or more digits and nothing else. */
  predicate IsGroupId(s: string) {
    |s| >= 2 && s[0] == '-' && forall i :: 1 <= i < |s| ==> IsDigit(s[i])
  }

  function StrictGroupIdRules(isIn: Value, errorMessage: Value): (r: Rules)
    ensures r.required == Some(RequiredMessage) && r.max.None? && r.min.None?
    ensures r.pattern.Some? && r.pattern.value.message == GroupIdMessage
    ensures forall s :: r.pattern.value.test(s) <==> IsGroupId(s)
    ensures r.validate.Some? && forall v :: r.validate.value(v) == BotCheck(isIn, errorMessage)
  {
    GroupIdRules(isIn, errorMessage).(pattern := Some(PatternRule(IsGroupId, GroupIdMessage)))
  }

  predicate AllDigits(s: string) {
    forall i :: 0 <= i < |s| ==> IsDigit(s[i])
  }

  /** The anchored pattern holds exactly for '-' followed by a non-empty
      run of digits. */
  lemma IsGroupIdShape(s: string)
    ensures IsGroupId(s) <==> exists digits: string :: |digits| > 0 && AllDigits(digits) && s == "-" + digits
  {
    if IsGroupId(s) {
      var digits := s[1..];
      assert s == "-" + digits;
      forall i | 0 <= i < |digits| ensures IsDigit(digits[i]) {
        assert digits[i] == s[i + 1];
      }
    }
    if exists digits: string :: |digits| > 0 && AllDigits(digits) && s == "-" + digits {
      var digits: string :| |digits| > 0 && AllDigits(digits) && s == "-" + digits;
      forall i | 1 <= i < |s| ensures IsDigit(s[i]) {
        assert s[i] == digits[i - 1];
      }
    }
  }

  /** With the anchored pattern the field accepts exactly a '-' followed by
      digits (and a passing bot check), which is what the message says; any
      such text also passes the pattern as written. */
  lemma StrictGroupIdIff(isIn: Value, errorMessage: Value, s: string)
    ensures Check(StrictGroupIdRules(isIn, errorMessage), Str(s)).None? <==>
      IsGroupId(s) && ValidateError(BotCheck(isIn, errorMessage)).None?
    ensures Check(StrictGroupIdRules(isIn, errorMessage), Str(s)).None? ==> GroupIdPattern(s)
  {
    var r := StrictGroupIdRules(isIn, errorMessage);
    assert r.validate.value(Str(s)) == BotCheck(isIn, errorMessage);
    assert IsGroupId(s) ==> !IsEmptyValue(Str(s));
  }

  /** The anchored pattern turns the text above away with the Group ID
      message. */
  lemma StrictRejectsLetters()
    ensures Check(StrictGroupIdRules(Bool(true), Undefined), Str("-1a")) ==
      Some(FieldError(Pattern, GroupIdMessage))
  {
    assert !IsDigit("-1a"[2]);
    assert !IsEmptyValue(Str("-1a"));
  }
}
