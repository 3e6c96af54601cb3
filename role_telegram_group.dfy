/** The Telegram section of the role form: the group-ID field
    `tgPlatformId` is checked only while the chosen platform is Telegram,
    and the bot button reads "Guildxyz". The bot lookup is a parameter as
    in the create-guild form. */
module RoleTelegramGroup {
  import opened Wrappers
  import opened Js
  import opened FormRules
  import opened TelegramGroup

  const Telegram: Value := Str("TELEGRAM")

  /** `platform !== "TELEGRAM" || isIn || errorMessage`. */
  function RoleBotCheck(platform: Value, isIn: Value, errorMessage: Value): (r: Value)
    ensures platform != Telegram ==> r == Bool(true)
    ensures platform == Telegram ==> r == BotCheck(isIn, errorMessage)
  {
    Or(Bool(platform != Telegram), Or(isIn, errorMessage))
  }

  /** The rules on `tgPlatformId`: `required` is the message on Telegram
      and `false` (no rule) otherwise; no pattern. */
  function TgRules(platform: Value, isIn: Value, errorMessage: Value): (r: Rules)
    ensures r.required.Some? <==> platform == Telegram
    ensures r.required.Some? ==> r.required.value == RequiredMessage
    ensures r.max.None? && r.min.None? && r.pattern.None?
    ensures r.validate.Some? && forall v :: r.validate.value(v) == RoleBotCheck(platform, isIn, errorMessage)
  {
    Rules(if platform == Telegram then Some(RequiredMessage) else None, None, None, None,
          Some(_ => RoleBotCheck(platform, isIn, errorMessage)))
  }

  /** The effect on the lookup's answer: only the validation trigger. */
  function RoleBotEffect(isIn: Value, errorMessage: Value): (e: seq<Step>)
    ensures e == [] || e == [TriggerValidation]
  {
    if Truthy(isIn) && !Truthy(errorMessage) then [TriggerValidation] else []
  }

  function RoleButton(isIn: Value, isLoading: bool): (b: BotButton)
    ensures b.AddBot? <==> !Truthy(isIn)
    ensures b.AddBot? ==> b.href == BotInviteUrl && b.disabled == isLoading
  {
    ButtonWith(isIn, isLoading, "Add Guildxyz bot", "Guildxyz bot added")
  }

  // -----------------------------------------------------------------------
  // Properties

  /** With another platform chosen the field never has an error. */
  lemma OtherPlatformPasses(platform: Value, isIn: Value, errorMessage: Value, v: Value)
    requires platform != Telegram
    ensures Check(TgRules(platform, isIn, errorMessage), v).None?
  {
    assert TgRules(platform, isIn, errorMessage).validate.value(v) == Bool(true);
  }

  /** On Telegram the field needs a value and then passes exactly when the
      create-guild form's bot check passes; no text is rejected for its
      shape. */
  lemma TelegramIff(isIn: Value, errorMessage: Value, v: Value)
    ensures var e := Check(TgRules(Telegram, isIn, errorMessage), v);
      && (e.None? <==> !IsEmptyValue(v) && ValidateError(BotCheck(isIn, errorMessage)).None?)
      && (IsEmptyValue(v) ==> e == Some(FieldError(Required, RequiredMessage)))
      && (!IsEmptyValue(v) && e.Some? ==>
            e.value.rule == Validate && Some(e.value.message) == ValidateError(BotCheck(isIn, errorMessage)))
  {
    assert TgRules(Telegram, isIn, errorMessage).validate.value(v) == BotCheck(isIn, errorMessage);
  }

  /** The role form triggers validation under the same condition as the
      create-guild form, and does nothing else. */
  lemma SameTrigger(isIn: Value, errorMessage: Value)
    ensures TriggerValidation in RoleBotEffect(isIn, errorMessage) <==>
      TriggerValidation in BotEffect(isIn, errorMessage)
    ensures forall i :: 0 <= i < |RoleBotEffect(isIn, errorMessage)| ==>
      RoleBotEffect(isIn, errorMessage)[i] == TriggerValidation
  {
    BotEffectIff(isIn, errorMessage);
  }

  /** The button differs from the create-guild one only in its captions. */
  lemma ButtonMatches(isIn: Value, isLoading: bool)
    ensures RoleButton(isIn, isLoading).AddBot? == Button(isIn, isLoading).AddBot?
    ensures RoleButton(isIn, isLoading).disabled == Button(isIn, isLoading).disabled
    ensures RoleButton(isIn, isLoading).caption == (if Truthy(isIn) then "Guildxyz bot added" else "Add Guildxyz bot")
  {
  }
}
