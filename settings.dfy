/**
 * The plugin's settings model: its fields with their default values, the
 * colour normalisation `init` applies to the four colour fields, and the
 * validation rules as a predicate.
 *
 * A colour is valid when it is `#` followed by exactly six hexadecimal
 * digits, the six-digit hex notation of CSS Color Module Level 4,
 * section 5.2.
 */
module PluginSettings {
  import opened Strings

  datatype Settings = Settings(
    // General
    enabled: bool,
    aiProvider: string,
    apiKey: string,
    openaiModel: string,
    anthropicModel: string,
    embeddingModel: string,
    maxTokens: int,
    temperature: real,
    agentName: string,
    agentPersona: string,
    // Appearance
    primaryColor: string,
    secondaryColor: string,
    backgroundColor: string,
    textColor: string,
    fontFamily: string,
    widgetPosition: string,
    welcomeMessage: string,
    placeholderText: string,
    customCss: string,
    customJs: string,
    // Restrictions
    allowedTopics: string,
    disallowedTopics: string,
    fallbackMessage: string,
    errorMessage: string,
    maxMessagesPerConversation: int,
    rateLimitPerMinute: int,
    // Escalation
    escalationEnabled: bool,
    escalationSensitivity: string,
    escalationMessage: string,
    escalationFieldName: bool,
    escalationFieldEmail: bool,
    escalationFieldPhone: bool,
    escalationCustomQuestions: string,
    escalationConfirmation: string,
    // Business information (read by get_business_info)
    businessName: string,
    businessDescription: string,
    businessContact: string,
    businessHours: string,
    businessExtra: string)

  const DefaultPrimary := "#2563eb"
  const DefaultSecondary := "#f3f4f6"
  const DefaultBackground := "#ffffff"
  const DefaultText := "#1f2937"
  const DefaultFont := "-apple-system, BlinkMacSystemFont, \"Segoe UI\", Roboto, sans-serif"
  const DefaultWelcome := "Hello! How can I help you today?"
  const DefaultPlaceholder := "Type your message..."

  /** The declared default of every field. */
  const Defaults := Settings(
    false, "openai", "", "gpt-4o-mini", "claude-3-5-sonnet-latest", "text-embedding-3-small", 1024, 0.7,
    "AI Assistant",
    "You are a helpful assistant. Answer questions clearly and concisely based on the provided context.",
    DefaultPrimary, DefaultSecondary, DefaultBackground, DefaultText, DefaultFont, "bottom-right",
    DefaultWelcome, DefaultPlaceholder, "", "",
    "", "",
    "I'm sorry, I can only help with topics related to this website. Is there anything else I can assist you with?",
    "I'm sorry, something went wrong. Please try again later.",
    50, 10,
    true, "medium",
    "Let me connect you with a team member. Please share your contact details so we can follow up.",
    true, true, false, "",
    "Thank you! A team member will reach out to you shortly.",
    "", "", "", "", "")

  // ---------------------------------------------------------------------------
  // Colours

  predicate IsHexDigit(c: char) {
    ('0' <= c <= '9') || ('a' <= c <= 'f') || ('A' <= c <= 'F')
  }

  /**
   * `preg_match('/^#[0-9a-fA-F]{6}$/', $s)` on a string with no trailing
   * newline (the callers test trimmed strings, so `$` matching before a final
   * newline never comes into play).
   */
  predicate IsHexColor(s: string) {
    |s| == 7 && s[0] == '#' && forall i :: 1 <= i < 7 ==> IsHexDigit(s[i])
  }

  /** `'#'` in front unless the string already starts with one. */
  function WithHash(s: string): string {
    if StartsWith(s, "#") then s else "#" + s
  }

  /** `_normalizeColor`: trim, default when PHP-empty, add the '#', keep only a valid hex colour. */
  function NormalizeColor(value: string, default: string): string {
    var v := Trim(value);
    if PhpEmpty(v) then default
    else
      var h := WithHash(v);
      if IsHexColor(h) then h else default
  }

  /** The result is a valid hex colour or the default. */
  lemma {:induction false} NormalizeColorResult(value: string, default: string)
    ensures IsHexColor(NormalizeColor(value, default)) || NormalizeColor(value, default) == default
    ensures PhpEmpty(Trim(value)) ==> NormalizeColor(value, default) == default
  {
  }

  /** Six hex digits, with or without their '#' and surrounding blanks, come back with the '#'. */
  lemma {:induction false} NormalizeColorAddsHash(value: string, default: string)
    requires IsHexColor(WithHash(Trim(value))) && !PhpEmpty(Trim(value))
    ensures NormalizeColor(value, default) == WithHash(Trim(value))
    ensures StartsWith(Trim(value), "#") ==> NormalizeColor(value, default) == Trim(value)
    ensures !StartsWith(Trim(value), "#") ==> NormalizeColor(value, default) == "#" + Trim(value)
  {
  }

  /** A hex colour is its own normal form. */
  lemma {:induction false} HexColorIsNormal(value: string, default: string)
    requires IsHexColor(value)
    ensures NormalizeColor(value, default) == value
  {
    assert !IsPhpTrimChar(value[0]) && !IsPhpTrimChar(value[6]);
    TrimByFixedPoint(value, IsPhpTrimChar);
    assert StartsWith(value, "#");
  }

  /** Normalising twice with a valid default gives what normalising once gives. */
  lemma {:induction false} NormalizeColorIdempotent(value: string, default: string)
    requires IsHexColor(default)
    ensures NormalizeColor(NormalizeColor(value, default), default) == NormalizeColor(value, default)
  {
    NormalizeColorResult(value, default);
    HexColorIsNormal(NormalizeColor(value, default), default);
  }

  /** `init`: normalise the four colour fields against their defaults; nothing else changes. */
  function Initialized(s: Settings): Settings {
    s.(primaryColor := NormalizeColor(s.primaryColor, DefaultPrimary),
       secondaryColor := NormalizeColor(s.secondaryColor, DefaultSecondary),
       backgroundColor := NormalizeColor(s.backgroundColor, DefaultBackground),
       textColor := NormalizeColor(s.textColor, DefaultText))
  }

  /** The default colours are valid hex colours. */
  lemma {:induction false} DefaultColorsValid()
    ensures IsHexColor(DefaultPrimary) && IsHexColor(DefaultSecondary)
    ensures IsHexColor(DefaultBackground) && IsHexColor(DefaultText)
  {
  }

  /**
   * After `init` every colour field is a valid hex colour, the other fields
   * are as they were, and running `init` again changes nothing.
   */
  lemma {:induction false} InitializedColors(s: Settings)
    ensures IsHexColor(Initialized(s).primaryColor) && IsHexColor(Initialized(s).secondaryColor)
    ensures IsHexColor(Initialized(s).backgroundColor) && IsHexColor(Initialized(s).textColor)
    ensures Initialized(s).(primaryColor := s.primaryColor, secondaryColor := s.secondaryColor,
                            backgroundColor := s.backgroundColor, textColor := s.textColor) == s
    ensures Initialized(Initialized(s)) == Initialized(s)
  {
    DefaultColorsValid();
    NormalizeColorResult(s.primaryColor, DefaultPrimary);
    NormalizeColorResult(s.secondaryColor, DefaultSecondary);
    NormalizeColorResult(s.backgroundColor, DefaultBackground);
    NormalizeColorResult(s.textColor, DefaultText);
    NormalizeColorIdempotent(s.primaryColor, DefaultPrimary);
    NormalizeColorIdempotent(s.secondaryColor, DefaultSecondary);
    NormalizeColorIdempotent(s.backgroundColor, DefaultBackground);
    NormalizeColorIdempotent(s.textColor, DefaultText);
  }

  // ---------------------------------------------------------------------------
  // Validation rules

  /** Yii's `required` validator: not empty once trimmed. */
  predicate Required(s: string) {
    Trim(s) != ""
  }

  /** `defineRules`: every rule holds. */
  predicate ValidSettings(s: Settings) {
    && s.escalationSensitivity in {"low", "medium", "high"}
    && s.aiProvider in {"openai", "anthropic"}
    && s.widgetPosition in {"bottom-right", "bottom-left"}
    && 100 <= s.maxTokens <= 8192
    && 0.0 <= s.temperature <= 2.0
    && 1 <= s.maxMessagesPerConversation <= 200
    && 1 <= s.rateLimitPerMinute <= 60
    && Required(s.agentName) && Required(s.primaryColor) && Required(s.welcomeMessage)
    && Required(s.fallbackMessage) && Required(s.errorMessage)
  }

  /** A string that ends with a character trim keeps is required-valid. */
  lemma {:induction false} RequiredByLast(s: string)
    requires s != [] && !IsPhpTrimChar(s[|s| - 1])
    ensures Required(s)
  {
    TrimByLastKept(s, IsPhpTrimChar);
  }

  /** The declared defaults satisfy every rule, and `init` leaves them as they are. */
  lemma {:induction false} DefaultsValid()
    ensures ValidSettings(Defaults)
    ensures Initialized(Defaults) == Defaults
  {
    RequiredByLast(Defaults.agentName);
    RequiredByLast(Defaults.primaryColor);
    RequiredByLast(Defaults.welcomeMessage);
    RequiredByLast(Defaults.fallbackMessage);
    RequiredByLast(Defaults.errorMessage);
    DefaultColorsValid();
    HexColorIsNormal(DefaultPrimary, DefaultPrimary);
    HexColorIsNormal(DefaultSecondary, DefaultSecondary);
    HexColorIsNormal(DefaultBackground, DefaultBackground);
    HexColorIsNormal(DefaultText, DefaultText);
  }

  /** The settings model object; `init` runs once its fields are loaded. */
  class SettingsModel {
    var values: Settings

    constructor (loaded: Settings)
      ensures values == Initialized(loaded)
    {
      values := loaded;
      new;
      Init();
    }

    method Init()
      modifies this
      ensures values == Initialized(old(values))
    {
      values := values.(primaryColor := NormalizeColor(values.primaryColor, DefaultPrimary));
      values := values.(secondaryColor := NormalizeColor(values.secondaryColor, DefaultSecondary));
      values := values.(backgroundColor := NormalizeColor(values.backgroundColor, DefaultBackground));
      values := values.(textColor := NormalizeColor(values.textColor, DefaultText));
    }
  }
}
