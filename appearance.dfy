/**
 * The appearance form's save action: the four colours go through
 * `_ensureHexColor`, the texts fall back to built-in defaults, and the
 * other settings are left alone.
 */
module Appearance {
  import opened Wrappers
  import opened Strings
  import opened PluginSettings

  /** `_ensureHexColor(?string $value, $default)`: the emptiness test comes before the trim. */
  function EnsureHexColor(value: Option<string>, default: string): string {
    if value.None? || PhpEmpty(value.value) then default
    else
      var h := WithHash(Trim(value.value));
      if IsHexColor(h) then h else default
  }

  /**
   * For every string and default it agrees with the settings model's
   * normalisation, although that one trims before testing for emptiness.
   */
  lemma {:induction false} EnsureAgreesWithNormalize(value: string, default: string)
    ensures EnsureHexColor(Some(value), default) == NormalizeColor(value, default)
  {
    var t := Trim(value);
    if PhpEmpty(value) {
      assert value == "" || value == "0";
      if value == "0" {
        assert !IsPhpTrimChar(value[0]);
        TrimByFixedPoint(value, IsPhpTrimChar);
      }
    } else if PhpEmpty(t) {
      assert !IsHexColor(WithHash(t));
    }
  }

  /** Null or PHP-empty input gives the default; any result is a valid hex colour or the default. */
  lemma {:induction false} EnsureHexColorResult(value: Option<string>, default: string)
    ensures value.None? || PhpEmpty(value.value) ==> EnsureHexColor(value, default) == default
    ensures IsHexColor(EnsureHexColor(value, default)) || EnsureHexColor(value, default) == default
  {
  }

  /** The submitted body parameters; None for a parameter that was not sent. */
  datatype AppearanceForm = AppearanceForm(
    primaryColor: Option<string>, secondaryColor: Option<string>,
    backgroundColor: Option<string>, textColor: Option<string>,
    fontFamily: Option<string>, widgetPosition: Option<string>,
    welcomeMessage: Option<string>, placeholderText: Option<string>,
    customCss: Option<string>, customJs: Option<string>)

  /** `getBodyParam($name) ?: $default`. */
  function OrDefault(v: Option<string>, default: string): string {
    if v.None? || PhpEmpty(v.value) then default else v.value
  }

  /** `getBodyParam($name, $default)`: the default only when the parameter is absent. */
  function Param(v: Option<string>, default: string): string {
    if v.None? then default else v.value
  }

  /** The settings after the assignments of `actionSave`. */
  function Applied(s: Settings, f: AppearanceForm): Settings {
    s.(primaryColor := EnsureHexColor(f.primaryColor, DefaultPrimary),
       secondaryColor := EnsureHexColor(f.secondaryColor, DefaultSecondary),
       backgroundColor := EnsureHexColor(f.backgroundColor, DefaultBackground),
       textColor := EnsureHexColor(f.textColor, DefaultText),
       fontFamily := OrDefault(f.fontFamily, DefaultFont),
       widgetPosition := Param(f.widgetPosition, "bottom-right"),
       welcomeMessage := OrDefault(f.welcomeMessage, DefaultWelcome),
       placeholderText := OrDefault(f.placeholderText, DefaultPlaceholder),
       customCss := Param(f.customCss, ""),
       customJs := Param(f.customJs, ""))
  }

  /**
   * After the save every colour is a valid hex colour, the font, welcome
   * and placeholder texts are never PHP-empty, absent CSS and JS become '',
   * no setting outside the form changes, and the settings model's `init`
   * would leave the result as it is.
   */
  lemma {:induction false} AppliedSettings(s: Settings, f: AppearanceForm)
    ensures var r := Applied(s, f);
      IsHexColor(r.primaryColor) && IsHexColor(r.secondaryColor)
      && IsHexColor(r.backgroundColor) && IsHexColor(r.textColor)
      && !PhpEmpty(r.fontFamily) && !PhpEmpty(r.welcomeMessage) && !PhpEmpty(r.placeholderText)
      && (f.customCss.None? ==> r.customCss == "") && (f.customJs.None? ==> r.customJs == "")
      && (f.widgetPosition.None? ==> r.widgetPosition == "bottom-right")
    ensures var r := Applied(s, f);
      r.(primaryColor := s.primaryColor, secondaryColor := s.secondaryColor,
         backgroundColor := s.backgroundColor, textColor := s.textColor,
         fontFamily := s.fontFamily, widgetPosition := s.widgetPosition,
         welcomeMessage := s.welcomeMessage, placeholderText := s.placeholderText,
         customCss := s.customCss, customJs := s.customJs) == s
    ensures Initialized(Applied(s, f)) == Applied(s, f)
  {
    var r := Applied(s, f);
    DefaultColorsValid();
    EnsureHexColorResult(f.primaryColor, DefaultPrimary);
    EnsureHexColorResult(f.secondaryColor, DefaultSecondary);
    EnsureHexColorResult(f.backgroundColor, DefaultBackground);
    EnsureHexColorResult(f.textColor, DefaultText);
    HexColorIsNormal(r.primaryColor, DefaultPrimary);
    HexColorIsNormal(r.secondaryColor, DefaultSecondary);
    HexColorIsNormal(r.backgroundColor, DefaultBackground);
    HexColorIsNormal(r.textColor, DefaultText);
  }

  /**
   * `actionSave`: assign the fields one by one on the settings model, then
   * hand the settings to Craft (`persist`), whose answer decides success.
   */
  method ActionSave(model: SettingsModel, f: AppearanceForm, persist: Settings -> bool) returns (saved: bool)
    modifies model
    ensures model.values == Applied(old(model.values), f)
    ensures saved == persist(model.values)
  {
    model.values := model.values.(primaryColor := EnsureHexColor(f.primaryColor, DefaultPrimary));
    model.values := model.values.(secondaryColor := EnsureHexColor(f.secondaryColor, DefaultSecondary));
    model.values := model.values.(backgroundColor := EnsureHexColor(f.backgroundColor, DefaultBackground));
    model.values := model.values.(textColor := EnsureHexColor(f.textColor, DefaultText));
    model.values := model.values.(fontFamily := OrDefault(f.fontFamily, DefaultFont));
    model.values := model.values.(widgetPosition := Param(f.widgetPosition, "bottom-right"));
    model.values := model.values.(welcomeMessage := OrDefault(f.welcomeMessage, DefaultWelcome));
    model.values := model.values.(placeholderText := OrDefault(f.placeholderText, DefaultPlaceholder));
    model.values := model.values.(customCss := Param(f.customCss, ""));
    model.values := model.values.(customJs := Param(f.customJs, ""));
    saved := persist(model.values);
  }
}
