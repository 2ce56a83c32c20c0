/** Where `setEffect` takes the effect to apply from: a world item named by an override
    setting, or else the add-on's compendium. */
module EffectSource {
  import opened Documents

  /** The values of the three settings the add-on registers at start-up: the alert choice and
      the two override item ids, which default to the empty string. */
  datatype Settings = Settings(chatMessageAlert: AlertSetting, dimlyLit: string, inDarkness: string)

  /** The string stored for each choice of the alert setting. */
  function AlertName(a: AlertSetting): string
  {
    match a
    case Off => "off"
    case Players => "players"
    case Both => "both"
    case Gm => "gm"
  }

  /** `game.settings.get(moduleID, key)`: the stored value of a registered key; the host
      throws for any key that was never registered. */
  function GetSetting(settings: Settings, key: string): Result<string>
  {
    if key == "chatMessageAlert" then Ok(AlertName(settings.chatMessageAlert))
    else if key == "dimlyLit" then Ok(settings.dimlyLit)
    else if key == "inDarkness" then Ok(settings.inDarkness)
    else Err("not a registered game setting")
  }

  /** The override read in the `try`: it looks the setting up under the effect's own key
      (`dimLight`, `darkness` or `undefined`); a thrown error leaves it undefined, and so does
      an empty string, which is falsy. */
  function OverrideId(settings: Settings, effect: Option<EffectKey>): Option<string>
  {
    match GetSetting(settings, KeyName(effect))
    case Ok(v) => if v != "" then Some(v) else None
    case Err(_) => None
  }

  /** The compendium document id chosen for the effect; bright light leaves it undefined. */
  function CompendiumId(effect: Option<EffectKey>): Option<string>
  {
    match effect
    case Some(key) => Some(if key == DimLight then DimLightEffectId else DarknessEffectId)
    case None => None
  }

  /** `compendium.getDocument(id)`: no document for an undefined id or an id the pack lacks. */
  function GetDocument(compendium: map<string, Item>, id: Option<string>): Option<Item>
  {
    if id.Some? && id.value in compendium then Some(compendium[id.value]) else None
  }

  /** `targetEffect`: the world item the override names when an override is set, otherwise
      the compendium document for the effect. */
  function ResolveTarget(settings: Settings, effect: Option<EffectKey>,
                         worldItems: map<string, Item>, compendium: map<string, Item>): Option<Item>
  {
    match OverrideId(settings, effect)
    case Some(id) => if id in worldItems then Some(worldItems[id]) else None
    case None => GetDocument(compendium, CompendiumId(effect))
  }

  /** The settings are registered as `dimlyLit` and `inDarkness` but read as `dimLight`,
      `darkness` (or `undefined`), so the lookup throws whatever the settings hold and no
      override ever takes effect. */
  lemma OverrideLookupAlwaysFails(settings: Settings, effect: Option<EffectKey>)
    ensures GetSetting(settings, KeyName(effect)).Err?
    ensures OverrideId(settings, effect) == None
  {
  }

  /** The registered override keys do hold the values a user enters. */
  lemma RegisteredOverridesReadable(settings: Settings)
    ensures GetSetting(settings, "dimlyLit") == Ok(settings.dimlyLit)
    ensures GetSetting(settings, "inDarkness") == Ok(settings.inDarkness)
  {
  }

  /** Hence the target always comes from the compendium: the bundled dim-light or darkness
      document when the pack has it, and nothing for bright light. */
  lemma TargetAlwaysFromCompendium(settings: Settings, effect: Option<EffectKey>,
                                   worldItems: map<string, Item>, compendium: map<string, Item>)
    ensures ResolveTarget(settings, effect, worldItems, compendium)
         == match effect
            case None => None
            case Some(DimLight) =>
              if DimLightEffectId in compendium then Some(compendium[DimLightEffectId]) else None
            case Some(Darkness) =>
              if DarknessEffectId in compendium then Some(compendium[DarknessEffectId]) else None
  {
    OverrideLookupAlwaysFails(settings, effect);
  }

  /** Bright light has no target at all. */
  lemma BrightLightHasNoTarget(settings: Settings, worldItems: map<string, Item>,
                               compendium: map<string, Item>)
    ensures ResolveTarget(settings, None, worldItems, compendium) == None
  {
    OverrideLookupAlwaysFails(settings, None);
  }
}
