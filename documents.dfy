/** The host documents the add-on reads and writes, reduced to the fields it uses. */
module Documents {

  datatype Option<+T> = None | Some(value: T)

  datatype Result<+T> = Ok(value: T) | Err(error: string)

  /** Document ids of the two bundled effects in the add-on's compendium. */
  const DimLightEffectId: string := "1JYStHqExNLfpRxl"
  const DarknessEffectId: string := "uxlkHZ3L0VYLRfne"

  /** The value of `effect` in `setEffect`: `'dimLight'`, `'darkness'`, or undefined
      (`None`), which stands for bright light. */
  datatype EffectKey = DimLight | Darkness

  /** The string a JavaScript property key or template literal makes of `effect`. */
  function KeyName(effect: Option<EffectKey>): string
  {
    match effect
    case Some(DimLight) => "dimLight"
    case Some(Darkness) => "darkness"
    case None => "undefined"
  }

  /** The item type; `actor.itemTypes.effect` and `actor.itemTypes.condition` select by it. */
  datatype ItemType = Effect | Condition | OtherType

  /** An item embedded in an actor (or in a compendium or the world's item directory).
      `flag` is `flags[moduleID]`, the add-on's own flag: `Some(k)` for the object `{ [k]: true }` the add-on
      writes, `None` when the item carries no flag of this module. */
  datatype Item = Item(id: string, kind: ItemType, name: string, flag: Option<string>)

  /** `e.flags[moduleID]` is truthy on an effect: the item is one of the add-on's own. */
  predicate IsDarknessEffect(e: Item)
  {
    e.kind == Effect && e.flag.Some?
  }

  /** An item `setEffect` never deletes. */
  predicate IsKept(e: Item)
  {
    !IsDarknessEffect(e)
  }

  function ItemId(e: Item): string
  {
    e.id
  }

  /** The ids of a list of items, as a set. */
  function IdSet(items: seq<Item>): (ids: set<string>)
    ensures forall e :: e in items ==> e.id in ids
  {
    set e | e in items :: e.id
  }

  /** The database keeps embedded ids unique: an id names at most one item of the actor. */
  ghost predicate IdsIdentify(items: seq<Item>)
  {
    forall x, y :: x in items && y in items && x.id == y.id ==> x == y
  }

  /** A user of the game; `isGM` is true for game masters. */
  datatype User = User(id: string, isGM: bool)

  /** The scene fields `checkLighting` reads. `globalLightThreshold` is `Some` when it holds a
      number and `None` when it is null or unset. */
  datatype Scene = Scene(tokenVision: bool, globalLight: bool, darkness: real,
                         globalLightThreshold: Option<real>)

  /** The token fields `setEffect` reads besides its position. */
  datatype Token = Token(name: string, hidden: bool)

  /** The choices of the `chatMessageAlert` setting. */
  datatype AlertSetting = Off | Players | Both | Gm

  /** A chat message: its HTML content and the ids of the users it is whispered to
      (empty: visible to everyone). */
  datatype ChatMessage = ChatMessage(content: string, whisper: seq<string>)
}
