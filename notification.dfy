/** The chat alert `setEffect` posts after changing a token's effects: its text, and who it
    is whispered to. */
module Notification {
  import opened Documents
  import opened Seqs

  // ---------------------------------------------------------------------------
  // Content

  /** The words appended for each outcome. */
  function Suffix(effect: Option<EffectKey>): string
  {
    match effect
    case Some(DimLight) => "dim light."
    case Some(Darkness) => "darkness."
    case None => "bright light."
  }

  /** `${tokenDoc.name} enters ` followed by the outcome's words. */
  function Content(name: string, effect: Option<EffectKey>): string
  {
    name + " enters " + Suffix(effect)
  }

  /** Reads the outcome back from a message about the named token, when the content has the
      shape `Content` produces. */
  function OutcomeOfContent(name: string, content: string): Option<Option<EffectKey>>
  {
    var prefix := name + " enters ";
    if |content| < |prefix| || content[..|prefix|] != prefix then None
    else
      var rest := content[|prefix|..];
      if rest == "dim light." then Some(Some(DimLight))
      else if rest == "darkness." then Some(Some(Darkness))
      else if rest == "bright light." then Some(None)
      else None
  }

  /** The content names the outcome unambiguously: it can be read back. */
  lemma ContentRoundTrip(name: string, effect: Option<EffectKey>)
    ensures OutcomeOfContent(name, Content(name, effect)) == Some(effect)
  {
    var prefix := name + " enters ";
    var content := Content(name, effect);
    assert content == prefix + Suffix(effect);
    assert content[..|prefix|] == prefix;
    assert content[|prefix|..] == Suffix(effect);
  }

  /** Different outcomes give different messages for the same token. */
  lemma ContentDistinguishesOutcomes(name: string, e1: Option<EffectKey>, e2: Option<EffectKey>)
    ensures Content(name, e1) == Content(name, e2) <==> e1 == e2
  {
    ContentRoundTrip(name, e1);
    ContentRoundTrip(name, e2);
  }

  // ---------------------------------------------------------------------------
  // Recipients

  function UserId(u: User): string
  {
    u.id
  }

  predicate IsGM(u: User)
  {
    u.isGM
  }

  predicate IsPlayer(u: User)
  {
    !u.isGM
  }

  /** `game.users.filter(u => u.isGM).map(u => u.id)`. */
  function GmIds(users: seq<User>): seq<string>
  {
    Map(UserId, Filter(IsGM, users))
  }

  /** `game.users.filter(u => !u.isGM).map(u => u.id)`. */
  function PlayerIds(users: seq<User>): seq<string>
  {
    Map(UserId, Filter(IsPlayer, users))
  }

  /** The `whisper` list: the game masters when the setting is `gm` or the token is hidden,
      the players when it is `players`, and nobody (a public message) otherwise. */
  function Recipients(alert: AlertSetting, hidden: bool, users: seq<User>): seq<string>
  {
    if alert == Gm || hidden then GmIds(users)
    else if alert == Players then PlayerIds(users)
    else []
  }

  /** Exactly the ids of users satisfying `p`, taken from `Map(UserId, Filter(p, users))`. */
  lemma SelectedIds(p: User -> bool, users: seq<User>, id: string)
    ensures id in Map(UserId, Filter(p, users)) <==> exists u :: u in users && p(u) && u.id == id
  {
    var chosen := Filter(p, users);
    if id in Map(UserId, chosen) {
      var k :| 0 <= k < |chosen| && Map(UserId, chosen)[k] == id;
      FilterMembership(p, users, chosen[k]);
    }
    if exists u :: u in users && p(u) && u.id == id {
      var u :| u in users && p(u) && u.id == id;
      FilterMembership(p, users, u);
      var k :| 0 <= k < |chosen| && chosen[k] == u;
      assert Map(UserId, chosen)[k] == id;
    }
  }

  /** Setting `gm`, or a hidden token, whispers to exactly the game masters. */
  lemma WhisperToGameMasters(alert: AlertSetting, hidden: bool, users: seq<User>, id: string)
    requires alert == Gm || hidden
    ensures id in Recipients(alert, hidden, users) <==> exists u :: u in users && u.isGM && u.id == id
  {
    SelectedIds(IsGM, users, id);
  }

  /** Setting `players` on a visible token whispers to exactly the players. */
  lemma WhisperToPlayers(hidden: bool, users: seq<User>, id: string)
    requires !hidden
    ensures id in Recipients(Players, hidden, users) <==> exists u :: u in users && !u.isGM && u.id == id
  {
    SelectedIds(IsPlayer, users, id);
  }

  /** Setting `both` on a visible token whispers to nobody: everyone sees the message. */
  lemma BothIsPublic(users: seq<User>)
    ensures Recipients(Both, false, users) == []
  {
  }

  /** Every user is either a game master or a player, never both: the two id lists together
      hold each user's id exactly as often as the user list does. */
  lemma {:induction false} UsersSplitIntoGmsAndPlayers(users: seq<User>)
    ensures multiset(GmIds(users)) + multiset(PlayerIds(users)) == multiset(Map(UserId, users))
    ensures |GmIds(users)| + |PlayerIds(users)| == |users|
  {
    FilterPartition(IsGM, IsPlayer, users);
    if users != [] {
      var init := users[..|users| - 1];
      var u := users[|users| - 1];
      UsersSplitIntoGmsAndPlayers(init);
      assert users == init + [u];
      MapAppend(UserId, init, [u]);
      if u.isGM {
        MapAppend(UserId, Filter(IsGM, init), [u]);
      } else {
        MapAppend(UserId, Filter(IsPlayer, init), [u]);
      }
    }
  }

  // ---------------------------------------------------------------------------
  // Hidden tokens

  /** A JavaScript value in an array, as far as `Array.prototype.includes` can tell them
      apart: a string, or a document object. */
  datatype JsValue = JsString(s: string) | JsDocument(item: Item)

  function AsDocument(e: Item): JsValue
  {
    JsDocument(e)
  }

  predicate IsCondition(e: Item)
  {
    e.kind == Condition
  }

  /** `actor.itemTypes.condition`: the actor's condition items, as the documents they are. */
  function ConditionDocuments(items: seq<Item>): seq<JsValue>
  {
    Map(AsDocument, Filter(IsCondition, items))
  }

  /** `tokenHidden` as written: `includes` compares each condition document with the string
      by strict equality. */
  function TokenHiddenAsWritten(hidden: bool, items: seq<Item>): bool
  {
    hidden
    || JsString("Concealed") in ConditionDocuments(items)
    || JsString("Hidden") in ConditionDocuments(items)
  }

  /** A document never equals a string, so as written the conditions never hide a token:
      only the token's own `hidden` flag counts. */
  lemma ConditionsNeverHideAsWritten(hidden: bool, items: seq<Item>)
    ensures TokenHiddenAsWritten(hidden, items) == hidden
  {
    var docs := ConditionDocuments(items);
    assert forall v :: v in docs ==> v.JsDocument?;
  }

  /** A visible token whose actor has the Hidden condition, which the code as written treats
      as visible. */
  lemma HiddenConditionIgnoredAsWritten()
    ensures var items := [Item("hidden-condition", Condition, "Hidden", None)];
            !TokenHiddenAsWritten(false, items) && TokenHidden(false, items)
  {
    var items := [Item("hidden-condition", Condition, "Hidden", None)];
    ConditionsNeverHideAsWritten(false, items);
    TokenHiddenByCondition(false, items);
    assert items[0] in items;
  }

  /** `tokenHidden` as evidently intended: the token is hidden, or its actor has the
      Concealed or Hidden condition. */
  predicate TokenHidden(hidden: bool, items: seq<Item>)
  {
    hidden || exists c :: c in Filter(IsCondition, items) && (c.name == "Concealed" || c.name == "Hidden")
  }

  /** The corrected test hides a token exactly when the token is hidden or one of its
      actor's condition items is named Concealed or Hidden. */
  lemma TokenHiddenByCondition(hidden: bool, items: seq<Item>)
    ensures TokenHidden(hidden, items)
        <==> hidden || exists e :: e in items && e.kind == Condition
                                  && (e.name == "Concealed" || e.name == "Hidden")
  {
    FilterSatisfies(IsCondition, items);
    if exists e :: e in items && e.kind == Condition && (e.name == "Concealed" || e.name == "Hidden") {
      var e :| e in items && e.kind == Condition && (e.name == "Concealed" || e.name == "Hidden");
      FilterMembership(IsCondition, items, e);
    }
  }

  // ---------------------------------------------------------------------------
  // The message

  /** The alert posted for an outcome: none when the setting is `off`; otherwise a message
      whose content names the token and the outcome, whispered to `Recipients`. */
  function Message(alert: AlertSetting, name: string, hidden: bool, effect: Option<EffectKey>,
                   users: seq<User>): (m: Option<ChatMessage>)
    ensures m.None? <==> alert == Off
    ensures m.Some? ==> OutcomeOfContent(name, m.value.content) == Some(effect)
    ensures m.Some? ==> m.value.whisper == Recipients(alert, hidden, users)
  {
    ContentRoundTrip(name, effect);
    if alert == Off then None
    else Some(ChatMessage(Content(name, effect), Recipients(alert, hidden, users)))
  }
}
