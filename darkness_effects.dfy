/** `setEffect`: one token's reaction to being created or moved, or to a change of its scene. */
module DarknessEffects {
  import opened Documents
  import opened Seqs
  import opened SceneGate
  import opened Illumination
  import opened EffectSource
  import opened Reconciliation
  import opened Notification

  /** What one call leaves behind: the actor's items, and the chat message it posts. */
  datatype Reaction = Reaction(items: seq<Item>, message: Option<ChatMessage>)

  /** The reaction on values. `viewed` says whether the token's scene is the one on the
      canvas; `sights` is the host's geometry for the lights the quadtree offers. */
  function React(viewed: bool, scene: Scene, token: Token, items: seq<Item>, sights: seq<Sight>,
                 settings: Settings, worldItems: map<string, Item>,
                 compendium: map<string, Item>, users: seq<User>, newId: string): Reaction
  {
    if !viewed then Reaction(items, None)
    else if !CheckLighting(scene) then Reaction(Stripped(items), None)
    else
      var effect := Classify(sights);
      var target := ResolveTarget(settings, effect, worldItems, compendium);
      if AlreadyApplied(items, target) then Reaction(items, None)
      else
        var after := Reconciled(items, target, effect, newId);
        Reaction(after, Message(settings.chatMessageAlert, token.name,
                                TokenHiddenAsWritten(token.hidden, after), effect, users))
  }

  /** Lines of `setEffect` that find the lights on the token and classify them: the quadtree
      query marks every light whose polygon contains the centre, and the outcome is read off
      the marked set. Stale marks on other lights never change the outcome. */
  method Illuminate(candidates: seq<Candidate>) returns (effect: Option<EffectKey>)
    requires DistinctLights(candidates)
    modifies LightsOf(candidates)
    ensures effect == Classify(Sights(candidates))
    ensures forall c :: c in candidates ==>
              c.light.mark == if c.sight.inPolygon then Some(LightMark(c.sight.withinBright))
                              else old(c.light.mark)
  {
    var lights := QueryLights(candidates);
    effect := ClassifyLights(lights);
    MarkedLightsClassifyLikeSights(candidates, lights);
  }

  /** Lines of `setEffect` that bring the actor's flagged effects in line with the target:
      nothing when a flagged effect already has the target's name (`applied`), otherwise
      delete every flagged effect and create the target, if there is one. */
  method ReplaceEffects(actor: Actor, targetEffect: Option<Item>, effect: Option<EffectKey>,
                        newId: string) returns (applied: bool)
    requires actor.Valid()
    requires newId !in IdSet(actor.items)
    modifies actor
    ensures actor.Valid()
    ensures applied == AlreadyApplied(old(actor.items), targetEffect)
    ensures actor.items == Reconciled(old(actor.items), targetEffect, effect, newId)
  {
    var darknessEffects := FlaggedEffects(actor.items);
    if targetEffect.Some? && exists e :: e in darknessEffects && e.name == targetEffect.value.name {
      return true;
    }

    var effectIds := Map(ItemId, darknessEffects);
    ghost var before := actor.items;
    actor.DeleteEmbeddedItems(effectIds);
    FilterSatisfies(NotListed(effectIds), before);

    if targetEffect.Some? {
      var createData := Instantiate(targetEffect.value, effect);
      actor.CreateEmbeddedItem(createData, newId);
    }
    return false;
  }

  /** Lines of `setEffect` that build the chat alert: no message when the setting is `off`,
      otherwise the content built piece by piece and the whisper list filled by pushing
      the chosen user ids. */
  method ComposeAlert(alert: AlertSetting, token: Token, items: seq<Item>,
                      effect: Option<EffectKey>, users: seq<User>)
    returns (message: Option<ChatMessage>)
    ensures message == Message(alert, token.name, TokenHiddenAsWritten(token.hidden, items), effect,
                               users)
    ensures message == Message(alert, token.name, token.hidden, effect, users)
  {
    ConditionsNeverHideAsWritten(token.hidden, items);
    if alert == Off {
      return None;
    }

    var content := token.name + " enters ";
    if effect == Some(DimLight) {
      content := content + "dim light.";
    } else if effect == Some(Darkness) {
      content := content + "darkness.";
    } else {
      content := content + "bright light.";
    }
    assert content == Content(token.name, effect);

    var whisper: seq<string> := [];
    var tokenHidden := TokenHiddenAsWritten(token.hidden, items);
    if alert == Gm || tokenHidden {
      whisper := whisper + GmIds(users);
    } else if alert == Players {
      whisper := whisper + PlayerIds(users);
    }
    assert whisper == Recipients(alert, tokenHidden, users);

    message := Some(ChatMessage(content, whisper));
  }

  /** `setEffect(tokenDoc)` for a token of `actor`, its steps in the source's order: the
      scene test, the gate, the light query and classification, the target lookup, the
      replacement of the flagged effects and the alert. The database assigns `newId` to the
      created item. */
  method SetEffect(viewed: bool, scene: Scene, token: Token, actor: Actor,
                   candidates: seq<Candidate>, settings: Settings,
                   worldItems: map<string, Item>, compendium: map<string, Item>,
                   users: seq<User>, newId: string)
    returns (message: Option<ChatMessage>)
    requires actor.Valid()
    requires DistinctLights(candidates)
    requires newId !in IdSet(actor.items)
    modifies actor, LightsOf(candidates)
    ensures actor.Valid()
    ensures var r := React(viewed, scene, token, old(actor.items), Sights(candidates), settings,
                           worldItems, compendium, users, newId);
            actor.items == r.items && message == r.message
    ensures forall c :: c in candidates ==>
              c.light.mark == if viewed && CheckLighting(scene) && c.sight.inPolygon
                              then Some(LightMark(c.sight.withinBright))
                              else old(c.light.mark)
  {
    if !viewed {
      return None;
    }

    var shouldCheckLighting := CheckLighting(scene);
    if !shouldCheckLighting {
      var darknessEffectIds := FlaggedEffectIds(actor.items);
      actor.DeleteEmbeddedItems(darknessEffectIds);
      return None;
    }

    var effect := Illuminate(candidates);
    var targetEffect := ResolveTarget(settings, effect, worldItems, compendium);

    var applied := ReplaceEffects(actor, targetEffect, effect, newId);
    if applied {
      return None;
    }

    message := ComposeAlert(settings.chatMessageAlert, token, actor.items, effect, users);
  }

  // ---------------------------------------------------------------------------
  // Properties of one reaction

  /** A scene whose lighting is not tracked loses every flagged effect of the token's actor,
      keeps every other item in order, gains nothing, and no message is posted. */
  lemma UntrackedSceneStripsEffects(scene: Scene, token: Token, items: seq<Item>,
                                    sights: seq<Sight>, settings: Settings,
                                    worldItems: map<string, Item>, compendium: map<string, Item>,
                                    users: seq<User>, newId: string)
    requires IdsIdentify(items)
    requires !CheckLighting(scene)
    ensures var r := React(true, scene, token, items, sights, settings, worldItems, compendium,
                           users, newId);
            r.items == Filter(IsKept, items) && FlaggedEffects(r.items) == [] && r.message.None?
  {
    StrippedKeepsExactlyTheOthers(items);
    StrippedHasNoDarknessEffect(items);
  }

  /** The item list stays one whose ids are unique and that holds at most one flagged
      effect. */
  lemma ReactPreservesInvariants(viewed: bool, scene: Scene, token: Token, items: seq<Item>,
                                 sights: seq<Sight>, settings: Settings,
                                 worldItems: map<string, Item>, compendium: map<string, Item>,
                                 users: seq<User>, newId: string)
    requires IdsIdentify(items) && newId !in IdSet(items)
    requires AtMostOneDarknessEffect(items)
    ensures var r := React(viewed, scene, token, items, sights, settings, worldItems, compendium,
                           users, newId);
            IdsIdentify(r.items) && AtMostOneDarknessEffect(r.items)
  {
    if viewed {
      if !CheckLighting(scene) {
        StripIdempotent(items);
        StrippedHasNoDarknessEffect(items);
      } else {
        var effect := Classify(sights);
        var target := ResolveTarget(settings, effect, worldItems, compendium);
        ReconcileKeepsIdsUnique(items, target, effect, newId);
        ReconcilePreservesAtMostOne(items, target, effect, newId);
      }
    }
  }

  /** Running the reaction again with the same scene, lights and settings leaves the items as
      the first run left them, as long as the compendium holds effects. */
  lemma ReactIdempotent(viewed: bool, scene: Scene, token: Token, items: seq<Item>,
                        sights: seq<Sight>, settings: Settings,
                        worldItems: map<string, Item>, compendium: map<string, Item>,
                        users: seq<User>, newId: string, laterId: string)
    requires IdsIdentify(items) && newId !in IdSet(items)
    requires forall k :: k in compendium ==> compendium[k].kind == Effect
    ensures var once := React(viewed, scene, token, items, sights, settings, worldItems,
                              compendium, users, newId).items;
            React(viewed, scene, token, once, sights, settings, worldItems, compendium, users,
                  laterId).items == once
  {
    if viewed {
      if !CheckLighting(scene) {
        StripIdempotent(items);
      } else {
        var effect := Classify(sights);
        var target := ResolveTarget(settings, effect, worldItems, compendium);
        TargetAlwaysFromCompendium(settings, effect, worldItems, compendium);
        ReconcileIdempotent(items, target, effect, newId, laterId);
      }
    }
  }

  /** Nothing is posted when the target effect is already on the actor. */
  lemma NoMessageWhenAlreadyApplied(scene: Scene, token: Token, items: seq<Item>,
                                    sights: seq<Sight>, settings: Settings,
                                    worldItems: map<string, Item>, compendium: map<string, Item>,
                                    users: seq<User>, newId: string)
    requires CheckLighting(scene)
    requires AlreadyApplied(items, ResolveTarget(settings, Classify(sights), worldItems, compendium))
    ensures React(true, scene, token, items, sights, settings, worldItems, compendium, users,
                  newId) == Reaction(items, None)
  {
  }

  /** The reaction in bright light: the flagged effects are deleted, nothing is created, and
      the alert (if on) says "bright light". */
  lemma BrightLightReaction(scene: Scene, token: Token, items: seq<Item>, sights: seq<Sight>,
                            settings: Settings, worldItems: map<string, Item>,
                            compendium: map<string, Item>, users: seq<User>, newId: string)
    requires CheckLighting(scene) && Classify(sights) == None
    ensures React(true, scene, token, items, sights, settings, worldItems, compendium, users, newId)
         == Reaction(Stripped(items), Message(settings.chatMessageAlert, token.name,
                                              TokenHiddenAsWritten(token.hidden, Stripped(items)), None, users))
  {
    BrightLightHasNoTarget(settings, worldItems, compendium);
    assert Stripped(items) + [] == Stripped(items);
  }

  /** In bright light there is no effect to find by name, so every reaction in a tracked scene
      posts "enters bright light." again while the alert is on, even when nothing changes. */
  lemma BrightLightAnnouncedEveryTime(scene: Scene, token: Token, items: seq<Item>,
                                      sights: seq<Sight>, settings: Settings,
                                      worldItems: map<string, Item>,
                                      compendium: map<string, Item>, users: seq<User>,
                                      newId: string)
    requires CheckLighting(scene) && settings.chatMessageAlert != Off
    requires exists i :: 0 <= i < |sights| && sights[i].inPolygon && sights[i].withinBright
    ensures var r := React(true, scene, token, items, sights, settings, worldItems, compendium,
                           users, newId);
            r.message.Some? && r.message.value.content == token.name + " enters " + "bright light."
  {
    BrightIffQualifyingBrightLight(sights);
    BrightLightReaction(scene, token, items, sights, settings, worldItems, compendium, users, newId);
  }

  /** The override settings and the world's items never influence the reaction: only the
      alert choice among the settings matters. */
  lemma OverridesHaveNoEffect(viewed: bool, scene: Scene, token: Token, items: seq<Item>,
                              sights: seq<Sight>, settings: Settings, other: Settings,
                              worldItems: map<string, Item>, otherWorld: map<string, Item>,
                              compendium: map<string, Item>, users: seq<User>, newId: string)
    requires other.chatMessageAlert == settings.chatMessageAlert
    ensures React(viewed, scene, token, items, sights, settings, worldItems, compendium, users,
                  newId)
         == React(viewed, scene, token, items, sights, other, otherWorld, compendium, users,
                  newId)
  {
    var effect := Classify(sights);
    TargetAlwaysFromCompendium(settings, effect, worldItems, compendium);
    TargetAlwaysFromCompendium(other, effect, otherWorld, compendium);
  }
}
