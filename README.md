# pf2e-darkness-effects, modelled in Dafny

This add-on for a tabletop host marks each player character with a status effect for the
light it stands in. The effect is "Dimly Lit", "In Darkness", or nothing for bright light.
This project models the add-on's decision step, `setEffect` in `scripts/main.js`, and the
scene test `checkLighting`. It then proves what that step does to the actor's items, to the
scene's lights, and to the chat.

- `Documents`: the records the step reads and writes. These are items with an id, a type, a
  name and the module flag; users; the scene fields; the token; the alert choices; chat
  messages.
- `SceneGate`: `checkLighting`. A numeric global-light threshold decides on its own.
  Without one, the global-light and token-vision switches decide.
- `Illumination`: the lights on the scene form a class whose `mark` field the add-on writes
  in place. `LightPolygonFilter` is the quadtree's collision test. `QueryLights` runs it
  over every candidate. `ClassifyLights` reads the outcome off the marked set. `Classify`
  states the same outcome on plain values.
- `EffectSource`: the settings lookup and the compendium lookup. The override settings are
  registered as `dimlyLit` and `inDarkness`. They are read back as `dimLight`, `darkness` or
  `undefined`, so the lookup always throws and the target always comes from the compendium.
  The model keeps this behaviour and proves it.
- `Reconciliation`: the actor, as a class over its item list, with the host's delete and
  create operations. It also holds the pure reconciliation step and its properties:
  - only flagged effects are deleted;
  - other items keep their order;
  - at most one flagged effect remains;
  - a second pass changes nothing.
- `Notification`: the message text, the whisper list and the hidden-token test.
- `TokenHooks`: the guard of the `updateToken` hook.
- `DarknessEffects`: `SetEffect` itself, split into its steps (`Illuminate`,
  `ReplaceEffects`, `ComposeAlert`). `React` is the same reaction on values. The lemmas
  about whole reactions are here.
- `Seqs`: `filter` and `map` on sequences, with their lemmas.

Host geometry comes in as two booleans per candidate light: whether the light's polygon
contains the token's centre, and whether the centre is closer than the bright radius.
`viewed` says whether the token's scene is the one shown on the canvas. The database picks
the new item's id, and the model takes it as the parameter `newId`.

Two behaviours of the source are kept and proved rather than corrected:
- No override setting ever takes effect: `OverrideLookupAlwaysFails`, `OverridesHaveNoEffect`.
- In bright light no effect exists to match by name. So every reaction in a tracked scene
  posts "enters bright light." again while alerts are on: `BrightLightAnnouncedEveryTime`.

## Model

| member | source | states |
|---|---|---|
| SceneGate.CheckLighting | scripts/main.js:7-12 | lighting is tracked when a numeric threshold is below the darkness level; without a threshold, when global light is off or token vision is on (its properties: `ThresholdDecides`, `SwitchesDecide`) |
| SceneGate.ThresholdDecides | scripts/main.js:7-10 | with a numeric threshold the result is `darkness > threshold`, whatever the global-light and token-vision switches say |
| SceneGate.SwitchesDecide | scripts/main.js:7-11 | without a numeric threshold the result is true iff global light is off or token vision is on, whatever the darkness level |
| Illumination.LightPolygonFilter | scripts/main.js:101-122 | accepts a light iff its polygon contains the centre; an accepted light is marked with whether the centre lies within its bright radius; a rejected light keeps its old mark |
| Illumination.QueryLights | scripts/main.js:101-123 | returns exactly the set of candidate lights whose polygon contains the centre; each one gets a fresh mark, every other candidate keeps its old mark |
| Illumination.Classify | scripts/main.js:123-127 | the outcome on plain geometry: darkness with no qualifying light, bright light when a qualifying light reaches the centre with its bright radius, dim light otherwise (its properties: the three `...Iff...` lemmas) |
| Illumination.ClassifyLights | scripts/main.js:123-127 | the same outcome read off the set of marked lights (tied to `Classify` by `MarkedLightsClassifyLikeSights`) |
| Illumination.DarknessIffNoQualifyingLight | scripts/main.js:123-126 | darkness iff no candidate's polygon contains the centre |
| Illumination.BrightIffQualifyingBrightLight | scripts/main.js:112-127 | no effect (bright light) iff some light whose polygon contains the centre also has the centre within its bright radius |
| Illumination.DimIffLitButNotBright | scripts/main.js:125-127 | dim light iff some light qualifies and no qualifying light is bright at the centre |
| Illumination.NonQualifyingLightIgnored | scripts/main.js:104-121 | a light whose polygon misses the centre does not affect the outcome, however close the token is to it |
| Illumination.NoQualifyingLightIff | scripts/main.js:123-126 | the query returns an empty set iff no candidate's polygon contains the centre |
| Illumination.BrightMarkIff | scripts/main.js:114-127 | after the query, some found light is marked as brightly lighting iff some candidate's polygon contains the centre and its bright radius reaches it |
| Illumination.MarkedLightsClassifyLikeSights | scripts/main.js:114-127 | after the query, classifying the marked lights gives the same outcome as classifying the geometry; stale marks from earlier calls never leak in |
| EffectSource.GetSetting | scripts/main.js:131-133 | `game.settings.get`: the registered keys read their values, any other key is an error (its properties: `RegisteredOverridesReadable`, `OverrideLookupAlwaysFails`) |
| EffectSource.OverrideId | scripts/main.js:130-135 | the override id under the effect's key, absent when the lookup throws or the value is empty (always absent: `OverrideLookupAlwaysFails`) |
| EffectSource.ResolveTarget | scripts/main.js:130-141 | the override item when an override id is set and found, else the compendium's bundled document for the outcome, nothing for bright light (always the compendium path: `TargetAlwaysFromCompendium`) |
| EffectSource.OverrideLookupAlwaysFails | scripts/main.js:130-133 | the override lookup under the effect's key always throws, so no override id is ever read |
| EffectSource.RegisteredOverridesReadable | scripts/main.js:30-46 | the registered keys `dimlyLit` and `inDarkness` do hold the values the user entered |
| EffectSource.TargetAlwaysFromCompendium | scripts/main.js:130-141 | the target is the compendium's dim-light or darkness document when the pack has it, and nothing for bright light |
| EffectSource.BrightLightHasNoTarget | scripts/main.js:137-140 | bright light resolves to no target |
| Reconciliation.Actor.DeleteEmbeddedItems | scripts/main.js:149 | the actor keeps exactly the items whose ids are not listed, in order, and ids stay unique |
| Reconciliation.Actor.CreateEmbeddedItem | scripts/main.js:152-157 | the data is appended under the fresh id, and ids stay unique |
| Reconciliation.Stripped | scripts/main.js:95-96 | the items left after deleting every flagged effect by id (its properties: `StrippedKeepsExactlyTheOthers`, `StrippedHasNoDarknessEffect`, `StripIdempotent`) |
| Reconciliation.Reconciled | scripts/main.js:143-158 | the items unchanged when the target is already applied, otherwise the stripped items plus the target under the outcome's flag (its properties: `AppliedLeavesItemsAlone`, `ReplacementState`, `ReconcileIdempotent`) |
| Reconciliation.StrippedKeepsExactlyTheOthers | scripts/main.js:144-149 | deleting by the flagged effects' ids leaves exactly the items that are not flagged effects, in their order |
| Reconciliation.StrippedHasNoDarknessEffect | scripts/main.js:95-96 | after the deletion no flagged effect remains |
| Reconciliation.AppliedLeavesItemsAlone | scripts/main.js:144-145 | when a flagged effect already has the target's name, the item list is unchanged |
| Reconciliation.ReplacementState | scripts/main.js:147-158 | otherwise the new list is the unflagged items in order plus at most one new item, which carries the outcome's flag and the new id; at most one flagged effect remains |
| Reconciliation.ReconcilePreservesAtMostOne | scripts/main.js:143-158 | "at most one flagged effect" is kept by every reconciliation, including the early return |
| Reconciliation.ReconcileKeepsIdsUnique | scripts/main.js:147-158 | with a fresh new id the item ids stay unique |
| Reconciliation.StripIdempotent | scripts/main.js:95-96 | deleting the flagged effects twice is the same as deleting them once |
| Reconciliation.ReconcileIdempotent | scripts/main.js:143-158 | reconciling again with the same target changes nothing, when the target is an effect |
| Notification.Content | scripts/main.js:164-167 | `<name> enters ` followed by the outcome's words (its properties: `ContentRoundTrip`, `ContentDistinguishesOutcomes`) |
| Notification.ContentRoundTrip | scripts/main.js:164-167 | the content `<name> enters <words>` can be read back to the outcome that produced it |
| Notification.ContentDistinguishesOutcomes | scripts/main.js:164-167 | two outcomes give the same content for a token iff they are the same outcome |
| Notification.Recipients | scripts/main.js:169-172 | game masters when the setting is `gm` or the token is hidden, players when it is `players`, nobody otherwise (its properties: `WhisperToGameMasters`, `WhisperToPlayers`, `BothIsPublic`) |
| Notification.SelectedIds | scripts/main.js:171-172 | the filtered-then-mapped ids are exactly the ids of the users that satisfy the filter |
| Notification.WhisperToGameMasters | scripts/main.js:169-171 | with setting `gm`, or a hidden token, the whisper list holds exactly the game masters' ids |
| Notification.WhisperToPlayers | scripts/main.js:172 | with setting `players` on a visible token, the whisper list holds exactly the players' ids |
| Notification.BothIsPublic | scripts/main.js:169-172 | with setting `both` on a visible token, the whisper list is empty |
| Notification.UsersSplitIntoGmsAndPlayers | scripts/main.js:171-172 | the game-master ids and the player ids together are, as a multiset, exactly the users' ids, so every user is counted once |
| Notification.TokenHiddenAsWritten | scripts/main.js:170 | the hidden test as written: the token's flag, or a condition document strictly equal to the string "Concealed" or "Hidden" (`ConditionsNeverHideAsWritten`: only the flag counts) |
| Notification.ConditionsNeverHideAsWritten | scripts/main.js:170 | as written, the condition test never hides a token; only the token's own hidden flag counts |
| Notification.HiddenConditionIgnoredAsWritten | scripts/main.js:170 | a visible token whose actor has the Hidden condition is treated as visible as written, and as hidden by the corrected test |
| Notification.TokenHidden | scripts/main.js:170 | the corrected hidden test: the token's flag, or a condition named Concealed or Hidden (characterised by `TokenHiddenByCondition`) |
| Notification.TokenHiddenByCondition | scripts/main.js:170 | corrected test: a token is hidden iff it is hidden itself or its actor has a condition named Concealed or Hidden |
| Notification.Message | scripts/main.js:161-177 | no message iff the setting is `off`; otherwise the content reads back to the outcome, and the whisper list is the recipients rule |
| TokenHooks.HandlesTokenUpdate | scripts/main.js:79-80 | the hook proceeds iff the diff has `x` or `y` and the current user made the update (characterised by `UpdateGuard`) |
| TokenHooks.UpdateGuard | scripts/main.js:78-80 | the update is handled iff its diff has `x` or `y` and this user made it; so an update without `x` or `y`, or one made by another user, is ignored; a move made by this user is handled whatever else changed |
| DarknessEffects.React | scripts/main.js:86-178 | the reaction on values: unchanged when the scene is not viewed; every flagged effect stripped and no message when lighting is untracked; otherwise the classified outcome's target reconciled and the alert composed with the hidden test as written (tied to `SetEffect` by its ensures) |
| DarknessEffects.Illuminate | scripts/main.js:99-127 | the outcome equals the classification of the geometry; the accepted lights are freshly marked and the others keep their marks |
| DarknessEffects.ReplaceEffects | scripts/main.js:143-158 | reports whether the target was already applied, and leaves the actor's items as the reconciliation step prescribes, with ids unique |
| DarknessEffects.ComposeAlert | scripts/main.js:160-177 | the message built with `+=` and `push` is exactly the alert rule's message with the hidden test as written, which is the message for the token's own hidden flag |
| DarknessEffects.SetEffect | scripts/main.js:86-178 | the actor's new items and the posted message are those of the reaction on values; ids stay unique; lights are marked only when the scene is viewed and tracked |
| DarknessEffects.UntrackedSceneStripsEffects | scripts/main.js:92-97 | in a scene whose lighting is not tracked, every flagged effect is removed, the other items keep their order, nothing is created and nothing is posted |
| DarknessEffects.ReactPreservesInvariants | scripts/main.js:86-158 | every reaction keeps ids unique and at most one flagged effect |
| DarknessEffects.ReactIdempotent | scripts/main.js:86-158 | reacting twice to the same scene, lights and settings leaves the items as the first reaction did, when the compendium holds effects |
| DarknessEffects.NoMessageWhenAlreadyApplied | scripts/main.js:144-145 | when the target is already on the actor, nothing changes and nothing is posted |
| DarknessEffects.BrightLightReaction | scripts/main.js:125-177 | in bright light in a tracked scene, every flagged effect is deleted, nothing is created, and the alert rule's message for bright light is posted, whispered by the hidden test as written |
| DarknessEffects.BrightLightAnnouncedEveryTime | scripts/main.js:125-167 | in bright light in a tracked scene, with alerts on, every reaction posts "<name> enters bright light.", whatever the items |
| DarknessEffects.OverridesHaveNoEffect | scripts/main.js:129-141 | the override settings and the world's items never change the reaction |

## Findings

| source | as written | input that shows it | evidently intended | confidence | as-written member | corrected member |
|---|---|---|---|---|---|---|
| scripts/main.js:170 | `actor.itemTypes.condition.includes('Concealed')` (and `'Hidden'`) compares condition documents with a string using strict equality, which never holds | a visible token whose actor has a condition item named "Hidden", with the alert set to `players`: the message goes to the players | a token whose actor is Concealed or Hidden is treated as hidden, so the alert is whispered to the game masters | medium, not executed | Notification.HiddenConditionIgnoredAsWritten | Notification.TokenHiddenByCondition |

`Notification.TokenHiddenAsWritten` models the test as written, and `React`, `ComposeAlert`
and `SetEffect` use it, so the modelled reaction whispers by the token's own hidden flag only.
`Notification.TokenHidden` is the corrected test; `TokenHiddenByCondition` characterises it.

## Left out

- Hook registration and dispatch are left out because they are host event plumbing. This
  covers `Hooks.once('init')`, the `updateScene` and `createToken` hooks, the deferred
  `canvasReady` re-registration, and the `updateTokens` loop over the scene's tokens. Each
  iteration of that loop is one `SetEffect` call. Only the `updateToken` guard is modelled.
- The `game.settings.register` declarations are left out. The `Settings` datatype holds the
  values they declare.
- Host geometry is not computed. This covers `getCenter`, `tokenDoc.bounds`, the lighting
  quadtree's spatial search, `los.contains` and the `Math.sqrt` distance. The results come
  in as two booleans per candidate, and the candidates are the lights the quadtree offers.
- Floating point is not modelled. Darkness and the threshold are reals, so a NaN threshold
  is not modelled.
- Asynchronous host calls are modelled only by their effect on the item list and the
  returned message record. These are `deleteEmbeddedDocuments`, `createEmbeddedDocuments`,
  `compendium.getDocument`, `game.items.get` and `ChatMessage.create`. The `await`
  sequencing is not modelled, nor any change other clients make in between.
- A missing compendium pack is not modelled. There, `game.packs.get` returns undefined and
  `getDocument` throws. The pack is an input map here.
- Item data other than id, type, name and the module flag is not modelled. Any truthy
  module flag on an existing item stands as `Some` of a key.
- `console.log` (the unused `logg` helper) is left out.
- DarknessEffects.ReactIdempotent holds only when the target is an effect. So it assumes
  that every compendium document is an effect, which the bundled pack's are. An override
  item of another type could be appended again on each move, but no override is ever read.
