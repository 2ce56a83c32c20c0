/** `checkLighting`: whether a scene's lighting is tracked at all. */
module SceneGate {
  import opened Documents

  /** With a numeric global-illumination threshold, lighting is tracked when the scene is
      darker than the threshold; without one, when global illumination is off or token vision
      is on. */
  function CheckLighting(scene: Scene): bool
  {
    match scene.globalLightThreshold
    case Some(threshold) => scene.darkness > threshold
    case None => !scene.globalLight || scene.tokenVision
  }

  /** With a numeric threshold only the darkness level decides; the global-light and
      token-vision switches are ignored. */
  lemma ThresholdDecides(scene: Scene, globalLight: bool, tokenVision: bool)
    requires scene.globalLightThreshold.Some?
    ensures CheckLighting(scene) == (scene.darkness > scene.globalLightThreshold.value)
    ensures CheckLighting(scene.(globalLight := globalLight, tokenVision := tokenVision))
         == CheckLighting(scene)
  {
  }

  /** Without a numeric threshold the darkness level is ignored, and lighting is tracked
      exactly when global illumination is off or token vision is on. */
  lemma SwitchesDecide(scene: Scene, darkness: real)
    requires scene.globalLightThreshold.None?
    ensures CheckLighting(scene) <==> !scene.globalLight || scene.tokenVision
    ensures CheckLighting(scene.(darkness := darkness)) == CheckLighting(scene)
  {
  }
}
