/** The illumination classifier of `setEffect`: which lights reach the token's centre, and
    whether the token stands in darkness, dim light or bright light. */
module Illumination {
  import opened Documents
  import opened Seqs

  /** The host's geometry for one candidate light, measured from the token's centre: whether
      the light's line-of-sight polygon contains the centre, and whether the centre is
      strictly closer to the light than its bright radius. */
  datatype Sight = Sight(inPolygon: bool, withinBright: bool)

  /** The record `lightPolygonFilter` stores on a light under the module's key. */
  datatype LightMark = LightMark(brightlyLighting: bool)

  /** A light placed on the scene. The add-on writes `light[moduleID]` on it in place;
      the mark survives from one call to the next. */
  class Light {
    var mark: Option<LightMark>

    constructor (mark0: Option<LightMark>)
      ensures mark == mark0
    {
      mark := mark0;
    }
  }

  /** A light the lighting quadtree offers because its bounds meet the token's bounds,
      with the host's geometry for it. */
  datatype Candidate = Candidate(light: Light, sight: Sight)

  function SightOf(c: Candidate): Sight
  {
    c.sight
  }

  function Sights(cands: seq<Candidate>): seq<Sight>
  {
    Map(SightOf, cands)
  }

  function LightsOf(cands: seq<Candidate>): set<Light>
  {
    set c | c in cands :: c.light
  }

  /** The quadtree holds each light once. */
  predicate DistinctLights(cands: seq<Candidate>)
  {
    forall i, j :: 0 <= i < j < |cands| ==> cands[i].light != cands[j].light
  }

  /** A light counts only when its polygon contains the token's centre. */
  predicate Qualifies(s: Sight)
  {
    s.inPolygon
  }

  /** The set the quadtree query returns: the candidates the filter accepts. */
  function QualifyingLights(cands: seq<Candidate>): set<Light>
  {
    set c | c in cands && c.sight.inPolygon :: c.light
  }

  // ---------------------------------------------------------------------------
  // The classification on values

  /** The outcome for a token, from the geometry of the candidate lights: no qualifying light
      gives darkness; a qualifying light whose bright radius reaches the centre gives bright
      light (no effect); otherwise dim light. */
  function Classify(sights: seq<Sight>): Option<EffectKey>
  {
    var lit := Filter(Qualifies, sights);
    if |lit| == 0 then Some(Darkness)
    else if exists s :: s in lit && s.withinBright then None
    else Some(DimLight)
  }

  /** Darkness exactly when no candidate's polygon contains the centre. */
  lemma DarknessIffNoQualifyingLight(sights: seq<Sight>)
    ensures Classify(sights) == Some(Darkness)
        <==> forall i :: 0 <= i < |sights| ==> !sights[i].inPolygon
  {
    var lit := Filter(Qualifies, sights);
    if |lit| == 0 {
      forall i | 0 <= i < |sights| ensures !sights[i].inPolygon {
        FilterMembership(Qualifies, sights, sights[i]);
      }
    } else {
      FilterMembership(Qualifies, sights, lit[0]);
    }
  }

  /** Bright light (no effect) exactly when some qualifying light's bright radius reaches
      the centre. */
  lemma BrightIffQualifyingBrightLight(sights: seq<Sight>)
    ensures Classify(sights) == None
        <==> exists i :: 0 <= i < |sights| && sights[i].inPolygon && sights[i].withinBright
  {
    var lit := Filter(Qualifies, sights);
    if exists s :: s in lit && s.withinBright {
      var s :| s in lit && s.withinBright;
      FilterMembership(Qualifies, sights, s);
    }
    if exists i :: 0 <= i < |sights| && sights[i].inPolygon && sights[i].withinBright {
      var i :| 0 <= i < |sights| && sights[i].inPolygon && sights[i].withinBright;
      FilterMembership(Qualifies, sights, sights[i]);
    }
  }

  /** Dim light exactly when some candidate qualifies and no qualifying one reaches the
      centre with its bright radius. */
  lemma DimIffLitButNotBright(sights: seq<Sight>)
    ensures Classify(sights) == Some(DimLight)
        <==> (exists i :: 0 <= i < |sights| && sights[i].inPolygon)
             && (forall i :: 0 <= i < |sights| && sights[i].inPolygon ==> !sights[i].withinBright)
  {
    DarknessIffNoQualifyingLight(sights);
    BrightIffQualifyingBrightLight(sights);
  }

  /** A light whose polygon misses the centre does not count, however close it is. */
  lemma NonQualifyingLightIgnored(sights: seq<Sight>, k: nat, withinBright: bool)
    requires k < |sights| && !sights[k].inPolygon
    ensures Classify(sights[k := Sight(false, withinBright)]) == Classify(sights)
  {
    var other := sights[k := Sight(false, withinBright)];
    DarknessIffNoQualifyingLight(sights);
    DarknessIffNoQualifyingLight(other);
    BrightIffQualifyingBrightLight(sights);
    BrightIffQualifyingBrightLight(other);
    assert forall i :: 0 <= i < |sights| ==>
      (other[i].inPolygon == sights[i].inPolygon && (other[i].inPolygon ==> other[i] == sights[i]));
  }

  // ---------------------------------------------------------------------------
  // The classification on the marked lights

  /** `l[moduleID]?.brightlyLighting`: true only when a mark is present and says so. */
  predicate BrightlyLighting(l: Light)
    reads l
  {
    l.mark.Some? && l.mark.value.brightlyLighting
  }

  /** `setEffect` classifies the set the query returned: empty means darkness, any light
      marked as brightly lighting means bright light (the effect stays undefined), and
      otherwise dim light. */
  function ClassifyLights(lights: set<Light>): Option<EffectKey>
    reads lights
  {
    if |lights| == 0 then Some(Darkness)
    else if exists l :: l in lights && BrightlyLighting(l) then None
    else Some(DimLight)
  }

  /** `lightPolygonFilter`, the collision test run on each candidate: it accepts the light
      when its polygon contains the centre, and then marks the light with whether the centre
      lies within its bright radius; a rejected light is left as it was. */
  method LightPolygonFilter(c: Candidate) returns (keep: bool)
    modifies c.light
    ensures keep == c.sight.inPolygon
    ensures keep ==> c.light.mark == Some(LightMark(c.sight.withinBright))
    ensures !keep ==> c.light.mark == old(c.light.mark)
  {
    if c.sight.inPolygon {
      c.light.mark := Some(LightMark(c.sight.withinBright));
      return true;
    }
    return false;
  }

  /** The quadtree query with `lightPolygonFilter` as its collision test: it runs the test on
      every candidate in turn, returns the set of accepted lights, and leaves a fresh mark on
      each accepted light and the old mark on each rejected one. */
  method QueryLights(cands: seq<Candidate>) returns (lights: set<Light>)
    requires DistinctLights(cands)
    modifies LightsOf(cands)
    ensures lights == QualifyingLights(cands)
    ensures forall c :: c in cands && c.sight.inPolygon
              ==> c.light.mark == Some(LightMark(c.sight.withinBright))
    ensures forall c :: c in cands && !c.sight.inPolygon ==> c.light.mark == old(c.light.mark)
  {
    lights := {};
    var i := 0;
    while i < |cands|
      invariant 0 <= i <= |cands|
      invariant lights == QualifyingLights(cands[..i])
      invariant forall j :: 0 <= j < i && cands[j].sight.inPolygon
                  ==> cands[j].light.mark == Some(LightMark(cands[j].sight.withinBright))
      invariant forall j :: 0 <= j < |cands| && (i <= j || !cands[j].sight.inPolygon)
                  ==> cands[j].light.mark == old(cands[j].light.mark)
    {
      var keep := LightPolygonFilter(cands[i]);
      if keep {
        lights := lights + {cands[i].light};
      }
      assert cands[..i + 1] == cands[..i] + [cands[i]];
      i := i + 1;
    }
    assert cands[..i] == cands;
  }

  /** The query finds no light exactly when no candidate's polygon contains the centre. */
  lemma NoQualifyingLightIff(cands: seq<Candidate>)
    ensures |QualifyingLights(cands)| == 0
        <==> forall i :: 0 <= i < |cands| ==> !cands[i].sight.inPolygon
  {
    var lights := QualifyingLights(cands);
    if exists i :: 0 <= i < |cands| && cands[i].sight.inPolygon {
      var i :| 0 <= i < |cands| && cands[i].sight.inPolygon;
      assert cands[i] in cands && cands[i].light in lights;
    } else {
      assert forall c :: c in cands ==> !c.sight.inPolygon;
      assert lights == {};
    }
  }

  /** After the query, some found light is marked as brightly lighting exactly when some
      candidate's polygon contains the centre and its bright radius reaches it. */
  lemma BrightMarkIff(cands: seq<Candidate>, lights: set<Light>)
    requires lights == QualifyingLights(cands)
    requires forall c :: c in cands && c.sight.inPolygon
               ==> c.light.mark == Some(LightMark(c.sight.withinBright))
    ensures (exists l :: l in lights && BrightlyLighting(l))
        <==> exists i :: 0 <= i < |cands| && cands[i].sight.inPolygon && cands[i].sight.withinBright
  {
    if exists l :: l in lights && BrightlyLighting(l) {
      var l :| l in lights && BrightlyLighting(l);
      var c :| c in cands && c.sight.inPolygon && c.light == l;
      var j :| 0 <= j < |cands| && cands[j] == c;
      assert cands[j].sight.inPolygon && cands[j].sight.withinBright;
    }
    if exists i :: 0 <= i < |cands| && cands[i].sight.inPolygon && cands[i].sight.withinBright {
      var i :| 0 <= i < |cands| && cands[i].sight.inPolygon && cands[i].sight.withinBright;
      assert cands[i] in cands;
      assert cands[i].light in lights && BrightlyLighting(cands[i].light);
    }
  }

  /** Classifying the marked lights after the query agrees with classifying the geometry:
      marks left on lights by earlier calls never leak into the outcome. */
  lemma MarkedLightsClassifyLikeSights(cands: seq<Candidate>, lights: set<Light>)
    requires lights == QualifyingLights(cands)
    requires forall c :: c in cands && c.sight.inPolygon
               ==> c.light.mark == Some(LightMark(c.sight.withinBright))
    ensures ClassifyLights(lights) == Classify(Sights(cands))
  {
    var sights := Sights(cands);
    assert forall i :: 0 <= i < |cands| ==> sights[i] == cands[i].sight;
    DarknessIffNoQualifyingLight(sights);
    BrightIffQualifyingBrightLight(sights);
    NoQualifyingLightIff(cands);
    BrightMarkIff(cands, lights);
  }
}
