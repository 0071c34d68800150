/**
 * What the scaling decision promises: mode precedence, the result of each
 * mode, the bounds it keeps, and the hysteresis between consecutive polls.
 */
module DecisionProperties {
  import opened Numerics
  import opened Configuration
  import opened Decision

  // ---------------------------------------------------------------------
  // Real arithmetic used by the hysteresis proofs.

  lemma DivideMonotone(x: real, y: real, f: real)
    requires x < y && f > 0.0
    ensures x / f < y / f
  {
  }

  lemma MultiplyMonotone(x: real, y: real, f: real)
    requires x < y && f > 0.0
    ensures x * f < y * f
  {
  }

  lemma DivideTwice(a: real, c: real, f: real)
    requires c != 0.0 && f != 0.0
    ensures a / (c * f) == (a / c) / f
  {
  }

  lemma DivideByQuotient(a: real, c: real, f: real)
    requires c != 0.0 && f != 0.0
    ensures a / (c / f) == (a / c) * f
  {
  }

  // ---------------------------------------------------------------------
  // The fixed-replicas override.

  /** A request is rejected exactly when the override is on and the annotation is bad. */
  lemma OverrideRejection(cfg: Config, req: Request)
    requires cfg.scaleFactor != 0.0
    ensures Decide(cfg, req) == Reject(NotAnInteger) <==>
              cfg.fixedOverride && req.fixedReplicas.Unparsable?
    ensures Decide(cfg, req) == Reject(NegativeReplicas) <==>
              cfg.fixedOverride && req.fixedReplicas.Requested? && req.fixedReplicas.n < 0
    ensures Decide(cfg, req).Reject? <==>
              cfg.fixedOverride
              && (req.fixedReplicas.Unparsable? || (req.fixedReplicas.Requested? && req.fixedReplicas.n < 0))
  {
  }

  /**
   * A usable annotation always scales, even to the current count, to the
   * requested count capped at the maximum.
   */
  lemma OverrideTarget(cfg: Config, req: Request)
    requires cfg.scaleFactor != 0.0 && cfg.fixedOverride
    requires req.fixedReplicas.Requested? && req.fixedReplicas.n >= 0
    ensures Decide(cfg, req) == Respond(Response(true, CapAtMax(cfg.maxReplicas, req.fixedReplicas.n)))
  {
  }

  /** With the override on and no annotation, only the final clamp can act. */
  lemma OverrideWithoutAnnotation(cfg: Config, req: Request)
    requires cfg.scaleFactor != 0.0 && cfg.fixedOverride
    requires req.fixedReplicas.Absent?
    ensures Decide(cfg, req) ==
      if cfg.maxReplicas > 0 && req.replicas > cfg.maxReplicas
      then Respond(Response(true, cfg.maxReplicas))
      else Respond(Response(false, req.replicas))
  {
  }

  /**
   * With the override on, neither the capacity mode nor the thresholds are
   * consulted: the decision depends on the annotation and the maximum alone
   * (and on the current count when there is no annotation).
   */
  lemma OverrideIgnoresFleet(c1: Config, c2: Config, r1: Request, r2: Request)
    requires c1.scaleFactor != 0.0 && c2.scaleFactor != 0.0
    requires c1.fixedOverride && c2.fixedOverride && c1.maxReplicas == c2.maxReplicas
    requires r1.fixedReplicas == r2.fixedReplicas
    requires r1.fixedReplicas.Absent? ==> r1.replicas == r2.replicas
    ensures Decide(c1, r1) == Decide(c2, r2)
  {
  }

  // ---------------------------------------------------------------------
  // No replicas.

  /** With the override off and no replicas, nothing scales. */
  lemma IdleFleet(cfg: Config, req: Request)
    requires cfg.scaleFactor != 0.0 && !cfg.fixedOverride && req.replicas == 0
    ensures Decide(cfg, req) == Respond(Response(false, 0))
  {
  }

  // ---------------------------------------------------------------------
  // The capacity counter.

  /** A usable "rooms" counter decides alone; it scales exactly when the target differs. */
  lemma CapacityMode(cfg: Config, req: Request)
    requires cfg.scaleFactor != 0.0 && !cfg.fixedOverride
    requires req.replicas > 0 && RoomsKey in req.counters && req.counters[RoomsKey].capacity > 0
    ensures var target := CapacityTarget(cfg.minReplicas, cfg.maxReplicas, cfg.scaleFactor, req.counters[RoomsKey]);
      Decide(cfg, req) == Respond(Response(target != req.replicas, target))
  {
  }

  /** The capacity target lies within [min, max] for normalised settings. */
  lemma CapacityWithinBounds(cfg: Config, req: Request)
    requires cfg.scaleFactor != 0.0 && !cfg.fixedOverride
    requires cfg.maxReplicas > 0 ==> cfg.minReplicas <= cfg.maxReplicas
    requires req.replicas > 0 && RoomsKey in req.counters && req.counters[RoomsKey].capacity > 0
    ensures Decide(cfg, req).Respond?
    ensures cfg.minReplicas <= Decide(cfg, req).response.replicas
    ensures cfg.maxReplicas > 0 ==> Decide(cfg, req).response.replicas <= cfg.maxReplicas
  {
    CapacityMode(cfg, req);
  }

  /**
   * Unless a maximum cuts it down, the capacity target has room for every
   * counted room at five per replica.
   */
  lemma CapacityCoversRooms(lo: int, f: real, room: Counter)
    requires lo >= 0 && f >= 1.0
    ensures CapacityTarget(lo, 0, f, room) as real * CapacityPerReplica >= room.count as real
  {
    var base := RoomsBase(room);
    assert base as real * CapacityPerReplica >= room.count as real;
    var desired := Clamp(lo, 0, base);
    assert desired >= base && desired >= 0;
    ScaleUp(desired as real, f);
    var raw := CapacityRaw(lo, 0, f, room);
    assert raw >= desired && raw >= lo;
    assert CapacityTarget(lo, 0, f, room) == raw;
  }

  /**
   * The capacity mode reads neither the thresholds nor the allocated count
   * nor any other counter.
   */
  lemma CapacityIgnoresThresholds(c1: Config, c2: Config, r1: Request, r2: Request)
    requires c1.scaleFactor != 0.0 && !c1.fixedOverride && !c2.fixedOverride
    requires c1.scaleFactor == c2.scaleFactor
    requires c1.minReplicas == c2.minReplicas && c1.maxReplicas == c2.maxReplicas
    requires r1.replicas == r2.replicas && r1.replicas > 0
    requires RoomsKey in r1.counters && RoomsKey in r2.counters
    requires r1.counters[RoomsKey] == r2.counters[RoomsKey] && r1.counters[RoomsKey].capacity > 0
    ensures Decide(c1, r1) == Decide(c2, r2)
  {
    CapacityMode(c1, r1);
    CapacityMode(c2, r2);
  }

  // ---------------------------------------------------------------------
  // The thresholds.

  /** The three outcomes of the threshold mode, each followed by the final clamp. */
  lemma ThresholdMode(cfg: Config, req: Request)
    requires cfg.scaleFactor != 0.0 && !cfg.fixedOverride && req.replicas != 0
    requires !(req.replicas > 0 && RoomsKey in req.counters && req.counters[RoomsKey].capacity > 0)
    ensures Fraction(req) > cfg.upperThreshold ==>
      Decide(cfg, req) == Respond(Response(true, CapAtMax(cfg.maxReplicas, Ceil(req.replicas as real * cfg.scaleFactor))))
    ensures Fraction(req) <= cfg.upperThreshold && Fraction(req) < cfg.lowerThreshold
            && req.replicas > cfg.minReplicas ==>
      Decide(cfg, req) == Respond(FinalClamp(cfg, Response(true, Ceil(req.replicas as real / cfg.scaleFactor))))
    ensures Fraction(req) <= cfg.upperThreshold
            && !(Fraction(req) < cfg.lowerThreshold && req.replicas > cfg.minReplicas) ==>
      Decide(cfg, req) == Respond(FinalClamp(cfg, Response(false, req.replicas)))
  {
  }

  /** Between the two thresholds, and within the maximum, nothing changes. */
  lemma NoOpStability(cfg: Config, req: Request)
    requires cfg.scaleFactor != 0.0 && !cfg.fixedOverride && req.replicas != 0
    requires !(req.replicas > 0 && RoomsKey in req.counters && req.counters[RoomsKey].capacity > 0)
    requires cfg.lowerThreshold <= Fraction(req) <= cfg.upperThreshold
    requires cfg.maxReplicas <= 0 || req.replicas <= cfg.maxReplicas
    ensures Decide(cfg, req) == Respond(Response(false, req.replicas))
  {
  }

  /** An upscale grows the fleet, unless the maximum stops it. */
  lemma UpscaleGrows(cfg: Config, req: Request)
    requires cfg.scaleFactor > 1.0 && ModeOf(cfg, req) == UtilisationThreshold
    requires req.replicas > 0 && Fraction(req) > cfg.upperThreshold
    ensures Decide(cfg, req).Respond? && Decide(cfg, req).response.scale
    ensures var r := Decide(cfg, req).response.replicas;
      r > req.replicas || r == cfg.maxReplicas
  {
    var c: int := req.replicas;
    var up := Ceil(c as real * cfg.scaleFactor);
    CeilOfGrowth(c, cfg.scaleFactor);
    ThresholdMode(cfg, req);
    assert Decide(cfg, req) == Respond(Response(true, CapAtMax(cfg.maxReplicas, up)));
  }

  /**
   * A downscale keeps at least one replica and never grows the fleet; unless
   * the maximum cuts it, the new count times the factor covers the old count.
   * It is not raised to the minimum.
   */
  lemma DownscaleBounds(cfg: Config, req: Request)
    requires cfg.scaleFactor > 1.0 && ModeOf(cfg, req) == UtilisationThreshold
    requires req.replicas > 0 && req.replicas > cfg.minReplicas
    requires Fraction(req) <= cfg.upperThreshold && Fraction(req) < cfg.lowerThreshold
    ensures Decide(cfg, req).Respond? && Decide(cfg, req).response.scale
    ensures var r := Decide(cfg, req).response.replicas;
      && 1 <= r <= req.replicas
      && (r == DownscaleTarget(cfg, req.replicas) ==> r as real * cfg.scaleFactor >= req.replicas as real)
  {
    ThresholdMode(cfg, req);
    CeilOfShrink(req.replicas, cfg.scaleFactor);
  }
}
