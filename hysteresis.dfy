/**
 * Hysteresis between consecutive polls: what the anti-flap fix of the loader
 * guarantees for the poll that follows a scaling decision, and where it stops.
 */
module Hysteresis {
  import opened Numerics
  import opened Configuration
  import opened Decision
  import opened DecisionProperties

  /**
   * After an upscale by a whole-number step (current * factor an integer),
   * the next poll, with the same allocated count, finds a fraction of at least
   * the previous fraction divided by the factor, hence above the down
   * trigger, and does not shrink the fleet.
   */
  lemma AntiFlapAfterUpscale(cfg: Config, req: Request, step: int, after: Request)
    requires WithinGuards(cfg) && Normalised(cfg)
    requires ModeOf(cfg, req) == UtilisationThreshold
    requires req.replicas > 0 && req.allocatedReplicas >= 0
    requires Fraction(req) > cfg.upperThreshold
    requires req.replicas as real * cfg.scaleFactor == step as real
    requires after == req.(replicas := after.replicas)
    requires after.replicas == UpscaleTarget(cfg, req.replicas)
    ensures Decide(cfg, req) == Respond(Response(true, after.replicas))
    ensures after.replicas > 0 && Fraction(after) > cfg.lowerThreshold
    ensures Fraction(after) >= Fraction(req) / cfg.scaleFactor
    ensures Decide(cfg, after).Respond? && Decide(cfg, after).response.replicas >= after.replicas
  {
    WholeStepUpscale(cfg, req, step);
    var a := req.allocatedReplicas as real;
    var c := req.replicas as real;
    FractionAfterUpscale(a, c, cfg.scaleFactor, cfg.upperThreshold, after.replicas as real);
    assert ModeOf(cfg, after) == UtilisationThreshold;
    NoShrinkAboveLower(cfg, after);
  }

  /** An upscale by a whole-number step goes to that step, capped at the maximum. */
  lemma WholeStepUpscale(cfg: Config, req: Request, step: int)
    requires cfg.scaleFactor > 1.0 && ModeOf(cfg, req) == UtilisationThreshold
    requires req.replicas > 0 && Fraction(req) > cfg.upperThreshold
    requires req.replicas as real * cfg.scaleFactor == step as real
    ensures UpscaleTarget(cfg, req.replicas) == CapAtMax(cfg.maxReplicas, step)
    ensures 0 < UpscaleTarget(cfg, req.replicas) <= step
    ensures Decide(cfg, req) == Respond(Response(true, UpscaleTarget(cfg, req.replicas)))
  {
    CeilOfWhole(step);
    assert Ceil(req.replicas as real * cfg.scaleFactor) == step;
    CeilOfGrowth(req.replicas, cfg.scaleFactor);
    assert step > req.replicas > 0;
    ThresholdMode(cfg, req);
  }

  /**
   * In the threshold mode, a fraction above the down trigger never shrinks a
   * fleet that is within its maximum.
   */
  lemma NoShrinkAboveLower(cfg: Config, req: Request)
    requires cfg.scaleFactor > 1.0 && ModeOf(cfg, req) == UtilisationThreshold
    requires req.replicas > 0 && Fraction(req) >= cfg.lowerThreshold
    requires cfg.maxReplicas > 0 ==> req.replicas <= cfg.maxReplicas
    ensures Decide(cfg, req).Respond? && Decide(cfg, req).response.replicas >= req.replicas
  {
    ThresholdMode(cfg, req);
    CeilOfGrowth(req.replicas, cfg.scaleFactor);
  }

  /** a / next >= a / (c * f) == (a / c) / f > u / f */
  lemma FractionAfterUpscale(a: real, c: real, f: real, u: real, next: real)
    requires a >= 0.0 && c > 0.0 && f > 0.0 && a / c > u
    requires 0.0 < next <= c * f
    ensures a / next >= (a / c) / f
    ensures a / next > u / f
  {
    DivideByLarger(a, next, c * f);
    DivideTwice(a, c, f);
    DivideMonotone(u, a / c, f);
  }

  /**
   * After a downscale, the next poll with the same allocated count does not
   * grow the fleet again. When the maximum did not cut the downscale, the
   * next fraction is even below the up trigger.
   */
  lemma AntiFlapAfterDownscale(cfg: Config, req: Request, after: Request)
    requires WithinGuards(cfg) && Normalised(cfg)
    requires ModeOf(cfg, req) == UtilisationThreshold
    requires req.allocatedReplicas >= 0
    requires req.replicas > cfg.minReplicas
    requires req.replicas != 0 && Fraction(req) < cfg.lowerThreshold
    requires after == req.(replicas := after.replicas)
    requires after.replicas == CapAtMax(cfg.maxReplicas, DownscaleTarget(cfg, req.replicas))
    ensures Decide(cfg, req) == Respond(Response(true, after.replicas))
    ensures after.replicas > 0
    ensures after.replicas == DownscaleTarget(cfg, req.replicas) ==> Fraction(after) < cfg.upperThreshold
    ensures Decide(cfg, after).Respond? && Decide(cfg, after).response.replicas <= after.replicas
  {
    var m := DownscaleTarget(cfg, req.replicas);
    assert m >= 1 by {
      assert req.replicas as real / cfg.scaleFactor > 0.0;
    }
    LowerBelowUpper(cfg);
    ThresholdMode(cfg, req);
    var next := after.replicas;
    if next == m {
      FractionAfterDownscale(req.allocatedReplicas as real, req.replicas as real, cfg.scaleFactor,
        cfg.lowerThreshold, cfg.upperThreshold, m as real);
    }
    assert ModeOf(cfg, after) == UtilisationThreshold;
    NoGrowthWithinBounds(cfg, after);
  }

  /** a / m <= a / (c / f) == (a / c) * f < l * f < u */
  lemma FractionAfterDownscale(a: real, c: real, f: real, l: real, u: real, m: real)
    requires a >= 0.0 && c > 0.0 && f > 0.0 && a / c < l && l < u / f
    requires c / f <= m
    ensures a / m < u
  {
    DivideByLarger(a, c / f, m);
    DivideByQuotient(a, c, f);
    MultiplyMonotone(a / c, l, f);
    assert u / f * f == u;
    MultiplyMonotone(l, u / f, f);
  }

  /**
   * In the threshold mode, a fleet whose fraction is at most the up trigger,
   * or that already stands at the maximum, does not grow.
   */
  lemma NoGrowthWithinBounds(cfg: Config, req: Request)
    requires cfg.scaleFactor > 1.0 && ModeOf(cfg, req) == UtilisationThreshold
    requires req.replicas > 0
    requires Fraction(req) <= cfg.upperThreshold || req.replicas == cfg.maxReplicas > 0
    ensures Decide(cfg, req).Respond? && Decide(cfg, req).response.replicas <= req.replicas
  {
    ThresholdMode(cfg, req);
    CeilOfShrink(req.replicas, cfg.scaleFactor);
  }

  /**
   * Without the whole-number step the guarantee fails: normalised settings
   * under which 3 replicas scale up to 5 and the next poll scales down to 4.
   */
  lemma FlapAfterRoundedUpscale()
    ensures var cfg := Config(1.5, 0.66, 0.43, 2, 0, false);
      var req := Request(3, 2, Absent, map[]);
      && WithinGuards(cfg) && Normalised(cfg)
      && Decide(cfg, req) == Respond(Response(true, 5))
      && Decide(cfg, req.(replicas := 5)) == Respond(Response(true, 4))
  {
    CeilUnique(3.0 * 1.5, 5);
    CeilUnique(5.0 / 1.5, 4);
  }

  /**
   * The downscale is not raised to the minimum: normalised settings with a
   * minimum of 2 under which 3 replicas scale down to 1.
   */
  lemma DownscaleBelowMinimum()
    ensures var cfg := Config(4.0, 0.7, 0.1, 2, 0, false);
      var req := Request(3, 0, Absent, map[]);
      && WithinGuards(cfg) && Normalised(cfg)
      && Decide(cfg, req) == Respond(Response(true, 1))
      && 1 < cfg.minReplicas
  {
    CeilUnique(3.0 / 4.0, 1);
  }
}
