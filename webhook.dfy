/**
 * The webhook process state: the package-level policy variables, the start-up
 * loader that reassigns them in order, and the autoscale handler that reads
 * them and overwrites the response fields branch by branch.
 */
module Webhook {
  import opened Wrappers
  import opened Numerics
  import opened Configuration
  import opened Decision

  class Autoscaler {
    var scaleFactor: real
    var upperThreshold: real
    var lowerThreshold: real
    var minReplicas: Int32
    var maxReplicas: Int32
    var fixedOverride: bool

    /** The current values of the policy variables. */
    function Snapshot(): Config
      reads this
    {
      Config(scaleFactor, upperThreshold, lowerThreshold, minReplicas, maxReplicas, fixedOverride)
    }

    /** Every range guard keeps this; the compiled-in values satisfy it. */
    predicate Valid()
      reads this
    {
      WithinGuards(Snapshot())
    }

    /** The variables start at their compiled-in values. */
    constructor ()
      ensures Snapshot() == Defaults && Valid()
    {
      scaleFactor := 2.0;
      upperThreshold := 0.7;
      lowerThreshold := 0.3;
      minReplicas := 2;
      maxReplicas := 0;
      fixedOverride := false;
    }

    /**
     * Read the environment, one variable at a time, then apply the two fixes.
     * A malformed value stops the loader (the process exits) with the
     * variables as far as they were updated.
     */
    method ReadEnvironment(env: Environment) returns (failure: Option<Setting>)
      requires Valid()
      modifies this
      ensures Valid()
      ensures Snapshot() == Load(old(Snapshot()), env).settings
      ensures failure == Load(old(Snapshot()), env).failure
      ensures failure == None ==> Normalised(Snapshot())
    {
      ghost var start := Snapshot();
      if env.scaleFactor.Malformed? {
        return Some(ScaleFactor);
      }
      ReadScaleFactor(env.scaleFactor);
      ghost var c1 := Snapshot();
      assert Load(start, env) == LoadAfterScaleFactor(c1, env);
      if env.upscaleTrigger.Malformed? {
        return Some(ReplicaUpscaleTrigger);
      }
      ReadUpscaleTrigger(env.upscaleTrigger);
      ghost var c2 := Snapshot();
      assert LoadAfterScaleFactor(c1, env) == LoadAfterUpscaleTrigger(c2, env);
      if env.downscaleTrigger.Malformed? {
        return Some(ReplicaDownscaleTrigger);
      }
      ReadDownscaleTrigger(env.downscaleTrigger);
      ghost var c3 := Snapshot();
      assert LoadAfterUpscaleTrigger(c2, env) == LoadAfterDownscaleTrigger(c3, env);
      if env.minReplicas.Malformed? {
        return Some(MinReplicasCount);
      }
      ReadMinReplicas(env.minReplicas);
      ghost var c4 := Snapshot();
      assert LoadAfterDownscaleTrigger(c3, env) == LoadAfterMinReplicas(c4, env);
      if env.maxReplicas.Malformed? {
        return Some(MaxReplicasCount);
      }
      ReadMaxReplicas(env.maxReplicas);
      ReadFixedReplicas(env.fixedReplicas);
      ghost var c6 := Snapshot();
      AdjustDownscaleTrigger();
      AdjustMinReplicas();
      assert Snapshot() == Normalise(c6);
      failure := None;
      LoadNormalises(start, env);
    }

    method ReadScaleFactor(p: Parsed<real>)
      modifies this`scaleFactor
      ensures Snapshot() == WithScaleFactor(old(Snapshot()), p)
    {
      if p.Value? && p.value > 1.0 {
        scaleFactor := p.value;
      }
    }

    method ReadUpscaleTrigger(p: Parsed<real>)
      modifies this`upperThreshold
      ensures Snapshot() == WithUpscaleTrigger(old(Snapshot()), p)
    {
      if p.Value? && p.value > 0.1 {
        upperThreshold := p.value;
      }
    }

    /** The down trigger is taken only below upper / factor, as updated so far. */
    method ReadDownscaleTrigger(p: Parsed<real>)
      requires scaleFactor > 0.0
      modifies this`lowerThreshold
      ensures Snapshot() == WithDownscaleTrigger(old(Snapshot()), p)
    {
      if p.Value? && p.value < upperThreshold / scaleFactor {
        lowerThreshold := p.value;
      }
    }

    method ReadMinReplicas(p: Parsed<Int32>)
      modifies this`minReplicas
      ensures Snapshot() == WithMinReplicas(old(Snapshot()), p)
    {
      if p.Value? && p.value >= 0 {
        minReplicas := p.value;
      }
    }

    method ReadMaxReplicas(p: Parsed<Int32>)
      modifies this`maxReplicas
      ensures Snapshot() == WithMaxReplicas(old(Snapshot()), p)
    {
      if p.Value? && p.value >= 0 {
        maxReplicas := p.value;
      }
    }

    /** Set text switches the override on exactly when it is "true". */
    method ReadFixedReplicas(text: string)
      modifies this`fixedOverride
      ensures Snapshot() == WithFixedReplicas(old(Snapshot()), text)
    {
      if text != "" {
        fixedOverride := text == "true";
      }
    }

    /** The anti-flap fix: pull the down trigger below upper / factor. */
    method AdjustDownscaleTrigger()
      requires scaleFactor > 0.0
      modifies this`lowerThreshold
      ensures Snapshot() == EnforceAntiFlap(old(Snapshot()))
    {
      if lowerThreshold >= upperThreshold / scaleFactor {
        lowerThreshold := upperThreshold / (scaleFactor + 1.0);
      }
    }

    /** The min <= max fix. */
    method AdjustMinReplicas()
      modifies this`minReplicas
      ensures Snapshot() == EnforceMinAtMostMax(old(Snapshot()))
    {
      if maxReplicas > 0 && minReplicas > maxReplicas {
        minReplicas := maxReplicas;
      }
    }

    /**
     * Answer one autoscale review: the response starts as "no scale, current
     * count" and each branch overwrites it; the capacity branch answers at
     * once, the others pass through the final clamp.
     */
    method HandleAutoscale(req: Request) returns (out: Outcome)
      requires Valid()
      requires Representable(Snapshot(), req)
      ensures out == Decide(Snapshot(), req)
    {
      ghost var cfg := Snapshot();
      var scale := false;
      var replicas: Int32 := req.replicas;
      if fixedOverride {
        match req.fixedReplicas {
          case Absent =>
          case Unparsable => return Reject(NotAnInteger);
          case Requested(n) =>
            if n < 0 {
              return Reject(NegativeReplicas);
            }
            scale := true;
            replicas := n;
        }
      } else if req.replicas != 0 {
        if RoomsKey in req.counters {
          var room := req.counters[RoomsKey];
          if room.capacity > 0 && req.replicas > 0 {
            var current := req.replicas;
            assert ModeOf(cfg, req) == CapacityCounter(room);
            var next := CapacityReplicas(room);
            if next != current {
              scale := true;
              replicas := next;
            }
            return Respond(Response(scale, replicas));
          }
        }
        assert ModeOf(cfg, req) == UtilisationThreshold;
        scale, replicas := ThresholdReplicas(req);
      }
      if maxReplicas > 0 && replicas > maxReplicas {
        scale := true;
        replicas := maxReplicas;
      }
      out := Respond(Response(scale, replicas));
    }

    /**
     * The threshold mode before the final clamp: above the up trigger scale
     * up (capped at the maximum), below the down trigger and above the
     * minimum scale down, otherwise keep the current count.
     */
    method ThresholdReplicas(req: Request) returns (scale: bool, replicas: Int32)
      requires scaleFactor != 0.0 && req.replicas != 0
      requires Fraction(req) > upperThreshold ==> InInt32(Ceil(req.replicas as real * scaleFactor))
      requires (Fraction(req) <= upperThreshold && Fraction(req) < lowerThreshold
                && req.replicas > minReplicas) ==> InInt32(DownscaleTarget(Snapshot(), req.replicas))
      ensures Response(scale, replicas) == ThresholdResponse(Snapshot(), req)
    {
      scale, replicas := false, req.replicas;
      var allocatedFraction := req.allocatedReplicas as real / req.replicas as real;
      if allocatedFraction > upperThreshold {
        scale := true;
        var next: Int32 := Ceil(req.replicas as real * scaleFactor);
        if maxReplicas > 0 && next > maxReplicas {
          next := maxReplicas;
        }
        replicas := next;
      } else if allocatedFraction < lowerThreshold && req.replicas > minReplicas {
        scale := true;
        replicas := Ceil(req.replicas as real / scaleFactor);
      }
    }

    /**
     * The capacity target for a "rooms" counter: rooms at five per replica,
     * clamped, times the scale factor, rounded up, clamped again.
     */
    method CapacityReplicas(room: Counter) returns (next: Int32)
      requires InInt32(RoomsBase(room))
      requires InInt32(CapacityRaw(minReplicas, maxReplicas, scaleFactor, room))
      ensures next == CapacityTarget(minReplicas, maxReplicas, scaleFactor, room)
    {
      var desired: Int32 := Ceil(room.count as real / CapacityPerReplica);
      if desired < minReplicas {
        desired := minReplicas;
      }
      if maxReplicas > 0 && desired > maxReplicas {
        desired := maxReplicas;
      }
      assert desired == Clamp(minReplicas, maxReplicas, RoomsBase(room));
      assert Ceil(desired as real * scaleFactor) == CapacityRaw(minReplicas, maxReplicas, scaleFactor, room);
      next := Ceil(desired as real * scaleFactor);
      if next < minReplicas {
        next := minReplicas;
      }
      if maxReplicas > 0 && next > maxReplicas {
        next := maxReplicas;
      }
    }
  }
}
