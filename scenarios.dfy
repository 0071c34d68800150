/** Worked decisions for concrete fleets. */
module Scenarios {
  import opened Numerics
  import opened Configuration
  import opened Decision

  /** 8 of 10 allocated is above 0.7: double to 20. */
  lemma UtilisationAboveUpper()
    ensures Decide(Defaults, Request(10, 8, Absent, map[])) == Respond(Response(true, 20))
  {
  }

  /** 2 of 10 allocated is below 0.3 and 10 > 2: halve to 5. */
  lemma UtilisationBelowLower()
    ensures Decide(Defaults, Request(10, 2, Absent, map[])) == Respond(Response(true, 5))
  {
    CeilUnique(10.0 / 2.0, 5);
  }

  /** 3 of 4 allocated doubles to 8, cut to the maximum 6. */
  lemma UpscaleCutAtMaximum()
    ensures Decide(Defaults.(maxReplicas := 6), Request(4, 3, Absent, map[])) == Respond(Response(true, 6))
  {
  }

  /** With the override on, an annotation of -1 is rejected. */
  lemma NegativeAnnotationRejected()
    ensures Decide(Defaults.(fixedOverride := true), Request(4, 3, Requested(-1), map[]))
            == Reject(NegativeReplicas)
  {
  }

  /**
   * 50 rooms need 10 replicas; with a factor of 1.0 (a value the loader
   * never accepts, but the decision is defined for) the target is the
   * current 10, so nothing scales. With the default factor 2.0 it is 20.
   */
  lemma RoomsCounterTargets()
    ensures var req := Request(10, 0, Absent, map[RoomsKey := Counter(50, 100)]);
      && Decide(Defaults.(scaleFactor := 1.0), req) == Respond(Response(false, 10))
      && Decide(Defaults, req) == Respond(Response(true, 20))
  {
    CeilUnique(50.0 / 5.0, 10);
    CeilUnique(10.0 * 1.0, 10);
    CeilUnique(10.0 * 2.0, 20);
  }
}
