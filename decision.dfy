/**
 * The scaling decision of the autoscale webhook (main.go:162-260), over an
 * abstract request that carries only the fields the decision reads.
 *
 * Three modes, in precedence order: the fixed-replicas override, the "rooms"
 * capacity counter, and the allocated-fraction thresholds; a final clamp to the
 * maximum runs after the override, the thresholds and the zero-replica path
 * (the capacity mode returns before it and clamps by itself).
 */
module Decision {
  import opened Numerics
  import opened Configuration

  /** The `fixedReplicas` annotation: missing, not an integer, or the integer read. */
  datatype FixedReplicas = Absent | Unparsable | Requested(n: Int64)

  /** An aggregated counter of the fleet status. */
  datatype Counter = Counter(count: Int64, capacity: Int64)

  /** The fields of the review request the decision reads. */
  datatype Request = Request(
    replicas: Int32,
    allocatedReplicas: Int32,
    fixedReplicas: FixedReplicas,
    counters: map<string, Counter>)

  datatype Response = Response(scale: bool, replicas: int)

  /** The two ways the override rejects a request (HTTP 400). */
  datatype RejectReason = NotAnInteger | NegativeReplicas

  datatype Outcome = Respond(response: Response) | Reject(reason: RejectReason)

  /** The counter key the capacity mode looks up. */
  const RoomsKey: string := "rooms"

  /** Rooms one replica is taken to hold; a constant, the counter's capacity is not used. */
  const CapacityPerReplica: real := 5.0

  /** Which part of the decision applies to a request. */
  datatype Mode =
    | FixedOverride
    | CapacityCounter(room: Counter)
    | UtilisationThreshold
    | NoSignal

  function ModeOf(cfg: Config, req: Request): Mode {
    if cfg.fixedOverride then FixedOverride
    else if req.replicas == 0 then NoSignal
    else if RoomsKey in req.counters && req.counters[RoomsKey].capacity > 0 && req.replicas > 0
    then CapacityCounter(req.counters[RoomsKey])
    else UtilisationThreshold
  }

  /** Bound a count from above by the maximum `hi`, when one is set (hi > 0). */
  function CapAtMax(hi: int, x: int): (r: int)
    ensures r <= x
    ensures hi > 0 ==> r <= hi
    ensures (hi <= 0 || x <= hi) ==> r == x
    ensures hi > 0 && x > hi ==> r == hi
  {
    if hi > 0 && x > hi then hi else x
  }

  /** Raise to the minimum `lo`, then bound by the maximum (the maximum wins if they clash). */
  function Clamp(lo: int, hi: int, x: int): (r: int)
    ensures hi > 0 ==> r <= hi
    ensures (hi <= 0 || lo <= hi) ==> r >= lo
    ensures lo <= x && (hi <= 0 || x <= hi) ==> r == x
    ensures (hi <= 0 || lo <= hi) && x < lo ==> r == lo
    ensures hi > 0 && (x > hi || lo > hi) ==> r == hi
  {
    CapAtMax(hi, if x < lo then lo else x)
  }

  /** Replicas needed for the rooms counted, before the scale factor. */
  function RoomsBase(room: Counter): int {
    Ceil(room.count as real / CapacityPerReplica)
  }

  /** The capacity target before the last clamp: the clamped base times the factor, rounded up. */
  function CapacityRaw(lo: int, hi: int, f: real, room: Counter): int {
    Ceil(Clamp(lo, hi, RoomsBase(room)) as real * f)
  }

  /** The capacity-mode target for the bounds `lo`, `hi` and the scale factor `f`. */
  function CapacityTarget(lo: int, hi: int, f: real, room: Counter): int {
    Clamp(lo, hi, CapacityRaw(lo, hi, f, room))
  }

  function Fraction(req: Request): real
    requires req.replicas != 0
  {
    req.allocatedReplicas as real / req.replicas as real
  }

  function UpscaleTarget(cfg: Config, current: int): int {
    CapAtMax(cfg.maxReplicas, Ceil(current as real * cfg.scaleFactor))
  }

  function DownscaleTarget(cfg: Config, current: int): int
    requires cfg.scaleFactor != 0.0
  {
    Ceil(current as real / cfg.scaleFactor)
  }

  /** The threshold mode, before the final clamp. */
  function ThresholdResponse(cfg: Config, req: Request): Response
    requires cfg.scaleFactor != 0.0 && req.replicas != 0
  {
    if Fraction(req) > cfg.upperThreshold then Response(true, UpscaleTarget(cfg, req.replicas))
    else if Fraction(req) < cfg.lowerThreshold && req.replicas > cfg.minReplicas
    then Response(true, DownscaleTarget(cfg, req.replicas))
    else Response(false, req.replicas)
  }

  /** The final clamp: a target above the maximum becomes the maximum, and scales. */
  function FinalClamp(cfg: Config, r: Response): (c: Response)
    ensures cfg.maxReplicas > 0 ==> c.replicas <= cfg.maxReplicas
    ensures cfg.maxReplicas > 0 && r.replicas > cfg.maxReplicas ==> c == Response(true, cfg.maxReplicas)
    ensures (cfg.maxReplicas <= 0 || r.replicas <= cfg.maxReplicas) ==> c == r
  {
    if cfg.maxReplicas > 0 && r.replicas > cfg.maxReplicas then Response(true, cfg.maxReplicas) else r
  }

  /** The decision for one request under the settings `cfg`. */
  function Decide(cfg: Config, req: Request): (o: Outcome)
    requires cfg.scaleFactor != 0.0
    ensures o.Respond? && cfg.maxReplicas > 0 ==> o.response.replicas <= cfg.maxReplicas
  {
    match ModeOf(cfg, req)
    case FixedOverride =>
      (match req.fixedReplicas
       case Absent => Respond(FinalClamp(cfg, Response(false, req.replicas)))
       case Unparsable => Reject(NotAnInteger)
       case Requested(n) =>
         if n < 0 then Reject(NegativeReplicas) else Respond(FinalClamp(cfg, Response(true, n))))
    case NoSignal => Respond(FinalClamp(cfg, Response(false, req.replicas)))
    case CapacityCounter(room) =>
      var target := CapacityTarget(cfg.minReplicas, cfg.maxReplicas, cfg.scaleFactor, room);
      Respond(Response(target != req.replicas, target))
    case UtilisationThreshold => Respond(FinalClamp(cfg, ThresholdResponse(cfg, req)))
  }

  /**
   * The conversions to int32 that the request leads the handler to make stay
   * in range (beyond it Go's result is implementation-defined or wraps).
   */
  predicate Representable(cfg: Config, req: Request)
    requires cfg.scaleFactor != 0.0
  {
    match ModeOf(cfg, req)
    case FixedOverride =>
      req.fixedReplicas.Requested? && req.fixedReplicas.n >= 0 ==> req.fixedReplicas.n <= MaxInt32
    case NoSignal => true
    case CapacityCounter(room) =>
      && InInt32(RoomsBase(room))
      && InInt32(CapacityRaw(cfg.minReplicas, cfg.maxReplicas, cfg.scaleFactor, room))
    case UtilisationThreshold =>
      && (Fraction(req) > cfg.upperThreshold ==> InInt32(Ceil(req.replicas as real * cfg.scaleFactor)))
      && ((Fraction(req) <= cfg.upperThreshold && Fraction(req) < cfg.lowerThreshold
           && req.replicas > cfg.minReplicas)
          ==> InInt32(DownscaleTarget(cfg, req.replicas)))
  }
}
