/**
 * The policy parameters of the autoscaler and how they are read from the
 * environment at start-up (main.go:17-103).
 *
 * Each environment variable arrives already parsed: unset (the empty string),
 * malformed (the parser rejected it, after which the process exits), or a
 * value. A value replaces the current setting only when it passes that
 * setting's range guard; after all six variables two cross-field fixes run.
 */
module Configuration {
  import opened Wrappers
  import opened Numerics

  datatype Config = Config(
    scaleFactor: real,
    upperThreshold: real,
    lowerThreshold: real,
    minReplicas: Int32,
    maxReplicas: Int32,  // 0 means "no upper bound"
    fixedOverride: bool)

  /** The compiled-in values of the package variables. */
  const Defaults: Config := Config(2.0, 0.7, 0.3, 2, 0, false)

  /** The outcome of parsing one environment variable. */
  datatype Parsed<T> = Unset | Malformed | Value(value: T)

  /** The variables whose parse failure stops the process. */
  datatype Setting =
    | ScaleFactor
    | ReplicaUpscaleTrigger
    | ReplicaDownscaleTrigger
    | MinReplicasCount
    | MaxReplicasCount

  /** The environment as the loader sees it. `fixedReplicas` is the raw text ("" when unset). */
  datatype Environment = Environment(
    scaleFactor: Parsed<real>,
    upscaleTrigger: Parsed<real>,
    downscaleTrigger: Parsed<real>,
    minReplicas: Parsed<Int32>,
    maxReplicas: Parsed<Int32>,
    fixedReplicas: string)

  const EmptyEnvironment: Environment :=
    Environment(Unset, Unset, Unset, Unset, Unset, "")

  /** The settings reached, and the variable that failed to parse, if one did. */
  datatype LoadOutcome = LoadOutcome(settings: Config, failure: Option<Setting>)

  /** What every range guard keeps true, and what the defaults satisfy. */
  predicate WithinGuards(c: Config) {
    && c.scaleFactor > 1.0
    && c.upperThreshold > 0.1
    && c.minReplicas >= 0
    && c.maxReplicas >= 0
  }

  /** The two relations the cross-field fixes establish. */
  predicate Normalised(c: Config)
    requires c.scaleFactor > 0.0
  {
    && c.lowerThreshold < c.upperThreshold / c.scaleFactor
    && (c.maxReplicas > 0 ==> c.minReplicas <= c.maxReplicas)
  }

  // One step per variable, in the order the loader reads them.

  function WithScaleFactor(c: Config, p: Parsed<real>): (r: Config)
    ensures WithinGuards(c) ==> WithinGuards(r)
    ensures r == c.(scaleFactor := r.scaleFactor)
  {
    if p.Value? && p.value > 1.0 then c.(scaleFactor := p.value) else c
  }

  function WithUpscaleTrigger(c: Config, p: Parsed<real>): (r: Config)
    ensures WithinGuards(c) ==> WithinGuards(r)
    ensures r == c.(upperThreshold := r.upperThreshold)
  {
    if p.Value? && p.value > 0.1 then c.(upperThreshold := p.value) else c
  }

  /** The guard reads the scale factor and upper threshold already updated. */
  function WithDownscaleTrigger(c: Config, p: Parsed<real>): (r: Config)
    requires c.scaleFactor > 0.0
    ensures WithinGuards(c) ==> WithinGuards(r)
    ensures r == c.(lowerThreshold := r.lowerThreshold)
  {
    if p.Value? && p.value < c.upperThreshold / c.scaleFactor then c.(lowerThreshold := p.value) else c
  }

  function WithMinReplicas(c: Config, p: Parsed<Int32>): (r: Config)
    ensures WithinGuards(c) ==> WithinGuards(r)
    ensures r == c.(minReplicas := r.minReplicas)
  {
    if p.Value? && p.value >= 0 then c.(minReplicas := p.value) else c
  }

  function WithMaxReplicas(c: Config, p: Parsed<Int32>): (r: Config)
    ensures WithinGuards(c) ==> WithinGuards(r)
    ensures r == c.(maxReplicas := r.maxReplicas)
  {
    if p.Value? && p.value >= 0 then c.(maxReplicas := p.value) else c
  }

  /** Any non-empty text other than exactly "true" switches the override off. */
  function WithFixedReplicas(c: Config, text: string): (r: Config)
    ensures WithinGuards(c) ==> WithinGuards(r)
    ensures r == c.(fixedOverride := r.fixedOverride)
  {
    if text == "" then c else c.(fixedOverride := text == "true")
  }

  /** The anti-flap fix. */
  function EnforceAntiFlap(c: Config): (r: Config)
    requires c.scaleFactor > 0.0
    ensures WithinGuards(c) ==> WithinGuards(r)
    ensures r == c.(lowerThreshold := r.lowerThreshold)
  {
    if c.lowerThreshold >= c.upperThreshold / c.scaleFactor
    then c.(lowerThreshold := c.upperThreshold / (c.scaleFactor + 1.0))
    else c
  }

  /** The min <= max fix. */
  function EnforceMinAtMostMax(c: Config): (r: Config)
    ensures WithinGuards(c) ==> WithinGuards(r)
    ensures r == c.(minReplicas := r.minReplicas)
  {
    if c.maxReplicas > 0 && c.minReplicas > c.maxReplicas then c.(minReplicas := c.maxReplicas) else c
  }

  function Normalise(c: Config): Config
    requires c.scaleFactor > 0.0
  {
    EnforceMinAtMostMax(EnforceAntiFlap(c))
  }

  /**
   * The whole loader, run from the settings `start`. Each `LoadAfter...`
   * function is the rest of the loader once the named variable is done.
   */
  function Load(start: Config, env: Environment): LoadOutcome
    requires start.scaleFactor > 0.0
  {
    if env.scaleFactor.Malformed? then LoadOutcome(start, Some(ScaleFactor))
    else LoadAfterScaleFactor(WithScaleFactor(start, env.scaleFactor), env)
  }

  function LoadAfterScaleFactor(c: Config, env: Environment): LoadOutcome
    requires c.scaleFactor > 0.0
  {
    if env.upscaleTrigger.Malformed? then LoadOutcome(c, Some(ReplicaUpscaleTrigger))
    else LoadAfterUpscaleTrigger(WithUpscaleTrigger(c, env.upscaleTrigger), env)
  }

  function LoadAfterUpscaleTrigger(c: Config, env: Environment): LoadOutcome
    requires c.scaleFactor > 0.0
  {
    if env.downscaleTrigger.Malformed? then LoadOutcome(c, Some(ReplicaDownscaleTrigger))
    else LoadAfterDownscaleTrigger(WithDownscaleTrigger(c, env.downscaleTrigger), env)
  }

  function LoadAfterDownscaleTrigger(c: Config, env: Environment): LoadOutcome
    requires c.scaleFactor > 0.0
  {
    if env.minReplicas.Malformed? then LoadOutcome(c, Some(MinReplicasCount))
    else LoadAfterMinReplicas(WithMinReplicas(c, env.minReplicas), env)
  }

  function LoadAfterMinReplicas(c: Config, env: Environment): LoadOutcome
    requires c.scaleFactor > 0.0
  {
    if env.maxReplicas.Malformed? then LoadOutcome(c, Some(MaxReplicasCount))
    else LoadOutcome(Normalise(WithFixedReplicas(WithMaxReplicas(c, env.maxReplicas), env.fixedReplicas)), None)
  }

  /** The settings once all six variables are read, before the two fixes. */
  function Prepared(start: Config, env: Environment): Config
    requires start.scaleFactor > 0.0
  {
    var c2 := WithUpscaleTrigger(WithScaleFactor(start, env.scaleFactor), env.upscaleTrigger);
    var c4 := WithMinReplicas(WithDownscaleTrigger(c2, env.downscaleTrigger), env.minReplicas);
    WithFixedReplicas(WithMaxReplicas(c4, env.maxReplicas), env.fixedReplicas)
  }

  // ---------------------------------------------------------------------
  // Arithmetic facts about positive reals used below.

  lemma DivideByLarger(u: real, x: real, y: real)
    requires u >= 0.0 && 0.0 < x <= y
    ensures u / y <= u / x
  {
  }

  lemma DivideByStrictlyLarger(u: real, x: real, y: real)
    requires u > 0.0 && 0.0 < x < y
    ensures u / y < u / x
  {
  }

  // ---------------------------------------------------------------------
  // Properties of the loader.

  /** The compiled-in defaults already satisfy every guard and both fixes. */
  lemma DefaultsConsistent()
    ensures WithinGuards(Defaults) && Normalised(Defaults)
  {
  }

  /** With nothing set, the loader keeps the defaults. */
  lemma LoadEmptyEnvironment()
    ensures Load(Defaults, EmptyEnvironment) == LoadOutcome(Defaults, None)
  {
    DefaultsConsistent();
  }

  /** Every step keeps the guard relations, also when the loader stops early. */
  lemma LoadKeepsGuards(start: Config, env: Environment)
    requires WithinGuards(start)
    ensures WithinGuards(Load(start, env).settings)
  {
  }

  /** The loader stops at the first malformed variable, in source order. */
  lemma LoadFailure(start: Config, env: Environment)
    requires start.scaleFactor > 0.0
    ensures var f := Load(start, env).failure;
      && (f == Some(ScaleFactor) <==> env.scaleFactor.Malformed?)
      && (f == Some(ReplicaUpscaleTrigger) <==>
            !env.scaleFactor.Malformed? && env.upscaleTrigger.Malformed?)
      && (f == Some(ReplicaDownscaleTrigger) <==>
            !env.scaleFactor.Malformed? && !env.upscaleTrigger.Malformed? && env.downscaleTrigger.Malformed?)
      && (f == Some(MinReplicasCount) <==>
            !env.scaleFactor.Malformed? && !env.upscaleTrigger.Malformed? && !env.downscaleTrigger.Malformed?
            && env.minReplicas.Malformed?)
      && (f == Some(MaxReplicasCount) <==>
            !env.scaleFactor.Malformed? && !env.upscaleTrigger.Malformed? && !env.downscaleTrigger.Malformed?
            && !env.minReplicas.Malformed? && env.maxReplicas.Malformed?)
      && (f == None <==>
            !env.scaleFactor.Malformed? && !env.upscaleTrigger.Malformed? && !env.downscaleTrigger.Malformed?
            && !env.minReplicas.Malformed? && !env.maxReplicas.Malformed?)
  {
  }

  /** After the anti-flap fix the down trigger lies below upper / factor. */
  lemma AntiFlapEstablished(c: Config)
    requires c.scaleFactor > 0.0 && c.upperThreshold > 0.0
    ensures var d := EnforceAntiFlap(c);
      d.lowerThreshold < d.upperThreshold / d.scaleFactor
  {
    if c.lowerThreshold >= c.upperThreshold / c.scaleFactor {
      DivideByStrictlyLarger(c.upperThreshold, c.scaleFactor, c.scaleFactor + 1.0);
    }
  }

  /**
   * A successful load from settings within the guards ends normalised: the
   * down trigger is below upper / factor (hence below upper), and min <= max
   * whenever max is set.
   */
  lemma LoadNormalises(start: Config, env: Environment)
    requires WithinGuards(start)
    requires Load(start, env).failure == None
    ensures var c := Load(start, env).settings;
      && WithinGuards(c)
      && Normalised(c)
      && c.lowerThreshold < c.upperThreshold
  {
    LoadSucceeds(start, env);
    AntiFlapEstablished(Prepared(start, env));
    var c := Load(start, env).settings;
    assert WithinGuards(c) && Normalised(c);
    LowerBelowUpper(c);
  }

  /** Normalised settings within the guards keep the down trigger below the up trigger. */
  lemma LowerBelowUpper(c: Config)
    requires WithinGuards(c) && Normalised(c)
    ensures c.lowerThreshold < c.upperThreshold
  {
    DivideByStrictlyLarger(c.upperThreshold, 1.0, c.scaleFactor);
  }

  /** A load that meets no malformed variable normalises the prepared settings. */
  lemma LoadSucceeds(start: Config, env: Environment)
    requires start.scaleFactor > 0.0
    requires Load(start, env).failure == None
    ensures Load(start, env).settings == Normalise(Prepared(start, env))
  {
    var c1 := WithScaleFactor(start, env.scaleFactor);
    assert Load(start, env) == LoadAfterScaleFactor(c1, env);
    var c2 := WithUpscaleTrigger(c1, env.upscaleTrigger);
    assert LoadAfterScaleFactor(c1, env) == LoadAfterUpscaleTrigger(c2, env);
    var c3 := WithDownscaleTrigger(c2, env.downscaleTrigger);
    assert LoadAfterUpscaleTrigger(c2, env) == LoadAfterDownscaleTrigger(c3, env);
    var c4 := WithMinReplicas(c3, env.minReplicas);
    assert LoadAfterDownscaleTrigger(c3, env) == LoadAfterMinReplicas(c4, env);
  }

  /**
   * Field by field, what a successful load produces: a value replaces the
   * previous setting only when it passes its guard, and the two fixes then
   * adjust the down trigger and the minimum.
   */
  lemma LoadFields(start: Config, env: Environment)
    requires start.scaleFactor > 0.0
    requires Load(start, env).failure == None
    ensures var c := Load(start, env).settings;
      var f := if env.scaleFactor.Value? && env.scaleFactor.value > 1.0
               then env.scaleFactor.value else start.scaleFactor;
      var u := if env.upscaleTrigger.Value? && env.upscaleTrigger.value > 0.1
               then env.upscaleTrigger.value else start.upperThreshold;
      var l := if env.downscaleTrigger.Value? && env.downscaleTrigger.value < u / f
               then env.downscaleTrigger.value else start.lowerThreshold;
      var lo := if env.minReplicas.Value? && env.minReplicas.value >= 0
                then env.minReplicas.value else start.minReplicas;
      var hi := if env.maxReplicas.Value? && env.maxReplicas.value >= 0
                then env.maxReplicas.value else start.maxReplicas;
      && c.scaleFactor == f
      && c.upperThreshold == u
      && c.lowerThreshold == (if l >= u / f then u / (f + 1.0) else l)
      && c.maxReplicas == hi
      && c.minReplicas == (if hi > 0 && lo > hi then hi else lo)
      && c.fixedOverride == (if env.fixedReplicas == "" then start.fixedOverride
                             else env.fixedReplicas == "true")
  {
    LoadSucceeds(start, env);
    var c1 := WithScaleFactor(start, env.scaleFactor);
    var c2 := WithUpscaleTrigger(c1, env.upscaleTrigger);
    var c3 := WithDownscaleTrigger(c2, env.downscaleTrigger);
    var c4 := WithMinReplicas(c3, env.minReplicas);
    var c5 := WithMaxReplicas(c4, env.maxReplicas);
    var c6 := WithFixedReplicas(c5, env.fixedReplicas);
    assert c6 == Prepared(start, env);
  }

  /** The fixes change nothing on settings that are already normalised. */
  lemma NormaliseKeepsNormalised(c: Config)
    requires c.scaleFactor > 0.0 && Normalised(c)
    ensures Normalise(c) == c
  {
  }

  /** Normalising twice is normalising once. */
  lemma NormaliseIdempotent(c: Config)
    requires c.scaleFactor > 0.0 && c.upperThreshold > 0.0
    ensures Normalise(Normalise(c)) == Normalise(c)
  {
    AntiFlapEstablished(c);
    NormaliseKeepsNormalised(Normalise(c));
  }

  /** Loading the same environment a second time changes nothing more. */
  lemma LoadIdempotent(start: Config, env: Environment)
    requires WithinGuards(start)
    requires Load(start, env).failure == None
    ensures Load(Load(start, env).settings, env) == Load(start, env)
  {
    var c := Load(start, env).settings;
    LoadNormalises(start, env);
    LoadFields(start, env);
    LoadFields(c, env);
  }
}
