# Fleet autoscaler webhook: scaling policy

This project models the policy core of a game-server fleet autoscaler. The
autoscaler is an HTTP webhook. An orchestrator posts it the status of a fleet
(current replicas, allocated replicas, annotations, aggregated counters), and
it answers whether to scale and to how many replicas. The model covers the
two parts of `main.go` that hold the policy:

- **Start-up configuration** (`getEnvVariables`). Six package variables are
  read from the environment in a fixed order: scale factor, up trigger, down
  trigger, minimum, maximum, fixed-replicas switch. A value replaces the
  compiled-in default only when it passes its range guard. A parse failure
  ends the process. Two cross-field fixes follow: the down trigger is pulled
  below `upper / factor` (the anti-flap relation), and the minimum is lowered
  to the maximum when a maximum is set.
- **The decision** (`handleAutoscale`). Three modes apply in precedence order:
  1. the fixed-replicas override, which reads a per-request annotation and
     may reject the request;
  2. the "rooms" capacity counter, which sizes the fleet from the room count
     at five rooms per replica, times the scale factor, clamped to
     [min, max];
  3. the allocated-fraction thresholds: scale up by the factor above the up
     trigger, scale down by the factor below the down trigger.

  A final clamp to the maximum runs after the override, the threshold modes
  and the zero-replica path (main.go:188 falls through to main.go:257).

The model comes in two layers:

- **Specification functions over values.** These live in `configuration.dfy`
  (`Load` and its steps) and `decision.dfy` (`Decide` and its parts). The
  properties of the policy are proved about them in
  `configuration.dfy`, `decision_properties.dfy`, `hysteresis.dfy` and
  `scenarios.dfy`.
- **The imperative form** in `webhook.dfy`. The class `Webhook.Autoscaler`
  holds the package variables as fields. `ReadEnvironment` reassigns them
  variable by variable, as `getEnvVariables` does. `HandleAutoscale` builds
  the response and overwrites it branch by branch, with the early return of
  the capacity path. Each method is proved to compute exactly what the
  specification function says.

Modelling choices:

- Go's `float64` arithmetic is modelled with exact `real`.
- `math.Ceil` is `Numerics.Ceil(x) = -((-x).Floor)`.
- `int32` and `int64` values are the subset types `Int32` and `Int64`.
- An environment variable arrives already parsed, as `Parsed<T>`: unset,
  malformed, or a value.
- The annotation arrives as `FixedReplicas`: absent, not an integer, or the
  integer read.
- A parse failure at start-up (the process exits) is the `failure` field of
  `LoadOutcome`. It names the variable, and the settings are kept as far as
  the loader got.

Where the code and the documented design differ, the model follows the code:

- The override always sets `scale` to true, even when the requested count
  equals the current one (main.go:184). It does not compare the two.
- A missing annotation under the override is not a rejection. The answer is
  "no scale, current count", subject to the final clamp (main.go:169-170).
- The threshold downscale is not raised to the minimum (main.go:248).
  `Hysteresis.DownscaleBelowMinimum` gives settings where 3 replicas become
  1 with a minimum of 2. So "never below the minimum when a mode fires"
  holds for the capacity mode only (`CapacityWithinBounds`).
- Rooms per replica is the constant 5.0 (main.go:199). The counter's
  capacity only gates the mode (main.go:197), although the comment at
  main.go:191 describes deriving the per-replica capacity from it.
- The capacity path returns at main.go:231, before the final clamp. It
  clamps the target itself, so the maximum still bounds every answer
  (`Decision.Decide`).
- The final clamp sets `scale` to true whenever the count exceeds the
  maximum, including on the no-scale path (main.go:257-260).

## Model

| member | source | states |
|---|---|---|
| Configuration.WithScaleFactor | main.go:30-38 | only the scale factor may change, and settings within the guards stay within them |
| Configuration.WithUpscaleTrigger | main.go:40-48 | only the up trigger may change, and settings within the guards stay within them |
| Configuration.WithDownscaleTrigger | main.go:50-58 | only the down trigger may change, and settings within the guards stay within them |
| Configuration.WithMinReplicas | main.go:60-68 | only the minimum may change, and settings within the guards stay within them |
| Configuration.WithMaxReplicas | main.go:70-78 | only the maximum may change, and settings within the guards stay within them |
| Configuration.WithFixedReplicas | main.go:80-88 | only the override switch may change, and settings within the guards stay within them |
| Configuration.EnforceAntiFlap | main.go:95-97 | only the down trigger may change, and settings within the guards stay within them |
| Configuration.EnforceMinAtMostMax | main.go:99-102 | only the minimum may change, and settings within the guards stay within them |
| Configuration.Load | main.go:29-103 | no contract of its own: the loader from given settings; its properties are `LoadFailure`, `LoadKeepsGuards`, `LoadSucceeds`, `LoadFields`, `LoadNormalises` and `LoadIdempotent` |
| Configuration.LoadAfterScaleFactor | main.go:40-103 | no contract of its own: the loader after the scale factor; covered through `Load` by the same lemmas |
| Configuration.LoadAfterUpscaleTrigger | main.go:50-103 | no contract of its own: the loader after the up trigger; covered through `Load` by the same lemmas |
| Configuration.LoadAfterDownscaleTrigger | main.go:60-103 | no contract of its own: the loader after the down trigger; covered through `Load` by the same lemmas |
| Configuration.LoadAfterMinReplicas | main.go:70-103 | no contract of its own: the loader after the minimum; covered through `Load` by the same lemmas |
| Configuration.Prepared | main.go:30-88 | no contract of its own: the settings after all six variables; `LoadSucceeds` and `LoadFields` state what it holds |
| Configuration.Normalise | main.go:95-102 | no contract of its own: the two fixes in order; `AntiFlapEstablished`, `NormaliseKeepsNormalised`, `NormaliseIdempotent` and `LoadNormalises` state its properties |
| Configuration.DefaultsConsistent | main.go:17-24 | the compiled-in values satisfy every guard, lower < upper / factor, and min <= max when a maximum is set (the default maximum 0 sets none) |
| Configuration.LoadEmptyEnvironment | main.go:29-103 | with no variable set, the loader succeeds and keeps the defaults |
| Configuration.LoadKeepsGuards | main.go:29-103 | factor > 1, upper > 0.1, min >= 0 and max >= 0 hold after every load, including one stopped by a parse failure |
| Configuration.LoadFailure | main.go:30-78 | the load fails exactly at the first malformed variable in source order, and succeeds exactly when none is malformed |
| Configuration.AntiFlapEstablished | main.go:95-97 | after the anti-flap fix, lower < upper / factor |
| Configuration.LoadNormalises | main.go:29-103 | a successful load ends within the guards, with lower < upper / factor, lower < upper, and min <= max when max is set |
| Configuration.LowerBelowUpper | main.go:95-97 | within the guards, lower < upper / factor implies lower < upper |
| Configuration.LoadSucceeds | main.go:29-103 | a successful load is the two fixes applied to the settings after all six variables |
| Configuration.LoadFields | main.go:29-103 | field by field, each result of a successful load: each value is kept only when it passes its guard (the down-trigger guard reads the updated factor and upper); then the anti-flap fix; then the min fix; the switch is on exactly for the text "true" and unchanged when unset |
| Configuration.NormaliseKeepsNormalised | main.go:95-102 | the fixes change nothing on settings that already satisfy both relations |
| Configuration.NormaliseIdempotent | main.go:95-102 | applying the fixes twice equals applying them once |
| Configuration.LoadIdempotent | main.go:29-103 | loading the same environment again from the loaded settings gives the same outcome |
| Numerics.Ceil | main.go:241 | the ceiling r satisfies x <= r < x + 1 |
| Numerics.CeilOfGrowth | main.go:241 | rounding up a positive count times a factor above 1 exceeds the count |
| Numerics.CeilOfShrink | main.go:248 | rounding up a positive count divided by a factor above 1 lies in [1, count], and the result times the factor covers the count |
| Decision.CapAtMax | main.go:242-244 | the result is at most x; it is at most the maximum when one is set; it equals x when x is within the maximum, and the maximum otherwise |
| Decision.Clamp | main.go:203-208 | the result is at most the maximum when one is set; it is at least the minimum when min <= max; values within the bounds are unchanged; a value below the minimum becomes the minimum (when min <= max); a value above a set maximum, or any value when the minimum exceeds it, becomes the maximum |
| Decision.ModeOf | main.go:168-197 | no contract of its own: the mode precedence; `OverrideIgnoresFleet`, `IdleFleet`, `CapacityMode`, `CapacityIgnoresThresholds` and `ThresholdMode` state what each mode answers |
| Decision.RoomsBase | main.go:199-201 | no contract of its own: ceil(count / 5); `CapacityCoversRooms` states that it covers the rooms |
| Decision.CapacityRaw | main.go:199-211 | no contract of its own: the clamped base times the factor, rounded up; bounded through `CapacityTarget` |
| Decision.CapacityTarget | main.go:199-218 | no contract of its own: the capacity target; `CapacityWithinBounds`, `CapacityCoversRooms`, `CapacityMode` and `Webhook.Autoscaler.CapacityReplicas` state its properties |
| Decision.Fraction | main.go:235 | no contract of its own: allocated / replicas; used by `ThresholdMode` and the hysteresis lemmas |
| Decision.UpscaleTarget | main.go:239-245 | no contract of its own: ceil(current * factor) capped at the maximum; `UpscaleGrows` and `WholeStepUpscale` state its properties |
| Decision.DownscaleTarget | main.go:246-248 | no contract of its own: ceil(current / factor); `DownscaleBounds` and `Numerics.CeilOfShrink` state its properties |
| Decision.ThresholdResponse | main.go:235-249 | no contract of its own: the threshold branch before the final clamp; `ThresholdMode` and `Webhook.Autoscaler.ThresholdReplicas` state it |
| Decision.FinalClamp | main.go:257-260 | a set maximum bounds the result; a count above it becomes the maximum with scale = true; a count within it passes unchanged |
| Decision.Decide | main.go:162-260 | whenever a maximum is set, no answer names more replicas than the maximum, on any path |
| DecisionProperties.OverrideRejection | main.go:168-182 | a request is rejected as not an integer, or as negative, exactly when the override is on and the annotation is that; rejection happens only in those two cases |
| DecisionProperties.OverrideTarget | main.go:168-187 | with the override on and a usable annotation n, the answer is scale = true with n capped at the maximum (the clamp at main.go:257-260), even when n is the current count |
| DecisionProperties.OverrideWithoutAnnotation | main.go:168-188 | with the override on and no annotation, the answer is the current count unscaled, unless it exceeds the maximum |
| DecisionProperties.OverrideIgnoresFleet | main.go:168-188 | with the override on, the answer depends only on the annotation and the maximum (and on the current count when there is no annotation), not on the thresholds, counters, allocation or minimum |
| DecisionProperties.IdleFleet | main.go:188 | with the override off and zero replicas, the answer is scale = false with 0 replicas |
| DecisionProperties.CapacityMode | main.go:193-231 | with the override off, replicas > 0 and a rooms counter of positive capacity, the answer is the capacity target, and it scales exactly when the target differs from the current count |
| DecisionProperties.CapacityWithinBounds | main.go:203-218 | in the capacity mode, with min <= max when max is set, the target lies within [min, max] |
| DecisionProperties.CapacityCoversRooms | main.go:199-218 | with no maximum, a factor of at least 1 and min >= 0, the capacity target holds every counted room at five per replica |
| DecisionProperties.CapacityIgnoresThresholds | main.go:193-231 | the capacity answer does not depend on the thresholds, the allocated count or other counters |
| DecisionProperties.ThresholdMode | main.go:235-249 | the three outcomes of the threshold mode: above upper, scale to ceil(current * factor) capped at max; else below lower with current > min, scale to ceil(current / factor), then the final clamp; otherwise keep the current count, then the final clamp |
| DecisionProperties.NoOpStability | main.go:235-249 | a fraction between the two triggers, with the count within the maximum, gives scale = false with the current count |
| DecisionProperties.UpscaleGrows | main.go:236-245 | an upscale answers scale = true, with a count above the current one unless it is the maximum |
| DecisionProperties.DownscaleBounds | main.go:246-248 | a downscale answers scale = true with a count in [1, current]; when the maximum did not cut it, the new count times the factor covers the old count |
| Hysteresis.AntiFlapAfterUpscale | main.go:235-248 | for settings within the guards that satisfy both relations (as every successful load leaves them), after an upscale whose step current * factor is whole, the next poll with the same allocation has a fraction of at least the previous fraction divided by the factor, hence above the down trigger, and does not shrink the fleet |
| Hysteresis.WholeStepUpscale | main.go:239-245 | an upscale by a whole step goes to that step capped at the maximum, and stays positive |
| Hysteresis.NoShrinkAboveLower | main.go:235-249 | in the threshold mode, a fraction at or above the down trigger, with the count within the maximum, never shrinks the fleet |
| Hysteresis.AntiFlapAfterDownscale | main.go:246-248 | for settings within the guards that satisfy both relations, after a downscale the next poll with the same allocation does not grow the fleet; if the maximum did not cut the downscale, the next fraction is below the up trigger |
| Hysteresis.NoGrowthWithinBounds | main.go:235-249 | in the threshold mode, a fraction at most the up trigger, or a count already at the maximum, never grows the fleet |
| Hysteresis.FlapAfterRoundedUpscale | main.go:236-248 | counterexample: without the whole-step condition, settings that satisfy both relations let 3 replicas scale up to 5, and the next poll scales down to 4 |
| Hysteresis.DownscaleBelowMinimum | main.go:246-248 | counterexample: a downscale may go below the minimum (3 becomes 1 with minimum 2) |
| Scenarios.UtilisationAboveUpper | main.go:236-245 | 8 of 10 allocated under the defaults scales to 20 |
| Scenarios.UtilisationBelowLower | main.go:246-248 | 2 of 10 allocated under the defaults scales to 5 |
| Scenarios.UpscaleCutAtMaximum | main.go:242-244 | 3 of 4 allocated with maximum 6 scales to 6, not 8 |
| Scenarios.NegativeAnnotationRejected | main.go:178-182 | an annotation of -1 under the override is rejected as negative |
| Scenarios.RoomsCounterTargets | main.go:197-223 | 50 rooms on 10 replicas give a target of 10 with factor 1 (no scale) and 20 with factor 2 |
| Webhook.Autoscaler.constructor | main.go:17-24 | the variables start at the compiled-in values, which satisfy the guards |
| Webhook.Autoscaler.ReadEnvironment | main.go:29-103 | reading the environment leaves the variables at what `Load` gives from the previous values, and reports the same failure; the guards are kept, and a successful read ends normalised |
| Webhook.Autoscaler.ReadScaleFactor | main.go:30-38 | updates only the scale factor, as `WithScaleFactor` |
| Webhook.Autoscaler.ReadUpscaleTrigger | main.go:40-48 | updates only the up trigger, as `WithUpscaleTrigger` |
| Webhook.Autoscaler.ReadDownscaleTrigger | main.go:50-58 | updates only the down trigger, as `WithDownscaleTrigger` on the current variables |
| Webhook.Autoscaler.ReadMinReplicas | main.go:60-68 | updates only the minimum, as `WithMinReplicas` |
| Webhook.Autoscaler.ReadMaxReplicas | main.go:70-78 | updates only the maximum, as `WithMaxReplicas` |
| Webhook.Autoscaler.ReadFixedReplicas | main.go:80-88 | updates only the override switch, as `WithFixedReplicas` |
| Webhook.Autoscaler.AdjustDownscaleTrigger | main.go:95-97 | updates only the down trigger, as `EnforceAntiFlap` |
| Webhook.Autoscaler.AdjustMinReplicas | main.go:99-102 | updates only the minimum, as `EnforceMinAtMostMax` |
| Webhook.Autoscaler.HandleAutoscale | main.go:162-260 | the answer built branch by branch, with the early return of the capacity path, equals `Decide` on the current variables |
| Webhook.Autoscaler.ThresholdReplicas | main.go:235-249 | the threshold branch computes `ThresholdResponse` |
| Webhook.Autoscaler.CapacityReplicas | main.go:198-218 | the clamps on `desired` and `next` compute `CapacityTarget` for the current variables |

## Left out

- The HTTP server, TLS certificate probing, `/health`, the port flag and the logger set-up (main.go:106-147) are transport and I/O, not policy.
- JSON decoding and encoding of the review are not modelled. Neither are the 500 answers for a nil request or a bad body (main.go:152-161, 225-230, 262). The request is reduced to the fields the decision reads. The response is `Outcome`: an answer, or one of the two 400 rejections.
- `os.Getenv`, `strconv.ParseFloat`, `strconv.ParseInt` and `strconv.Atoi` are not modelled, and their grammars are not visible. Non-finite values are outside the model: `strconv.ParseFloat` accepts text such as "Inf" or "NaN" without an error, and +Inf would pass the guards at main.go:35 and main.go:45, but `Parsed<real>` holds finite reals only. Each variable arrives as `Parsed<T>`, the annotation as `FixedReplicas`, and `os.Exit(1)` is the `failure` field of `LoadOutcome`.
- `slog` logging and the echoed request UID (main.go:165) carry no policy.
- IEEE-754 rounding is not modelled. `float64` division and multiplication and `math.Ceil` are exact `real` operations here. Results can differ from the binary implementation where an exact value lies on a boundary, such as a fraction equal to a trigger or a product that is a whole number in reals but not in binary.
- Decision.Representable: Go's conversions to `int32` (main.go:185, 201, 211, 241, 248) are not modelled beyond the `int32` range. `Webhook.Autoscaler.HandleAutoscale` requires through this predicate that each converted value fits, so wrap-around and implementation-defined float conversion are excluded rather than modelled.
- Webhook.Autoscaler.HandleAutoscale: the request fields are not mutated; the model returns the response instead of writing it into the review object.
- Hysteresis.AntiFlapAfterUpscale: stated weaker than the comment at main.go:237-238. It needs `current * factor` to be a whole number, because `FlapAfterRoundedUpscale` shows that the general promise fails under rounding.
- Hysteresis.AntiFlapAfterDownscale: the fraction bound after the downscale is stated only when the maximum did not cut the downscale. Without that condition the fleet still does not grow.
