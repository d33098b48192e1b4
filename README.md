# Detection camera watcher, modelled in Dafny

This project models the detection logic of a surveillance-camera "watcher"
from a Unity project. It covers two parts.

- **The awareness level** (`Detection`, detection_state.dfy). A
  `DetectionState` object holds one of four levels: NOTDETECTED, ALERTED,
  DETECTED and WITHINRANGE. It has four unguarded setters and three equality
  queries.
- **The per-frame sensing step** of `IsDetectionCamera` (`DetectionCamera`,
  camera.dfy). The step does four things:
  - it resolves the configured target names once at start;
  - it acquires a target whose name matches a collider in the scan sphere;
  - it drops a DETECTED target once it is farther than `OutOfRangeDistance`;
  - it confirms line of sight with a ray.

  The camera also colours its light and turns to face a DETECTED target.

The camera is a class. Its fields are the current target, the resolved target
list, the light colour and references to the `DetectionState` and to the idle
rotation collaborator (`Rotation.IsolateRotation`, of which only `enabled` is
kept). Each step method (`FindTargets`, `TargetWithinRange`,
`UpdateDetectionState`, `UpdateTargetDetection` and `Update`) is proved against
a function on values in `CameraSpec` (camera_spec.dfy). `FollowTarget` and
`UpdateCameraLight` state their effect directly; `Update` ties them to
`Facing` and `LightFor`:

- `Resolve` gives the target-list resolution;
- `FindByName` and `FirstMatch` give the nested acquisition search;
- `TargetOutOfRange` is the strict distance comparison;
- `DetectionStep` is one re-evaluation of the level;
- `TargetDetection` is the ray test;
- `Tick` is one whole `Update`;
- `Facing` says whom `LookAt` is called with;
- `LightFor` gives the light colour.

The lemmas about these functions carry the properties. The class invariant
`Valid` wraps `CameraSpec.Inv`, which has three parts:

- WITHINRANGE and DETECTED hold only with a current target;
- a current target is one of the resolved targets;
- the idle rotation is not running while DETECTED.

The engine's services are inputs to each method:

- the overlap query is the sequence of collider names it returns;
- the raycast is the name of the collider struck first, if any;
- `GameObject.Find` is a map from name to target;
- the current target's distance is a `real`, compared with the threshold.

`Transform.LookAt` becomes `Update`'s out-parameter: the target the camera was
turned toward in that frame, if any.

Unity runs a coroutine's body synchronously up to its first `yield`. In
`FindTargets` and `UpdateTargetDetection` the only `yield return null` is the
last statement. Both are therefore modelled as ordinary synchronous calls.
Their effects are visible later in the same `Update`.

Three consequences of the code are worth spelling out:

- **The ray test runs in the acquiring frame.** Since both coroutines run to
  their only, final `yield` inside `StartCoroutine`, the ray test runs in the
  frame that acquires the target. The Player scenario reaches DETECTED in its
  first frame (`CameraSpec.Scenario`, `CameraSpec.AcquireAndConfirm`).
- **A ray that strikes nothing leaves the rotation flag alone.** The ray test
  runs only at WITHINRANGE, so a miss keeps that level, and unlike a hit on
  another collider it does not re-enable the idle rotation.
- **Resolved targets form an ordered list.** Acquisition order is fixed:
  colliders in the overlap query's order in the outer loop, resolved targets
  in configured order in the inner loop.

## Model

| member | source | states |
|---|---|---|
| `Detection.DetectionState.constructor` | Assets/Scripts/DetectionState.cs:11-18 | a freshly added component holds the enum's default value NOTDETECTED |
| `Detection.DetectionState.PlayerAlert` | Assets/Scripts/DetectionState.cs:22-25 | the level becomes ALERTED from any prior level; the object has no other state, and the post-state does not depend on the pre-state, so a second call changes nothing |
| `Detection.DetectionState.PlayerDetected` | Assets/Scripts/DetectionState.cs:29-32 | the level becomes DETECTED from any prior level, idempotently |
| `Detection.DetectionState.PlayerLost` | Assets/Scripts/DetectionState.cs:36-39 | the level becomes NOTDETECTED from any prior level, idempotently |
| `Detection.DetectionState.PlayerInRange` | Assets/Scripts/DetectionState.cs:43-46 | the level becomes WITHINRANGE from any prior level, idempotently |
| `Detection.DetectionState.IsWithinRange` | Assets/Scripts/DetectionState.cs:51-54 | true exactly when the level is WITHINRANGE; no modifies clause, so the level is left as it is |
| `Detection.DetectionState.IsPlayerDetected` | Assets/Scripts/DetectionState.cs:59-62 | true exactly when the level is DETECTED; changes nothing |
| `Detection.DetectionState.IsAlerted` | Assets/Scripts/DetectionState.cs:67-70 | true exactly when the level is ALERTED; changes nothing |
| `Detection.DetectionState.Query` | Assets/Scripts/DetectionState.cs:51-70 | asked in turn, at most one of the three queries answers true, and all three answer false exactly when the level is NOTDETECTED |
| `Rotation.IsolateRotation.constructor` | Assets/Scripts/IsDetectionCamera.cs:19 | the idle-rotation collaborator as the camera sees it: an enabled flag |
| `CameraSpec.ResolveConcat` | Assets/Scripts/IsDetectionCamera.cs:209-220 | resolving a concatenation of name lists gives the two resolutions concatenated, earlier names first: resolution keeps configured order |
| `CameraSpec.ResolveSingle` | Assets/Scripts/IsDetectionCamera.cs:212-216 | one name resolves to the object `GameObject.Find` returns for it, or is dropped |
| `CameraSpec.Resolve` | Assets/Scripts/IsDetectionCamera.cs:209-220 | the reference definition of `FindTargets`: the names that resolve, mapped to their targets, in configured order; at most one target per name, and every target is one `GameObject.Find` returned |
| `CameraSpec.ResolveLength` | Assets/Scripts/IsDetectionCamera.cs:209-220 | as many targets as names exactly when every name resolves; none when none does |
| `CameraSpec.ResolveMembers` | Assets/Scripts/IsDetectionCamera.cs:212-216 | a target is in the resolved list exactly when some configured name maps to it |
| `CameraSpec.FindByName` | Assets/Scripts/IsDetectionCamera.cs:193-198 | the inner search returns only a resolved target carrying the collider's name |
| `CameraSpec.FirstMatch` | Assets/Scripts/IsDetectionCamera.cs:187-201 | acquisition returns only a resolved target whose name is among the scanned colliders' names |
| `CameraSpec.FindByNameNone` | Assets/Scripts/IsDetectionCamera.cs:193-198 | the inner search finds nothing exactly when no resolved target has the collider's name |
| `CameraSpec.FindByNameFirst` | Assets/Scripts/IsDetectionCamera.cs:193-198 | the inner search returns the first resolved target with the collider's name |
| `CameraSpec.FirstMatchNone` | Assets/Scripts/IsDetectionCamera.cs:187-201 | acquisition returns null exactly when no collider name equals any resolved target's name |
| `CameraSpec.FirstMatchIsFirst` | Assets/Scripts/IsDetectionCamera.cs:187-201 | the result is the target of the first matching (collider, target) pair in collider-major, target-minor order |
| `CameraSpec.DetectionStep` | Assets/Scripts/IsDetectionCamera.cs:144-162 | re-evaluating the level keeps the invariant `Inv` |
| `CameraSpec.DetectionStepTarget` | Assets/Scripts/IsDetectionCamera.cs:148-149 | a held target is never replaced, only kept or dropped to NOTDETECTED; with no target, acquisition is tried exactly when the level is neither WITHINRANGE nor DETECTED, and otherwise nothing changes |
| `CameraSpec.DetectionStepPromotes` | Assets/Scripts/IsDetectionCamera.cs:151-152 | from any state whose level is not DETECTED, re-evaluation that ends with a target held ends at WITHINRANGE |
| `CameraSpec.DetectionStepIdle` | Assets/Scripts/IsDetectionCamera.cs:148-152 | under the invariant, re-evaluation from a level other than DETECTED that ends without a target changes nothing |
| `CameraSpec.TargetOutOfRange` | Assets/Scripts/IsDetectionCamera.cs:170-179 | false without a target; with one, true exactly when the distance is strictly above the threshold |
| `CameraSpec.LossResetsEverything` | Assets/Scripts/IsDetectionCamera.cs:154-161 | a DETECTED target farther than the threshold ends the frame at NOTDETECTED with no target, the rotation enabled if it exists, and nothing faced |
| `CameraSpec.DetectedPersists` | Assets/Scripts/IsDetectionCamera.cs:170-179 | at a distance not above the threshold (`TargetOutOfRange` is strict), DETECTED persists with level, target and rotation unchanged, and the camera faces its target |
| `CameraSpec.TargetDetection` | Assets/Scripts/IsDetectionCamera.cs:233-250 | the ray test keeps the current target; after a hit the level is DETECTED exactly when the struck collider carries the target's name, and WITHINRANGE otherwise |
| `CameraSpec.TargetDetectionOutcomes` | Assets/Scripts/IsDetectionCamera.cs:227-253 | a hit on the target's name gives DETECTED with the rotation disabled; another hit gives WITHINRANGE with the rotation enabled; no hit changes nothing; the target is kept |
| `CameraSpec.Tick` | Assets/Scripts/IsDetectionCamera.cs:40-55 | one `Update` keeps the invariant `Inv`, so the ray test always has a target to read |
| `CameraSpec.FacingOnlyWhenDetected` | Assets/Scripts/IsDetectionCamera.cs:53-54 | `LookAt` is called exactly when the frame ends DETECTED, with the held resolved target, and never while the idle rotation runs |
| `CameraSpec.AcquireAndConfirm` | Assets/Scripts/IsDetectionCamera.cs:40-55 | from no target, a frame reaches DETECTED exactly when acquisition finds a target and the ray strikes a collider of that target's name |
| `CameraSpec.Scenario` | Assets/Scripts/IsDetectionCamera.cs:40-55 | the "Player" scenario: DETECTED with rotation off in the first frame, unchanged in the second, and NOTDETECTED with no target and rotation back on at distance 17 against 16 |
| `DetectionCamera.IsDetectionCamera.constructor` | Assets/Scripts/IsDetectionCamera.cs:9-22 | the inspector-set fields; the resolved list starts empty and no target is held |
| `DetectionCamera.IsDetectionCamera.Init` | Assets/Scripts/IsDetectionCamera.cs:90-104 | takes the sibling rotation component, adds a NOTDETECTED state when none was assigned, resolves the targets, and establishes the invariant |
| `DetectionCamera.IsDetectionCamera.FindTargets` | Assets/Scripts/IsDetectionCamera.cs:209-220 | the loop appends exactly `Resolve(targets, find)` to the resolved list |
| `DetectionCamera.IsDetectionCamera.TargetWithinRange` | Assets/Scripts/IsDetectionCamera.cs:187-201 | the nested loop with early return computes `FirstMatch` over the resolved list and changes nothing |
| `DetectionCamera.IsDetectionCamera.UpdateCameraLight` | Assets/Scripts/IsDetectionCamera.cs:63-73 | an assigned light turns red when the level is DETECTED and green otherwise; without a light or state nothing changes |
| `DetectionCamera.IsDetectionCamera.FollowTarget` | Assets/Scripts/IsDetectionCamera.cs:77-83 | `LookAt` is called with the current target exactly when one is held |
| `DetectionCamera.IsDetectionCamera.UpdateDetectionState` | Assets/Scripts/IsDetectionCamera.cs:144-162 | the new level, target and rotation flag are `DetectionStep` of the old ones, and the invariant is kept |
| `DetectionCamera.IsDetectionCamera.UpdateTargetDetection` | Assets/Scripts/IsDetectionCamera.cs:227-253 | the new level and rotation flag are `TargetDetection` of the old ones; a held target is required, which the invariant supplies at the call site |
| `DetectionCamera.IsDetectionCamera.Update` | Assets/Scripts/IsDetectionCamera.cs:40-55 | light from the starting level, then re-evaluation, then the ray test when WITHINRANGE, then facing when DETECTED: the new state is `Tick` of the old, the invariant is kept, and `LookAt` goes to `Facing` of the new state |

## Left out

- Assets/Scripts/IsolateRotation.cs: the sine-wave rotation driven by elapsed time is float numerics with no decisions. Only its `enabled` flag is kept.
- `OnDrawGizmos` (Assets/Scripts/IsDetectionCamera.cs:108-137): debug drawing only.
- Engine geometry and physics: `Physics.OverlapSphere`, `Physics.Raycast`, `GameObject.Find`, `Vector3.magnitude` and `Transform.LookAt`. They are foreign calls on float vectors, so their results are inputs and outputs of the methods. `RangeOfView` and `CircleRadius` only feed the overlap query, so they are not fields. That a target acquired in one frame is not lost in the next when `OutOfRangeDistance` exceeds `RangeOfView + CircleRadius` is geometry and is not stated. How long the ray is, given a direction vector that is not normalised, does not arise because the hit is an input.
- Floating point: distances and the threshold are `real`. NaN and rounding are not modelled.
- Light colours: only red versus green is kept.
- Unity services: coroutine scheduling, `GetComponent`, `AddComponent`, the rule that a destroyed object compares as null, and one `DetectionState` shared by several cameras.
- Init: requires an inspector-assigned `DetectionState` to start at NOTDETECTED or ALERTED. A component set to WITHINRANGE or DETECTED in the editor has no target behind it. With WITHINRANGE, `UpdateTargetDetection` reads a null `CurrentTarget` (Assets/Scripts/IsDetectionCamera.cs:231). With DETECTED, the camera stays DETECTED with nothing to face. The model does not represent that null dereference.
- Init: requires that no target is held yet. That holds at `Start`, the only caller.
- Update: requires the invariant `Valid`, which `Init` establishes and every `Update` keeps; `Start` runs before the first `Update`. Changes made to the shared `DetectionState` by code outside this core are not modelled. `PlayerAlert` is never called by the camera.
