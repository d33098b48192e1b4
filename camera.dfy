/**
 The detection camera component (IsDetectionCamera.cs): a class whose methods
 update the current target, the shared DetectionState, the idle-rotation
 collaborator's enabled flag and the light colour, each proved against the
 value-level step functions of CameraSpec.
 */
module DetectionCamera {
  import opened Wrappers
  import opened Detection
  import opened Rotation
  import opened CameraSpec

  class IsDetectionCamera {
    /** The configured target names, in inspector order. */
    const targets: seq<string>
    /** A DETECTED target farther away than this is lost. */
    const outOfRangeDistance: real
    /** The camera light's colour, or None when no light is assigned. */
    var cameraLight: Option<LightColor>
    /** The awareness level; assigned in the inspector or added by Init. */
    var state: DetectionState?
    /** The sibling idle-rotation component, if there is one. */
    var rotationScript: IsolateRotation?
    /** The resolved targets (the source's tTransform). */
    var resolved: seq<Target>
    var currentTarget: Option<Target>

    /** The idle rotation's enabled flag, None without a collaborator. */
    ghost function RotationFlag(): Option<bool>
      reads this, rotationScript
    {
      if rotationScript == null then None else Some(rotationScript.enabled)
    }

    /** The part of the state one tick reads and writes. */
    ghost function Snap(): Sense
      reads this, state, rotationScript
      requires state != null
    {
      Sense(state.state, currentTarget, RotationFlag())
    }

    ghost predicate Valid()
      reads this, state, rotationScript
    {
      state != null && Inv(Snap(), resolved)
    }

    /** The inspector-set fields; nothing is resolved or held yet. */
    constructor (targets: seq<string>, outOfRangeDistance: real,
                 cameraLight: Option<LightColor>, state: DetectionState?)
      ensures this.targets == targets && this.outOfRangeDistance == outOfRangeDistance
      ensures this.cameraLight == cameraLight && this.state == state
      ensures rotationScript == null && resolved == [] && currentTarget == None
    {
      this.targets := targets;
      this.outOfRangeDistance := outOfRangeDistance;
      this.cameraLight := cameraLight;
      this.state := state;
      rotationScript := null;
      resolved := [];
      currentTarget := None;
    }

    /**
     Start: take the idle-rotation component found beside this one, add a
     DetectionState when none was assigned, then resolve the target names.
     */
    method Init(rotation: IsolateRotation?, find: map<string, Target>)
      requires state != null ==> state.state == NotDetected || state.state == Alerted
      requires currentTarget == None
      modifies this
      ensures Valid()
      ensures rotationScript == rotation && currentTarget == None && cameraLight == old(cameraLight)
      ensures old(state) != null ==> state == old(state) && state.state == old(state.state)
      ensures old(state) == null ==> fresh(state) && state.state == NotDetected
      ensures resolved == old(resolved) + Resolve(targets, find)
    {
      rotationScript := rotation;
      if state == null {
        state := new DetectionState();
      }
      FindTargets(find);
    }

    /** Appends the targets of the names that resolve, in configured order. */
    method FindTargets(find: map<string, Target>)
      modifies this`resolved
      ensures resolved == old(resolved) + Resolve(targets, find)
    {
      for i := 0 to |targets|
        invariant resolved == old(resolved) + Resolve(targets[..i], find)
      {
        var name := targets[i];
        assert targets[..i + 1][..i] == targets[..i];
        if name in find {
          resolved := resolved + [find[name]];
        }
      }
      assert targets[..|targets|] == targets;
    }

    /** Scans the colliders in the scan sphere against the resolved targets by name. */
    method TargetWithinRange(colliders: seq<string>) returns (r: Option<Target>)
      ensures r == FirstMatch(colliders, resolved)
    {
      for i := 0 to |colliders|
        invariant FirstMatch(colliders, resolved) == FirstMatch(colliders[i..], resolved)
      {
        for j := 0 to |resolved|
          invariant FindByName(colliders[i], resolved) == FindByName(colliders[i], resolved[j..])
        {
          if colliders[i] == resolved[j].name {
            return Some(resolved[j]);
          }
          assert resolved[j..][1..] == resolved[j + 1..];
        }
        assert colliders[i..][1..] == colliders[i + 1..];
      }
      return None;
    }

    /** Sets the light red when the level is DETECTED and green otherwise. */
    method UpdateCameraLight()
      modifies this`cameraLight
      ensures cameraLight == if old(cameraLight).Some? && state != null
                             then Some(LightFor(state.state)) else old(cameraLight)
    {
      if cameraLight.Some? && state != null {
        var detected := state.IsPlayerDetected();
        cameraLight := Some(if detected then Red else Green);
      }
    }

    /** The target `LookAt` is called with: the current one, when there is one. */
    method FollowTarget() returns (lookAt: Option<Target>)
      ensures lookAt == currentTarget
    {
      lookAt := None;
      if currentTarget.Some? {
        lookAt := currentTarget;
      }
    }

    /** Acquisition, then promotion to WITHINRANGE or range-based loss. */
    method UpdateDetectionState(colliders: seq<string>, distance: real)
      requires Valid()
      modifies this`currentTarget, state, rotationScript
      ensures Valid()
      ensures Snap() == DetectionStep(old(Snap()), resolved, colliders, distance, outOfRangeDistance)
    {
      var withinRange := state.IsWithinRange();
      var detected := state.IsPlayerDetected();
      if currentTarget.None? && !withinRange && !detected {
        currentTarget := TargetWithinRange(colliders);
      }
      detected := state.IsPlayerDetected();
      if currentTarget.Some? && !detected {
        state.PlayerInRange();
      } else if currentTarget.Some? && detected
             && TargetOutOfRange(currentTarget, distance, outOfRangeDistance) {
        state.PlayerLost();
        currentTarget := None;
        if rotationScript != null && !rotationScript.enabled {
          rotationScript.enabled := true;
        }
      }
    }

    /**
     The line-of-sight test; `hit` names the collider the ray struck first.
     Reading the current target needs one to be held.
     */
    method UpdateTargetDetection(hit: Option<string>)
      requires state != null && currentTarget.Some?
      modifies state, rotationScript
      ensures Snap() == TargetDetection(old(Snap()), hit)
    {
      var target := currentTarget.value;
      if hit.Some? {
        if hit.value == target.name {
          state.PlayerDetected();
          if rotationScript != null {
            rotationScript.enabled := false;
          }
        } else {
          state.PlayerInRange();
          if rotationScript != null && !rotationScript.enabled {
            rotationScript.enabled := true;
          }
        }
      }
    }

    /**
     One frame: the light reflects the level the frame starts with; the level
     is re-evaluated; the ray test runs when WITHINRANGE; the camera then faces
     its target when DETECTED. Returns the target `LookAt` was called with.
     */
    method Update(colliders: seq<string>, distance: real, hit: Option<string>)
      returns (lookAt: Option<Target>)
      requires Valid()
      modifies this`cameraLight, this`currentTarget, state, rotationScript
      ensures Valid()
      ensures Snap() == Tick(old(Snap()), resolved, colliders, distance, outOfRangeDistance, hit)
      ensures lookAt == Facing(Snap())
      ensures cameraLight == if old(cameraLight).Some? then Some(LightFor(old(state.state))) else None
    {
      UpdateCameraLight();
      UpdateDetectionState(colliders, distance);
      var withinRange := state.IsWithinRange();
      if withinRange {
        UpdateTargetDetection(hit);
      }
      var detected := state.IsPlayerDetected();
      lookAt := None;
      if detected {
        lookAt := FollowTarget();
      }
    }
  }
}
