/**
 The idle-rotation collaborator (IsolateRotation.cs). Only its enabled flag,
 which the watcher switches, is part of this model.
 */
module Rotation {

  class IsolateRotation {
    var enabled: bool

    constructor (enabled: bool)
      ensures this.enabled == enabled
    {
      this.enabled := enabled;
    }
  }
}
