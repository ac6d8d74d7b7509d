// The render transform of a three.js Group or Mesh, which the controllers mutate in place.
module Scene {
  import opened Types

  class Object3D {
    var position: Vec3
    var rotation: Vec3
    var scale: Vec3

    constructor (position: Vec3, rotation: Vec3, scale: Vec3)
      ensures this.position == position && this.rotation == rotation && this.scale == scale
    {
      this.position := position;
      this.rotation := rotation;
      this.scale := scale;
    }
  }
}
