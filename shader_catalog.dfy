/** The catalog of lens profiles ("expansion shaders") the viewer can be
    started with: for each preset, the camera resolution and the image
    circle (its radii and centre in normalised texture space).
    The vertex/fragment program file names of each preset are not modelled. */
module ShaderCatalog {

  /** The image circle: x and y radius, then the centre's x and y. */
  datatype Circle = Circle(radiusX: real, radiusY: real, centerX: real, centerY: real)

  /** One preset of the catalog. */
  datatype ExpansionShader = ExpansionShader(width: int, height: int, circle: Circle)

  /** The nine presets, in catalog order:
      0 normal camera, 1 normal camera with a rotating view, 2 equirectangular
      panorama, 3 180-degree fisheye, 4 FUJINON 185-degree fisheye,
      5 PIXPRO SP360 4K (stabilised), 6 PIXPRO SP360 4K (unstabilised),
      7 THETA over USB, 8 THETA over HDMI. */
  const ShaderType: seq<ExpansionShader> := [
    ExpansionShader(640, 480, Circle(1.0, 1.0, 0.0, 0.0)),
    ExpansionShader(640, 480, Circle(1.0, 1.0, 0.0, 0.0)),
    ExpansionShader(1280, 720, Circle(1.0, 1.0, 0.0, 0.0)),
    ExpansionShader(1280, 720, Circle(1.570796327, 1.570796327, 0.0, 0.0)),
    ExpansionShader(1280, 1024, Circle(1.797689129, 1.797689129, 0.0, 0.0)),
    ExpansionShader(1440, 1440, Circle(1.797689129, 1.797689129, 0.0, 0.0)),
    ExpansionShader(1440, 1440, Circle(2.050761871, 2.050761871, 0.0, 0.0)),
    ExpansionShader(1280, 720, Circle(1.003, 1.003, 0.0, -0.002)),
    ExpansionShader(1920, 1080, Circle(1.003, 1.003, 0.0, -0.002))
  ]

  /** The catalog holds exactly nine presets. */
  lemma CatalogSize()
    ensures |ShaderType| == 9
  {
  }

  /** Looks up preset `i` (`shader_type[i]`), together with what every
      preset guarantees: a positive resolution, a circular image circle of
      positive radius, radius exactly 1 for the normal and panorama presets,
      radius above 1 for the fisheye presets, centre (0, 0) except for the
      two THETA presets, whose centre is (0, -0.002). */
  function Shader(i: int): (s: ExpansionShader)
    requires 0 <= i < |ShaderType|
    ensures s.width > 0 && s.height > 0
    ensures s.circle.radiusX == s.circle.radiusY && s.circle.radiusX > 0.0
    ensures 0 <= i <= 2 ==> s.circle.radiusX == 1.0
    ensures 3 <= i <= 6 ==> s.circle.radiusX > 1.0
    ensures i <= 6 ==> s.circle.centerX == 0.0 && s.circle.centerY == 0.0
    ensures 7 <= i ==> s.circle.centerX == 0.0 && s.circle.centerY == -0.002
  {
    ShaderType[i]
  }
}
