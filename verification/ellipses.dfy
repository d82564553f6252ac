// The body of the `update_ellipse_buffer` listener: one ellipse descriptor
// per particle, in particle order. The renderer's own conversions of these
// records are not part of this model.

module Ellipses {
  import opened Particles

  /** A rectangle given by its size and its centre. */
  datatype SizeAndCenter = SizeAndCenter(sx: real, sy: real, cx: real, cy: real)

  /** A placement area fitted to a resolution with a fixed aspect ratio. */
  datatype FillAspect = FillAspect(
    placementArea: SizeAndCenter,
    centerx: real, centery: real,
    resx: real, resy: real,
    aspect: real)

  /** What the ellipse renderer draws: where, and in which colour. */
  datatype EllipseDescriptor = EllipseDescriptor(sizing: FillAspect, r: real, g: real, b: real, a: real)

  /** The particle a descriptor was made from: its placement and colour read back. */
  function DescribedParticle(e: EllipseDescriptor): (p: Particle)
  {
    var area := e.sizing.placementArea;
    Particle(area.cx, area.cy, e.r, e.g, e.b, area.sx)
  }

  /** The descriptor of particle `p`: a circle of its diameter at its position, opaque, for the given resolution. */
  function Describe(p: Particle, resx: real, resy: real): (e: EllipseDescriptor)
    ensures DescribedParticle(e) == p
    ensures e.sizing.placementArea.sx == e.sizing.placementArea.sy
    ensures e.sizing.centerx == 0.0 && e.sizing.centery == 0.0 && e.sizing.aspect == 1.0
    ensures e.sizing.resx == resx && e.sizing.resy == resy
    ensures e.a == 1.0
  {
    EllipseDescriptor(
      FillAspect(SizeAndCenter(p.diameter, p.diameter, p.x, p.y), 0.0, 0.0, resx, resy, 1.0),
      p.r, p.g, p.b, 1.0)
  }

  /** The buffer the renderer must hold for particles `ps` at resolution `resx` x `resy`. */
  function EllipseBuffer(resx: real, resy: real, ps: seq<Particle>): (buf: seq<EllipseDescriptor>)
    ensures |buf| == |ps|
    ensures forall i :: 0 <= i < |ps| ==> buf[i] == Describe(ps[i], resx, resy)
  {
    if ps == [] then []
    else EllipseBuffer(resx, resy, ps[..|ps| - 1]) + [Describe(ps[|ps| - 1], resx, resy)]
  }

  /** The listener body: pushes one descriptor per particle, in order. */
  method BuildEllipseBuffer(resx: real, resy: real, ps: seq<Particle>) returns (buf: seq<EllipseDescriptor>)
    ensures buf == EllipseBuffer(resx, resy, ps)
  {
    buf := [];
    for i := 0 to |ps|
      invariant |buf| == i
      invariant forall k :: 0 <= k < i ==> buf[k] == Describe(ps[k], resx, resy)
    {
      buf := buf + [Describe(ps[i], resx, resy)];
    }
  }
}
