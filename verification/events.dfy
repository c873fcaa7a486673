/** The values that cross the boundary between a sandboxed guest and the
    portal host: the queued host events and the small argument records they
    carry, plus the geometric and colour types shared by the rest of the model.

    The source works with 32-bit floats; this model uses `real` throughout, so
    rounding is not modelled. */
module Events {

  /** An optional value, used for the pending fill colour. */
  datatype Option<T> = None | Some(value: T)

  /** A 2-D point or size. */
  datatype Vec2 = Vec2(x: real, y: real)

  /** An RGBA colour. */
  datatype Color = Rgba(r: real, g: real, b: real, a: real)

  /** The renderer's red, the fill used when no fill style is pending. */
  const Red: Color := Rgba(1.0, 0.0, 0.0, 1.0)

  /** Arguments of a `fill_rect` call. */
  datatype RectArgs = RectArgs(x: real, y: real, width: real, height: real)

  /** Arguments of an `arc` call. */
  datatype ArcArgs = ArcArgs(x: real, y: real, radius: real, sweepAngle: real, xRotation: real)

  /** Arguments of a `cubic_bezier_to` call: two control points and an end point. */
  datatype CubicArgs = CubicArgs(x1: real, y1: real, x2: real, y2: real, x3: real, y3: real)

  /** Arguments of a `label` call; the colour is still the guest's string. */
  datatype LabelArgs = LabelArgs(text: string, x: real, y: real, size: real, color: string)

  /** One queued guest command. */
  datatype HostEvent =
    | Label(labelArgs: LabelArgs)
    | FillStyle(style: string)
    | FillRect(rect: RectArgs)
    | MoveTo(mx: real, my: real)
    | CubicBezierTo(cubic: CubicArgs)
    | BeginPath
    | Arc(arc: ArcArgs)
    | ClosePath
    | Fill
}
