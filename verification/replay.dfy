/** The path/shape state machine: one drain of the command queue, replayed in
    FIFO order into the primitives of a tick's scene. The state carried across
    events is local to one drain: the pending fill, the pending path and the
    size of the latest rectangle, which starts at -1 by -1. */
module Replay {
  import opened Events

  /** An entry of the pending path. */
  datatype PathCommand =
    | MoveCmd(x: real, y: real)
    | CubicCmd(cubic: CubicArgs)
    | ArcCmd(arc: ArcArgs)
    | Begin
    | Close

  /** A call made on the renderer's path builder. */
  datatype Segment =
    | SegMoveTo(to: Vec2)
    | SegCubicTo(ctrl1: Vec2, ctrl2: Vec2, end: Vec2)
    | SegArc(center: Vec2, radii: Vec2, sweepAngle: real, xRotation: real)
    | SegClose

  /** A renderable primitive of the scene. A rectangle is centre-origin with
      the given extents; a path is the builder calls it was made from. */
  datatype Primitive =
    | RectShape(extents: Vec2, fill: Color)
    | PathShape(segments: seq<Segment>, fill: Color)
    | TextShape(text: string, fontSize: real, color: Color, position: Vec2)

  /** A diagnostic line written while replaying. */
  datatype Diagnostic = PathAlreadyCreated | PathShouldStartFromBegin

  /** The state carried from one event to the next within a drain. */
  datatype Accum = Accum(fill: Option<Color>, path: seq<PathCommand>, w: real, h: real)

  /** The state at the start of every drain. */
  const Initial: Accum := Accum(None, [], -1.0, -1.0)

  /** State after some events, with what they emitted and logged, in order. */
  datatype Output = Output(acc: Accum, emitted: seq<Primitive>, log: seq<Diagnostic>)

  /** The pending fill, or red when none is pending. */
  function FillOrDefault(f: Option<Color>): Color
  {
    match f
    case Some(c) => c
    case None => Red
  }

  /** Whether a pending path may be filled: it must start with a `Begin`. */
  predicate StartsWithBegin(path: seq<PathCommand>)
  {
    |path| > 0 && path[0] == Begin
  }

  /** Builder calls for one path entry. An arc is placed relative to the
      latest rectangle size `w` by `h`: a move to its start, then the arc. */
  function SegmentsOf(c: PathCommand, w: real, h: real): seq<Segment>
  {
    match c
    case ArcCmd(a) =>
      [ SegMoveTo(Vec2(a.x - w / 2.0, a.y + h / 2.0)),
        SegArc(Vec2(a.x + a.radius - w / 2.0, a.y + a.radius + h / 2.0),
               Vec2(a.radius, a.radius), a.sweepAngle, a.xRotation) ]
    case Begin => []
    case Close => [SegClose]
    case MoveCmd(x, y) => [SegMoveTo(Vec2(x, y))]
    case CubicCmd(b) => [SegCubicTo(Vec2(b.x1, b.y1), Vec2(b.x2, b.y2), Vec2(b.x3, b.y3))]
  }

  /** The builder calls for a sequence of path entries, in order. */
  function Build(cmds: seq<PathCommand>, w: real, h: real): seq<Segment>
  {
    if cmds == [] then [] else SegmentsOf(cmds[0], w, h) + Build(cmds[1..], w, h)
  }

  /** One diagnostic for every further `Begin` met while building. */
  function BeginNotes(cmds: seq<PathCommand>): seq<Diagnostic>
  {
    if cmds == [] then []
    else (if cmds[0] == Begin then [PathAlreadyCreated] else []) + BeginNotes(cmds[1..])
  }

  /** Replays one event. */
  function Step(acc: Accum, e: HostEvent, parse: string -> Color): Output
  {
    match e
    case FillStyle(s) => Output(acc.(fill := Some(parse(s))), [], [])
    case FillRect(r) =>
      Output(acc.(fill := None, w := r.width, h := r.height),
             [RectShape(Vec2(r.x + r.width, r.y + r.height), FillOrDefault(acc.fill))], [])
    case BeginPath => Output(acc.(path := acc.path + [Begin]), [], [])
    case Arc(a) => Output(acc.(path := acc.path + [ArcCmd(a)]), [], [])
    case ClosePath => Output(acc.(path := acc.path + [Close]), [], [])
    case Fill =>
      if StartsWithBegin(acc.path) then
        Output(acc.(path := [], fill := None),
               [PathShape(Build(acc.path[1..], acc.w, acc.h), FillOrDefault(acc.fill))],
               BeginNotes(acc.path[1..]))
      else
        Output(acc, [], [PathShouldStartFromBegin])
    case MoveTo(x, y) => Output(acc.(path := acc.path + [MoveCmd(x, y)]), [], [])
    case CubicBezierTo(b) => Output(acc.(path := acc.path + [CubicCmd(b)]), [], [])
    case Label(l) =>
      Output(acc, [TextShape(l.text, l.size, parse(l.color), Vec2(l.x, l.y))], [])
  }

  /** Replays a sequence of events from a given state, in FIFO order. */
  function Run(acc: Accum, events: seq<HostEvent>, parse: string -> Color): Output
    decreases |events|
  {
    if events == [] then Output(acc, [], [])
    else
      var s := Step(acc, events[0], parse);
      var rest := Run(s.acc, events[1..], parse);
      Output(rest.acc, s.emitted + rest.emitted, s.log + rest.log)
  }

  /** One drain of a queue: the replay from the initial state. Whatever path
      is still open at the end is dropped with the rest of the state. */
  function Drain(queue: seq<HostEvent>, parse: string -> Color): Output
  {
    Run(Initial, queue, parse)
  }
}
