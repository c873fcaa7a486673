/** Properties of the replay: FIFO composition, what each kind of event does
    after any history, reference characterisations of the emitted scene, and
    the worked cases of the state machine's quirks. */
module ReplayLemmas {
  import opened Events
  import opened Replay

  /** The output of replaying `first` and then, from where it stopped, `second`. */
  function Then(first: Output, second: Output): Output
  {
    Output(second.acc, first.emitted + second.emitted, first.log + second.log)
  }

  lemma ThenAssoc(x: Output, y: Output, z: Output)
    ensures Then(x, Then(y, z)) == Then(Then(x, y), z)
  {
    assert x.emitted + (y.emitted + z.emitted) == (x.emitted + y.emitted) + z.emitted;
    assert x.log + (y.log + z.log) == (x.log + y.log) + z.log;
  }

  /** A non-empty queue replays as its first step, then the rest. */
  lemma RunUnfold(acc: Accum, events: seq<HostEvent>, parse: string -> Color)
    requires events != []
    ensures Run(acc, events, parse) == Then(Step(acc, events[0], parse), Run(Step(acc, events[0], parse).acc, events[1..], parse))
  {
  }

  /** Replaying a concatenation is replaying its parts in order: the queue is
      consumed strictly front to back. */
  lemma {:induction false} RunAppend(acc: Accum, a: seq<HostEvent>, b: seq<HostEvent>, parse: string -> Color)
    ensures Run(acc, a + b, parse) == Then(Run(acc, a, parse), Run(Run(acc, a, parse).acc, b, parse))
    decreases |a|
  {
    if a == [] {
      assert a + b == b;
      assert Run(acc, a, parse) == Output(acc, [], []);
    } else {
      var s := Step(acc, a[0], parse);
      var r1 := Run(s.acc, a[1..], parse);
      var r2 := Run(r1.acc, b, parse);
      assert (a + b)[0] == a[0];
      assert (a + b)[1..] == a[1..] + b;
      RunUnfold(acc, a + b, parse);
      RunUnfold(acc, a, parse);
      RunAppend(s.acc, a[1..], b, parse);
      ThenAssoc(s, r1, r2);
    }
  }

  /** Number of `FillRect` and `Label` events: those that always emit. */
  function CountShapeEvents(events: seq<HostEvent>): nat
  {
    if events == [] then 0
    else (if events[0].FillRect? || events[0].Label? then 1 else 0) + CountShapeEvents(events[1..])
  }

  /** Every event emits at most one primitive, and every rectangle and label
      emits exactly one. */
  lemma {:induction false} EmittedCount(acc: Accum, events: seq<HostEvent>, parse: string -> Color)
    ensures CountShapeEvents(events) <= |Run(acc, events, parse).emitted| <= |events|
    decreases |events|
  {
    if events != [] {
      EmittedCount(Step(acc, events[0], parse).acc, events[1..], parse);
    }
  }

  /** Replaying a queue that starts with `e` is one step, then the rest. */
  lemma RunCons(acc: Accum, e: HostEvent, rest: seq<HostEvent>, parse: string -> Color)
    ensures Run(acc, [e] + rest, parse) == Then(Step(acc, e, parse), Run(Step(acc, e, parse).acc, rest, parse))
  {
    assert ([e] + rest)[0] == e;
    assert ([e] + rest)[1..] == rest;
  }

  /** Replaying one event is one step. */
  lemma RunOne(acc: Accum, e: HostEvent, parse: string -> Color)
    ensures Run(acc, [e], parse) == Step(acc, e, parse)
  {
    var s := Step(acc, e, parse);
    assert [e][1..] == [];
    assert s.emitted + [] == s.emitted;
    assert s.log + [] == s.log;
  }

  /** The drain of a queue with one more event at its end is the drain of the
      queue followed by one step. */
  lemma DrainSnoc(pre: seq<HostEvent>, e: HostEvent, parse: string -> Color)
    ensures Drain(pre + [e], parse) == Then(Drain(pre, parse), Step(Drain(pre, parse).acc, e, parse))
  {
    RunAppend(Initial, pre, [e], parse);
    RunOne(Drain(pre, parse).acc, e, parse);
  }

  /** A fill style only sets the pending fill to the parsed colour. */
  lemma FillStyleSetsFill(pre: seq<HostEvent>, c: string, parse: string -> Color)
    ensures var d := Drain(pre, parse); var d' := Drain(pre + [FillStyle(c)], parse);
            && d'.emitted == d.emitted && d'.log == d.log
            && d'.acc == d.acc.(fill := Some(parse(c)))
  {
    DrainSnoc(pre, FillStyle(c), parse);
  }

  /** After any history, a `FillRect` emits exactly one rectangle with extents
      (x + width, y + height) in the pending fill or red, remembers its size
      and consumes the pending fill; the pending path is untouched. */
  lemma FillRectEmitsOneRect(pre: seq<HostEvent>, r: RectArgs, parse: string -> Color)
    ensures var d := Drain(pre, parse); var d' := Drain(pre + [FillRect(r)], parse);
            && d'.emitted == d.emitted + [RectShape(Vec2(r.x + r.width, r.y + r.height), FillOrDefault(d.acc.fill))]
            && d'.log == d.log
            && d'.acc.fill == None
            && d'.acc.path == d.acc.path
            && d'.acc.w == r.width && d'.acc.h == r.height
  {
    DrainSnoc(pre, FillRect(r), parse);
  }

  /** `BeginPath` appends a start marker and never resets a path that is
      already pending. */
  lemma BeginPathKeepsPath(pre: seq<HostEvent>, parse: string -> Color)
    ensures var d := Drain(pre, parse); var d' := Drain(pre + [BeginPath], parse);
            && d'.emitted == d.emitted && d'.log == d.log
            && d'.acc == d.acc.(path := d.acc.path + [Begin])
  {
    DrainSnoc(pre, BeginPath, parse);
  }

  /** The path entry a path-building event stands for. */
  function PathEntry(e: HostEvent): PathCommand
    requires e.MoveTo? || e.CubicBezierTo? || e.Arc? || e.ClosePath?
  {
    match e
    case MoveTo(x, y) => MoveCmd(x, y)
    case CubicBezierTo(b) => CubicCmd(b)
    case Arc(a) => ArcCmd(a)
    case ClosePath => Close
  }

  /** A path-building event appends its own entry to the pending path and
      emits nothing; fill and rectangle size are untouched. */
  lemma PathEventAppends(pre: seq<HostEvent>, e: HostEvent, parse: string -> Color)
    requires e.MoveTo? || e.CubicBezierTo? || e.Arc? || e.ClosePath?
    ensures var d := Drain(pre, parse); var d' := Drain(pre + [e], parse);
            && d'.emitted == d.emitted && d'.log == d.log
            && d'.acc == d.acc.(path := d.acc.path + [PathEntry(e)])
  {
    DrainSnoc(pre, e, parse);
  }

  /** A `Fill` on a path that starts with `Begin` emits exactly one path built
      from the remaining entries with the remembered rectangle size, in the
      pending fill or red, and clears both the path and the fill. */
  lemma FillSucceeds(pre: seq<HostEvent>, parse: string -> Color)
    requires StartsWithBegin(Drain(pre, parse).acc.path)
    ensures var d := Drain(pre, parse); var d' := Drain(pre + [Fill], parse);
            && d'.emitted == d.emitted + [PathShape(Build(d.acc.path[1..], d.acc.w, d.acc.h), FillOrDefault(d.acc.fill))]
            && d'.acc == Accum(None, [], d.acc.w, d.acc.h)
            && d'.log == d.log + BeginNotes(d.acc.path[1..])
  {
    DrainSnoc(pre, Fill, parse);
  }

  /** A `Fill` on a path that is empty or does not start with `Begin` emits
      nothing, writes one warning, and leaves path and fill as they were. */
  lemma FillFails(pre: seq<HostEvent>, parse: string -> Color)
    requires !StartsWithBegin(Drain(pre, parse).acc.path)
    ensures var d := Drain(pre, parse); var d' := Drain(pre + [Fill], parse);
            && d'.emitted == d.emitted
            && d'.acc == d.acc
            && d'.log == d.log + [PathShouldStartFromBegin]
  {
    DrainSnoc(pre, Fill, parse);
  }

  /** A `Label` emits exactly one text primitive with its text, size, parsed
      colour and position, and leaves fill, path and rectangle size alone. */
  lemma LabelEmitsText(pre: seq<HostEvent>, l: LabelArgs, parse: string -> Color)
    ensures var d := Drain(pre, parse); var d' := Drain(pre + [Label(l)], parse);
            && d'.emitted == d.emitted + [TextShape(l.text, l.size, parse(l.color), Vec2(l.x, l.y))]
            && d'.acc == d.acc && d'.log == d.log
  {
    DrainSnoc(pre, Label(l), parse);
  }

  // ----- the remembered rectangle size -----

  /** Reference definition: the latest `FillRect` of a queue, if any. */
  function LastRect(events: seq<HostEvent>): Option<RectArgs>
  {
    if events == [] then None
    else if events[|events| - 1].FillRect? then Some(events[|events| - 1].rect)
    else LastRect(events[..|events| - 1])
  }

  /** The size an arc is placed against is the size of the latest `FillRect`
      replayed so far, or -1 by -1 when there was none. */
  lemma {:induction false} SizeIsLastRect(events: seq<HostEvent>, parse: string -> Color)
    ensures var acc := Drain(events, parse).acc;
            match LastRect(events)
            case None => acc.w == -1.0 && acc.h == -1.0
            case Some(r) => acc.w == r.width && acc.h == r.height
    decreases |events|
  {
    if events != [] {
      var pre := events[..|events| - 1];
      var e := events[|events| - 1];
      assert events == pre + [e];
      DrainSnoc(pre, e, parse);
      SizeIsLastRect(pre, parse);
    }
  }

  /** Builder calls of a concatenation are those of its parts, in order. */
  lemma {:induction false} BuildAppend(a: seq<PathCommand>, b: seq<PathCommand>, w: real, h: real)
    ensures Build(a + b, w, h) == Build(a, w, h) + Build(b, w, h)
    decreases |a|
  {
    if a == [] {
      assert a + b == b;
    } else {
      assert (a + b)[0] == a[0];
      assert (a + b)[1..] == a[1..] + b;
      BuildAppend(a[1..], b, w, h);
    }
  }

  lemma BuildCons(c: PathCommand, rest: seq<PathCommand>, w: real, h: real)
    ensures Build([c] + rest, w, h) == SegmentsOf(c, w, h) + Build(rest, w, h)
    ensures BeginNotes([c] + rest) == (if c == Begin then [PathAlreadyCreated] else []) + BeginNotes(rest)
  {
    assert ([c] + rest)[0] == c;
    assert ([c] + rest)[1..] == rest;
  }

  /** The pending path with every `Begin` removed. */
  function WithoutBegins(cmds: seq<PathCommand>): seq<PathCommand>
  {
    if cmds == [] then []
    else (if cmds[0] == Begin then [] else [cmds[0]]) + WithoutBegins(cmds[1..])
  }

  /** Later `Begin` markers contribute nothing to a built path, and each is
      reported once. */
  lemma {:induction false} BuildIgnoresBegins(cmds: seq<PathCommand>, w: real, h: real)
    ensures Build(cmds, w, h) == Build(WithoutBegins(cmds), w, h)
    ensures |BeginNotes(cmds)| + |WithoutBegins(cmds)| == |cmds|
    decreases |cmds|
  {
    if cmds != [] {
      BuildIgnoresBegins(cmds[1..], w, h);
      var head := if cmds[0] == Begin then [] else [cmds[0]];
      BuildAppend(head, WithoutBegins(cmds[1..]), w, h);
      if cmds[0] != Begin {
        assert head[1..] == [];
        assert Build(head, w, h) == SegmentsOf(cmds[0], w, h) + [];
      }
    }
  }

  // ----- reference characterisations of the emitted scene -----

  /** The extents of the rectangles of a scene, in order. */
  function SceneRects(scene: seq<Primitive>): seq<Vec2>
  {
    if scene == [] then []
    else (if scene[0].RectShape? then [scene[0].extents] else []) + SceneRects(scene[1..])
  }

  /** The text primitives of a scene, in order. */
  function Texts(scene: seq<Primitive>): seq<Primitive>
  {
    if scene == [] then []
    else (if scene[0].TextShape? then [scene[0]] else []) + Texts(scene[1..])
  }

  /** The scene without its text primitives. */
  function Shapes(scene: seq<Primitive>): seq<Primitive>
  {
    if scene == [] then []
    else (if scene[0].TextShape? then [] else [scene[0]]) + Shapes(scene[1..])
  }

  lemma {:induction false} SceneRectsAppend(a: seq<Primitive>, b: seq<Primitive>)
    ensures SceneRects(a + b) == SceneRects(a) + SceneRects(b)
    decreases |a|
  {
    if a == [] {
      assert a + b == b;
    } else {
      assert (a + b)[0] == a[0];
      assert (a + b)[1..] == a[1..] + b;
      SceneRectsAppend(a[1..], b);
    }
  }

  lemma {:induction false} TextsAppend(a: seq<Primitive>, b: seq<Primitive>)
    ensures Texts(a + b) == Texts(a) + Texts(b)
    decreases |a|
  {
    if a == [] {
      assert a + b == b;
    } else {
      assert (a + b)[0] == a[0];
      assert (a + b)[1..] == a[1..] + b;
      TextsAppend(a[1..], b);
    }
  }

  lemma {:induction false} ShapesAppend(a: seq<Primitive>, b: seq<Primitive>)
    ensures Shapes(a + b) == Shapes(a) + Shapes(b)
    decreases |a|
  {
    if a == [] {
      assert a + b == b;
    } else {
      assert (a + b)[0] == a[0];
      assert (a + b)[1..] == a[1..] + b;
      ShapesAppend(a[1..], b);
    }
  }

  /** The rectangle extent a single event stands for, if any. */
  function RectExtentOf(e: HostEvent): seq<Vec2>
  {
    if e.FillRect? then [Vec2(e.rect.x + e.rect.width, e.rect.y + e.rect.height)] else []
  }

  /** The extents of the `FillRect` events of a queue, in order. */
  function RectExtents(events: seq<HostEvent>): seq<Vec2>
  {
    if events == [] then [] else RectExtentOf(events[0]) + RectExtents(events[1..])
  }

  /** The text primitive a single event stands for, if any. */
  function LabelTextOf(e: HostEvent, parse: string -> Color): seq<Primitive>
  {
    if e.Label?
    then [TextShape(e.labelArgs.text, e.labelArgs.size, parse(e.labelArgs.color), Vec2(e.labelArgs.x, e.labelArgs.y))]
    else []
  }

  /** The text primitives the `Label` events of a queue describe, in order. */
  function LabelTexts(events: seq<HostEvent>, parse: string -> Color): seq<Primitive>
  {
    if events == [] then [] else LabelTextOf(events[0], parse) + LabelTexts(events[1..], parse)
  }

  lemma StepRectsAndTexts(acc: Accum, e: HostEvent, parse: string -> Color)
    ensures SceneRects(Step(acc, e, parse).emitted) == RectExtentOf(e)
    ensures Texts(Step(acc, e, parse).emitted) == LabelTextOf(e, parse)
  {
    var em := Step(acc, e, parse).emitted;
    if em != [] {
      assert em[1..] == [];
    }
  }

  /** Every `FillRect` of a queue, and nothing else, yields a rectangle, in
      queue order, with extents (x + width, y + height). */
  lemma {:induction false} RectsFollowFillRects(acc: Accum, events: seq<HostEvent>, parse: string -> Color)
    ensures SceneRects(Run(acc, events, parse).emitted) == RectExtents(events)
    decreases |events|
  {
    if events != [] {
      var s := Step(acc, events[0], parse);
      var rest := Run(s.acc, events[1..], parse);
      assert Run(acc, events, parse).emitted == s.emitted + rest.emitted;
      RectsFollowFillRects(s.acc, events[1..], parse);
      SceneRectsAppend(s.emitted, rest.emitted);
      StepRectsAndTexts(acc, events[0], parse);
    }
  }

  /** Every `Label` of a queue, and nothing else, yields a text primitive,
      in queue order. */
  lemma {:induction false} TextsFollowLabels(acc: Accum, events: seq<HostEvent>, parse: string -> Color)
    ensures Texts(Run(acc, events, parse).emitted) == LabelTexts(events, parse)
    decreases |events|
  {
    if events != [] {
      var s := Step(acc, events[0], parse);
      var rest := Run(s.acc, events[1..], parse);
      assert Run(acc, events, parse).emitted == s.emitted + rest.emitted;
      TextsFollowLabels(s.acc, events[1..], parse);
      TextsAppend(s.emitted, rest.emitted);
      StepRectsAndTexts(acc, events[0], parse);
    }
  }

  /** A queue without its `Label` events. */
  function WithoutLabels(events: seq<HostEvent>): seq<HostEvent>
  {
    if events == [] then []
    else (if events[0].Label? then [] else [events[0]]) + WithoutLabels(events[1..])
  }

  lemma StepShapes(acc: Accum, e: HostEvent, parse: string -> Color)
    ensures e.Label? ==> Step(acc, e, parse).acc == acc && Shapes(Step(acc, e, parse).emitted) == []
    ensures !e.Label? ==> Shapes(Step(acc, e, parse).emitted) == Step(acc, e, parse).emitted
  {
    var em := Step(acc, e, parse).emitted;
    if em != [] {
      assert em[1..] == [];
    }
  }

  /** Labels do not interact with shapes: dropping them from a queue leaves
      the final state and every rectangle and path exactly as they were. */
  lemma {:induction false} LabelsIndependent(acc: Accum, events: seq<HostEvent>, parse: string -> Color)
    ensures Run(acc, WithoutLabels(events), parse).emitted == Shapes(Run(acc, events, parse).emitted)
    ensures Run(acc, WithoutLabels(events), parse).acc == Run(acc, events, parse).acc
    decreases |events|
  {
    if events != [] {
      var e := events[0];
      var s := Step(acc, e, parse);
      var rest := Run(s.acc, events[1..], parse);
      var tail := WithoutLabels(events[1..]);
      LabelsIndependent(s.acc, events[1..], parse);
      ShapesAppend(s.emitted, rest.emitted);
      StepShapes(acc, e, parse);
      assert Run(acc, events, parse) == Then(s, rest);
      if e.Label? {
        assert WithoutLabels(events) == tail;
      } else {
        assert WithoutLabels(events) == [e] + tail;
        RunCons(acc, e, tail, parse);
      }
    }
  }

  /** No event of the queue sets a fill style. */
  predicate NoFillStyle(events: seq<HostEvent>)
  {
    forall i :: 0 <= i < |events| ==> !events[i].FillStyle?
  }

  /** Every rectangle and path of the scene is red. */
  predicate AllShapesRed(scene: seq<Primitive>)
  {
    forall i :: 0 <= i < |scene| ==> scene[i].TextShape? || scene[i].fill == Red
  }

  /** Without a fill style, and with no fill pending, every shape uses the
      default red fill. */
  lemma {:induction false} DefaultFillWithoutStyle(acc: Accum, events: seq<HostEvent>, parse: string -> Color)
    requires acc.fill == None
    requires NoFillStyle(events)
    ensures AllShapesRed(Run(acc, events, parse).emitted)
    ensures Run(acc, events, parse).acc.fill == None
    decreases |events|
  {
    if events != [] {
      var s := Step(acc, events[0], parse);
      assert !events[0].FillStyle?;
      assert NoFillStyle(events[1..]) by {
        forall i | 0 <= i < |events[1..]| ensures !events[1..][i].FillStyle? {
          assert events[1..][i] == events[i + 1];
        }
      }
      DefaultFillWithoutStyle(s.acc, events[1..], parse);
    }
  }

  /** Events that only build a pending path or set a pending fill. */
  predicate OnlyPending(events: seq<HostEvent>)
  {
    forall i :: 0 <= i < |events| ==>
      events[i].BeginPath? || events[i].MoveTo? || events[i].CubicBezierTo? ||
      events[i].Arc? || events[i].ClosePath? || events[i].FillStyle?
  }

  lemma {:induction false} PendingEmitsNothing(acc: Accum, events: seq<HostEvent>, parse: string -> Color)
    requires OnlyPending(events)
    ensures Run(acc, events, parse).emitted == [] && Run(acc, events, parse).log == []
    decreases |events|
  {
    if events != [] {
      assert OnlyPending(events[1..]) by {
        forall i | 0 <= i < |events[1..]| ensures events[1..][i] == events[i + 1] { }
      }
      PendingEmitsNothing(Step(acc, events[0], parse).acc, events[1..], parse);
    }
  }

  /** A path still open when the queue runs out is never drawn: such trailing
      events change neither the scene nor the log of the drain. */
  lemma OpenPathDiscarded(pre: seq<HostEvent>, tail: seq<HostEvent>, parse: string -> Color)
    requires OnlyPending(tail)
    ensures Drain(pre + tail, parse).emitted == Drain(pre, parse).emitted
    ensures Drain(pre + tail, parse).log == Drain(pre, parse).log
  {
    RunAppend(Initial, pre, tail, parse);
    PendingEmitsNothing(Drain(pre, parse).acc, tail, parse);
  }

  // ----- worked cases -----

  /** A `Fill` with no `BeginPath` before it emits nothing and warns once. */
  lemma LoneFillWarns(parse: string -> Color)
    ensures Drain([Fill], parse).emitted == []
    ensures Drain([Fill], parse).log == [PathShouldStartFromBegin]
  {
    assert Drain([Fill], parse) == Then(Step(Initial, Fill, parse), Run(Initial, [], parse));
  }

  /** `BeginPath` then `Fill` on an empty path emits one empty path in the
      pending fill, with no warning. */
  lemma EmptyPathFill(pre: seq<HostEvent>, parse: string -> Color)
    requires Drain(pre, parse).acc.path == []
    ensures var d := Drain(pre, parse);
            && Drain(pre + [BeginPath, Fill], parse).emitted == d.emitted + [PathShape([], FillOrDefault(d.acc.fill))]
            && Drain(pre + [BeginPath, Fill], parse).log == d.log
  {
    BeginPathKeepsPath(pre, parse);
    assert pre + [BeginPath, Fill] == (pre + [BeginPath]) + [Fill];
    FillSucceeds(pre + [BeginPath], parse);
  }

  /** `FillRect(10, 10, 20, 20)` twice without a style: two rectangles with
      extents (30, 30), both red. */
  lemma FillRectDefaultRed(parse: string -> Color)
    ensures var r := FillRect(RectArgs(10.0, 10.0, 20.0, 20.0));
            Drain([r, r], parse).emitted == [RectShape(Vec2(30.0, 30.0), Red), RectShape(Vec2(30.0, 30.0), Red)]
  {
    var args := RectArgs(10.0, 10.0, 20.0, 20.0);
    var q1 := [FillRect(args)];
    var q2 := q1 + [FillRect(args)];
    FillRectEmitsOneRect([], args, parse);
    assert [] + [FillRect(args)] == q1;
    FillRectEmitsOneRect(q1, args, parse);
    assert q2 == [FillRect(args), FillRect(args)];
  }

  /** With a style first, only the first of two rectangles takes it: the
      rectangle consumes the pending fill. */
  lemma FillRectConsumesStyle(c: string, parse: string -> Color)
    ensures var r := FillRect(RectArgs(10.0, 10.0, 20.0, 20.0));
            Drain([FillStyle(c), r, r], parse).emitted == [RectShape(Vec2(30.0, 30.0), parse(c)), RectShape(Vec2(30.0, 30.0), Red)]
  {
    var args := RectArgs(10.0, 10.0, 20.0, 20.0);
    var q1 := [FillStyle(c)];
    var q2 := q1 + [FillRect(args)];
    var q3 := q2 + [FillRect(args)];
    FillStyleSetsFill([], c, parse);
    assert [] + [FillStyle(c)] == q1;
    FillRectEmitsOneRect(q1, args, parse);
    FillRectEmitsOneRect(q2, args, parse);
    assert q3 == [FillStyle(c), FillRect(args), FillRect(args)];
  }

  lemma BuildOneArc(a: ArcArgs, w: real, h: real)
    ensures Build([ArcCmd(a)], w, h) == SegmentsOf(ArcCmd(a), w, h)
  {
    BuildCons(ArcCmd(a), [], w, h);
    assert [ArcCmd(a)] + [] == [ArcCmd(a)];
  }

  /** After a rectangle, `BeginPath` and an arc: one rectangle emitted and
      the arc pending after the start marker. */
  lemma OpenArcAfterRect(r1: RectArgs, a: ArcArgs, parse: string -> Color)
    ensures var d := Drain([FillRect(r1), BeginPath, Arc(a)], parse);
            d.acc == Accum(None, [Begin, ArcCmd(a)], r1.width, r1.height) && |d.emitted| == 1
  {
    var q1 := [FillRect(r1)];
    var q2 := q1 + [BeginPath];
    var q3 := q2 + [Arc(a)];
    FillRectEmitsOneRect([], r1, parse);
    assert [] + [FillRect(r1)] == q1;
    BeginPathKeepsPath(q1, parse);
    PathEventAppends(q2, Arc(a), parse);
    assert q3 == [FillRect(r1), BeginPath, Arc(a)];
  }

  /** An arc is offset by the rectangle size current when the path is
      filled, not when the arc was queued. */
  lemma ArcUsesSizeAtFill(a: ArcArgs, r1: RectArgs, r2: RectArgs, parse: string -> Color)
    ensures var scene := Drain([FillRect(r1), BeginPath, Arc(a), FillRect(r2), Fill], parse).emitted;
            && |scene| == 3
            && scene[2] == PathShape(SegmentsOf(ArcCmd(a), r2.width, r2.height), Red)
            && scene[2].segments[0] == SegMoveTo(Vec2(a.x - r2.width / 2.0, a.y + r2.height / 2.0))
  {
    var q3 := [FillRect(r1), BeginPath, Arc(a)];
    var q4 := q3 + [FillRect(r2)];
    OpenArcAfterRect(r1, a, parse);
    FillRectEmitsOneRect(q3, r2, parse);
    FillSucceeds(q4, parse);
    assert [Begin, ArcCmd(a)][1..] == [ArcCmd(a)];
    BuildOneArc(a, r2.width, r2.height);
    assert q4 + [Fill] == [FillRect(r1), BeginPath, Arc(a), FillRect(r2), Fill];
  }

  /** With no rectangle before it, an arc is offset by the -1 by -1 sentinel. */
  lemma ArcWithoutRect(a: ArcArgs, parse: string -> Color)
    ensures Drain([BeginPath, Arc(a), Fill], parse).emitted ==
            [PathShape([SegMoveTo(Vec2(a.x + 0.5, a.y - 0.5)),
                        SegArc(Vec2(a.x + a.radius + 0.5, a.y + a.radius - 0.5), Vec2(a.radius, a.radius), a.sweepAngle, a.xRotation)],
                       Red)]
  {
    var q1 := [BeginPath];
    var q2 := q1 + [Arc(a)];
    var q3 := q2 + [Fill];
    BeginPathKeepsPath([], parse);
    assert [] + [BeginPath] == q1;
    PathEventAppends(q1, Arc(a), parse);
    var d2 := Drain(q2, parse);
    assert d2.acc == Accum(None, [Begin, ArcCmd(a)], -1.0, -1.0);
    assert d2.emitted == [];
    FillSucceeds(q2, parse);
    assert [Begin, ArcCmd(a)][1..] == [ArcCmd(a)];
    BuildOneArc(a, -1.0, -1.0);
    assert Drain(q3, parse).emitted == [PathShape(SegmentsOf(ArcCmd(a), -1.0, -1.0), Red)];
    assert q3 == [BeginPath, Arc(a), Fill];
  }

  lemma BuildMoveBeginClose(x: real, y: real)
    ensures Build([MoveCmd(x, y), Begin, Close], -1.0, -1.0) == [SegMoveTo(Vec2(x, y)), SegClose]
    ensures BeginNotes([MoveCmd(x, y), Begin, Close]) == [PathAlreadyCreated]
  {
    BuildCons(Close, [], -1.0, -1.0);
    assert [Close] + [] == [Close];
    BuildCons(Begin, [Close], -1.0, -1.0);
    assert [Begin] + [Close] == [Begin, Close];
    BuildCons(MoveCmd(x, y), [Begin, Close], -1.0, -1.0);
    assert [MoveCmd(x, y)] + [Begin, Close] == [MoveCmd(x, y), Begin, Close];
  }

  /** The state before the `Fill` of the nested-`BeginPath` case. */
  lemma NestedBeginState(x: real, y: real, parse: string -> Color)
    ensures Drain([BeginPath, MoveTo(x, y), BeginPath, ClosePath], parse) ==
            Output(Accum(None, [Begin, MoveCmd(x, y), Begin, Close], -1.0, -1.0), [], [])
  {
    var q1 := [BeginPath];
    var q2 := q1 + [MoveTo(x, y)];
    var q3 := q2 + [BeginPath];
    var q4 := q3 + [ClosePath];
    BeginPathKeepsPath([], parse);
    assert [] + [BeginPath] == q1;
    PathEventAppends(q1, MoveTo(x, y), parse);
    BeginPathKeepsPath(q2, parse);
    PathEventAppends(q3, ClosePath, parse);
    assert q4 == [BeginPath, MoveTo(x, y), BeginPath, ClosePath];
  }

  /** A second `BeginPath` inside a pending path neither restarts it nor
      adds a segment; it is only reported. */
  lemma NestedBeginIgnored(x: real, y: real, parse: string -> Color)
    ensures Drain([BeginPath, MoveTo(x, y), BeginPath, ClosePath, Fill], parse).emitted ==
            [PathShape([SegMoveTo(Vec2(x, y)), SegClose], Red)]
    ensures Drain([BeginPath, MoveTo(x, y), BeginPath, ClosePath, Fill], parse).log == [PathAlreadyCreated]
  {
    var q4 := [BeginPath, MoveTo(x, y), BeginPath, ClosePath];
    NestedBeginState(x, y, parse);
    FillSucceeds(q4, parse);
    assert [Begin, MoveCmd(x, y), Begin, Close][1..] == [MoveCmd(x, y), Begin, Close];
    BuildMoveBeginClose(x, y);
    assert q4 + [Fill] == [BeginPath, MoveTo(x, y), BeginPath, ClosePath, Fill];
  }

  /** A failed `Fill` does not clear the path, so one stray path command
      before `BeginPath` keeps every later, well-formed path of the same drain
      from being drawn. */
  lemma StrayCommandBlocksLaterPaths(x: real, y: real, parse: string -> Color)
    ensures Drain([MoveTo(x, y), Fill, BeginPath, MoveTo(x, y), ClosePath, Fill], parse).emitted == []
    ensures Drain([MoveTo(x, y), Fill, BeginPath, MoveTo(x, y), ClosePath, Fill], parse).log ==
            [PathShouldStartFromBegin, PathShouldStartFromBegin]
  {
    var q1 := [MoveTo(x, y)];
    var q2 := q1 + [Fill];
    var q3 := q2 + [BeginPath];
    var q4 := q3 + [MoveTo(x, y)];
    var q5 := q4 + [ClosePath];
    var q6 := q5 + [Fill];
    PathEventAppends([], MoveTo(x, y), parse);
    assert [] + [MoveTo(x, y)] == q1;
    assert Drain(q1, parse).acc.path[0] == MoveCmd(x, y);
    FillFails(q1, parse);
    BeginPathKeepsPath(q2, parse);
    PathEventAppends(q3, MoveTo(x, y), parse);
    PathEventAppends(q4, ClosePath, parse);
    assert Drain(q5, parse).acc.path[0] == MoveCmd(x, y);
    FillFails(q5, parse);
    assert q6 == [MoveTo(x, y), Fill, BeginPath, MoveTo(x, y), ClosePath, Fill];
  }
}
