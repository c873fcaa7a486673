/** The host command interface: the ten functions a guest may call. Each call
    except `print` appends one event to the instance's queue instead of acting
    immediately, and every call succeeds from the guest's point of view. */
module Host {
  import opened Events

  /** What a host function returns to the guest: every host function of the
      interface succeeds, so there is no failing result. */
  datatype HostResult = Ok

  /** The per-instance host context; only its command queue is modelled. */
  datatype Ctx = Ctx(queue: seq<HostEvent>)

  /** One guest call into the host interface, with its arguments. */
  datatype HostCall =
    | Print(fromWasm: string)
    | CallFillStyle(color: string)
    | CallFillRect(x: real, y: real, width: real, height: real)
    | CallBeginPath
    | CallArc(ax: real, ay: real, radius: real, sweepAngle: real, xRotation: real)
    | CallClosePath
    | CallFill
    | CallMoveTo(mx: real, my: real)
    | CallCubicBezierTo(x1: real, y1: real, x2: real, y2: real, x3: real, y3: real)
    | CallLabel(text: string, lx: real, ly: real, size: real, labelColor: string)

  /** The result of a host call: what the guest sees and the updated context. */
  datatype Reply = Reply(result: HostResult, ctx: Ctx)

  /** The call an event records; inverse of the queueing done by `Invoke`. */
  function CallOf(e: HostEvent): (c: HostCall)
    ensures !c.Print?
  {
    match e
    case Label(l) => CallLabel(l.text, l.x, l.y, l.size, l.color)
    case FillStyle(s) => CallFillStyle(s)
    case FillRect(r) => CallFillRect(r.x, r.y, r.width, r.height)
    case MoveTo(x, y) => CallMoveTo(x, y)
    case CubicBezierTo(b) => CallCubicBezierTo(b.x1, b.y1, b.x2, b.y2, b.x3, b.y3)
    case BeginPath => CallBeginPath
    case Arc(a) => CallArc(a.x, a.y, a.radius, a.sweepAngle, a.xRotation)
    case ClosePath => CallClosePath
    case Fill => CallFill
  }

  /** Handles one guest call: `print` only logs, every other call appends
      exactly one event that records the call's arguments. */
  function Invoke(ctx: Ctx, call: HostCall): (r: Reply)
    ensures call.Print? ==> r.ctx == ctx
    ensures !call.Print? ==>
              && |r.ctx.queue| == |ctx.queue| + 1
              && r.ctx.queue[..|ctx.queue|] == ctx.queue
              && CallOf(r.ctx.queue[|ctx.queue|]) == call
  {
    match call
    case Print(_) => Reply(Ok, ctx)
    case CallFillStyle(color) => Reply(Ok, Ctx(ctx.queue + [FillStyle(color)]))
    case CallFillRect(x, y, width, height) =>
      Reply(Ok, Ctx(ctx.queue + [FillRect(RectArgs(x, y, width, height))]))
    case CallBeginPath => Reply(Ok, Ctx(ctx.queue + [BeginPath]))
    case CallArc(x, y, radius, sweepAngle, xRotation) =>
      Reply(Ok, Ctx(ctx.queue + [Arc(ArcArgs(x, y, radius, sweepAngle, xRotation))]))
    case CallClosePath => Reply(Ok, Ctx(ctx.queue + [ClosePath]))
    case CallFill => Reply(Ok, Ctx(ctx.queue + [Fill]))
    case CallMoveTo(x, y) => Reply(Ok, Ctx(ctx.queue + [MoveTo(x, y)]))
    case CallCubicBezierTo(x1, y1, x2, y2, x3, y3) =>
      Reply(Ok, Ctx(ctx.queue + [CubicBezierTo(CubicArgs(x1, y1, x2, y2, x3, y3))]))
    case CallLabel(text, x, y, size, color) =>
      Reply(Ok, Ctx(ctx.queue + [Label(LabelArgs(text, x, y, size, color))]))
  }

  /** Number of `print` calls in a call sequence. */
  function Prints(calls: seq<HostCall>): (n: nat)
    ensures n <= |calls|
  {
    if calls == [] then 0
    else (if calls[0].Print? then 1 else 0) + Prints(calls[1..])
  }

  /** Reference definition of the events a call sequence queues: the calls
      other than `print`, each decoded back to its call, in call order. */
  ghost predicate Records(calls: seq<HostCall>, events: seq<HostEvent>)
  {
    if calls == [] then events == []
    else if calls[0].Print? then Records(calls[1..], events)
    else |events| > 0 && CallOf(events[0]) == calls[0] && Records(calls[1..], events[1..])
  }

  /** The guest making a whole sequence of calls, one after the other. The
      earlier queue is kept as a prefix, one event is added per non-`print`
      call, and the added events are those calls, in order. */
  function Record(ctx: Ctx, calls: seq<HostCall>): (r: Ctx)
    ensures |r.queue| == |ctx.queue| + |calls| - Prints(calls)
    ensures r.queue[..|ctx.queue|] == ctx.queue
    ensures Records(calls, r.queue[|ctx.queue|..])
    decreases |calls|
  {
    if calls == [] then ctx
    else
      var next := Invoke(ctx, calls[0]).ctx;
      var r := Record(next, calls[1..]);
      assert r.queue[..|next.queue|] == next.queue;
      assert r.queue[..|ctx.queue|] == next.queue[..|ctx.queue|];
      assert calls[0].Print? || r.queue[|ctx.queue|..][1..] == r.queue[|next.queue|..];
      r
  }

  /** Recording two call sequences one after the other is recording their
      concatenation: the queue keeps call order across invocations. */
  lemma {:induction false} RecordAppend(ctx: Ctx, a: seq<HostCall>, b: seq<HostCall>)
    ensures Record(ctx, a + b) == Record(Record(ctx, a), b)
    decreases |a|
  {
    if a == [] {
      assert a + b == b;
    } else {
      assert (a + b)[0] == a[0];
      assert (a + b)[1..] == a[1..] + b;
      RecordAppend(Invoke(ctx, a[0]).ctx, a[1..], b);
    }
  }

  /** A call sequence determines the events it queues: no two different
      event sequences record the same calls. */
  lemma {:induction false} RecordsUnique(calls: seq<HostCall>, e1: seq<HostEvent>, e2: seq<HostEvent>)
    requires Records(calls, e1) && Records(calls, e2)
    ensures e1 == e2
    decreases |calls|
  {
    if calls != [] {
      RecordsUnique(calls[1..], if calls[0].Print? then e1 else e1[1..], if calls[0].Print? then e2 else e2[1..]);
      if !calls[0].Print? {
        CallOfInjective(e1[0], e2[0]);
        assert e1 == [e1[0]] + e1[1..];
        assert e2 == [e2[0]] + e2[1..];
      }
    }
  }

  /** Different events record different calls. */
  lemma CallOfInjective(a: HostEvent, b: HostEvent)
    requires CallOf(a) == CallOf(b)
    ensures a == b
  {
  }
}
