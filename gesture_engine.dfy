/** The frame loop of the gesture-drawing app. Each animation frame the
    hands seen by the tracker are classified and collected into a summary,
    one intent wins by a fixed priority, and the intent is dispatched
    against the loop's state: the current gesture, the start of a palm
    hold, the last drawn point, the undo history and the drawing canvas.
    The canvas is modelled by the marks painted on it; drawing-surface
    operations and on-screen messages are emitted as effects. */
module GestureEngine {
  import opened Options
  import opened Seqs
  import opened GestureClassifier

  /** A point on the canvas, in pixels. */
  datatype Pos = Pos(x: real, y: real)
  /** The size of the video frame, which the canvases are matched to. */
  datatype View = View(width: real, height: real)

  datatype Brush = Normal | Glow | Neon | Spray | Rainbow | ThreeD | Particle
  datatype Pen = Pen(brush: Brush, color: string, size: real)

  /** What drawing leaves on the canvas. */
  datatype Mark =
    | Stroke(from: Pos, to: Pos, pen: Pen)
    | Spatter(at: Pos, pen: Pen)
    | Erasure(at: Pos, radius: real)

  /** The content of the drawing canvas, and of one undo snapshot. */
  type Image = seq<Mark>

  /** What one frame does outside the loop's own state. */
  datatype Effect =
    | Paint(mark: Mark)
    | ClearSurface
    | RestoreSurface(image: Image)
    | ResizeSurface(size: View)
    | HoldRing(elapsed: int)
    | ScheduleSnapshot(delay: nat)
    | Notify(text: string)

  const MaxHistory: nat := 20
  const PalmHoldDuration: int := 3000
  const SnapshotDelay: nat := 1000

  const MsgCountdown: string := "📸 3..2..1.."
  const MsgHoldToClear: string := "🖐️ 保持3秒清空画布"
  const MsgCleared: string := "🗑️ 画布已清空！"
  const MsgDrawing: string := "✏️ 绘画中..."
  const MsgEraser: string := "🧹 橡皮擦"
  const MsgUndoGesture: string := "↩️ 撤销"
  const MsgNothingToUndo: string := "❌ 没有可撤销的操作"
  const MsgUndone: string := "↩️ 撤销成功"

  /** The loop's state. */
  datatype State = State(
    gesture: Gesture,
    palmHoldStart: Option<int>,
    lastPosition: Option<Pos>,
    history: seq<Image>,
    canvas: Image,
    pen: Pen,
    surface: View)

  datatype Outcome = Outcome(state: State, effects: seq<Effect>)

  /** The size a canvas element has before the loop first sizes it. */
  const DefaultSurface: View := View(300.0, 150.0)

  const Initial: State := State(NoGesture, None, None, [], [], Pen(Glow, "#39ff14", 5.0), DefaultSurface)

  // ---------------------------------------------------------------------------
  // The drawing surface

  function ApplyEffect(c: Image, e: Effect): Image
  {
    match e
    case Paint(m) => c + [m]
    case ClearSurface => []
    case RestoreSurface(img) => img
    case ResizeSurface(_) => []
    case _ => c
  }

  /** The canvas a drawing surface ends with after performing `es` on `c`. */
  function Replay(c: Image, es: seq<Effect>): Image
    decreases |es|
  {
    if |es| == 0 then c else Replay(ApplyEffect(c, es[0]), es[1..])
  }

  lemma {:induction false} ReplayAppend(c: Image, a: seq<Effect>, b: seq<Effect>)
    ensures Replay(c, a + b) == Replay(Replay(c, a), b)
    decreases |a|
  {
    if |a| > 0 {
      assert (a + b)[1..] == a[1..] + b;
      ReplayAppend(ApplyEffect(c, a[0]), a[1..], b);
    } else {
      assert a + b == b;
    }
  }

  /** Effects that leave the canvas as it is. */
  predicate KeepsCanvas(e: Effect)
  {
    !e.Paint? && !e.ClearSurface? && !e.RestoreSurface? && !e.ResizeSurface?
  }

  /** Only the first effect of `es` may touch the canvas. */
  lemma {:induction false} ReplayFirst(c: Image, es: seq<Effect>)
    requires forall i :: 0 < i < |es| ==> KeepsCanvas(es[i])
    ensures Replay(c, es) == if |es| == 0 then c else ApplyEffect(c, es[0])
    decreases |es|
  {
    if |es| > 1 {
      ReplayFirst(ApplyEffect(c, es[0]), es[1..]);
    }
  }

  /** The effects of an outcome, performed on the old canvas, give its new canvas. */
  ghost predicate Faithful(st: State, o: Outcome)
  {
    o.state.canvas == Replay(st.canvas, o.effects)
  }

  lemma FaithfulThen(st: State, o1: Outcome, o2: Outcome)
    requires Faithful(st, o1) && Faithful(o1.state, o2)
    ensures Faithful(st, Outcome(o2.state, o1.effects + o2.effects))
  {
    ReplayAppend(st.canvas, o1.effects, o2.effects);
  }

  // ---------------------------------------------------------------------------
  // The canvas operations of the component

  /** `saveToHistory`: the current canvas becomes the newest snapshot and at
      most `MaxHistory` snapshots are kept, the oldest being dropped. */
  function Saved(st: State): (r: State)
    ensures 1 <= |r.history| <= MaxHistory
    ensures r.history[|r.history| - 1] == st.canvas
    ensures r.history[..|r.history| - 1] == KeepLast(st.history, MaxHistory - 1)
    ensures r == st.(history := r.history)
  {
    AppendKeepLast(st.history, st.canvas, MaxHistory);
    st.(history := KeepLast(st.history + [st.canvas], MaxHistory))
  }

  /** `undo`: with an empty history only a message is shown; otherwise the
      newest snapshot is removed and the canvas shows the one now newest,
      or is cleared when none remains. */
  function Undone(st: State): (o: Outcome)
    ensures Faithful(st, o)
    ensures st.history == [] ==> o == Outcome(st, [Notify(MsgNothingToUndo)])
    ensures st.history != [] ==>
      && o.state.history == st.history[..|st.history| - 1]
      && o.state.canvas == (if |st.history| >= 2 then st.history[|st.history| - 2] else [])
      && o.state == st.(history := o.state.history, canvas := o.state.canvas)
      && Notify(MsgUndone) in o.effects
  {
    if |st.history| == 0 then Outcome(st, [Notify(MsgNothingToUndo)])
    else
      var h := st.history[..|st.history| - 1];
      var restore := if |h| > 0 then RestoreSurface(h[|h| - 1]) else ClearSurface;
      ReplayFirst(st.canvas, [restore, Notify(MsgUndone), Notify(MsgUndone)]);
      Outcome(st.(history := h, canvas := ApplyEffect(st.canvas, restore)),
              [restore, Notify(MsgUndone), Notify(MsgUndone)])
  }

  /** Undo right after a save gives back the history as it was before the
      save, and the canvas shows the snapshot of the save before that (a
      blank canvas when there was none), not the canvas that was saved. */
  lemma UndoAfterSave(st: State)
    requires |st.history| < MaxHistory
    ensures Undone(Saved(st)).state.history == st.history
    ensures Undone(Saved(st)).state.canvas
            == if st.history == [] then [] else st.history[|st.history| - 1]
  {
    assert Saved(st).history == st.history + [st.canvas];
    assert (st.history + [st.canvas])[..|st.history|] == st.history;
  }

  /** The brushes that scatter dots around the point instead of joining it
      to the previous one. */
  predicate Scatters(b: Brush)
  {
    b == Spray || b == Particle
  }

  /** `draw`: a stroke from the last point is painted only if there is one;
      the scattering brushes paint around the point and keep the last point. */
  function Drawn(st: State, at: Pos): (o: Outcome)
    ensures Faithful(st, o)
    ensures o.state == st.(canvas := o.state.canvas, lastPosition := o.state.lastPosition)
    ensures st.lastPosition.None? ==> o.state.lastPosition == Some(at) && o.effects == []
    ensures st.lastPosition.Some? && Scatters(st.pen.brush) ==>
      o.state.lastPosition == st.lastPosition && o.effects == [Paint(Spatter(at, st.pen))]
    ensures st.lastPosition.Some? && !Scatters(st.pen.brush) ==>
      o.state.lastPosition == Some(at) && o.effects == [Paint(Stroke(st.lastPosition.value, at, st.pen))]
    ensures forall e :: e in o.effects ==> e.Paint?
  {
    match st.lastPosition
    case None => Outcome(st.(lastPosition := Some(at)), [])
    case Some(from) =>
      if Scatters(st.pen.brush) then
        var m := Spatter(at, st.pen);
        Outcome(st.(canvas := st.canvas + [m]), [Paint(m)])
      else
        var m := Stroke(from, at, st.pen);
        Outcome(st.(canvas := st.canvas + [m], lastPosition := Some(at)), [Paint(m)])
  }

  /** `erase`: a hole of twice the brush size at the point. */
  function Erased(st: State, at: Pos): (o: Outcome)
    ensures Faithful(st, o)
    ensures o.effects == [Paint(Erasure(at, st.pen.size * 2.0))]
    ensures o.state == st.(canvas := o.state.canvas)
  {
    var m := Erasure(at, st.pen.size * 2.0);
    Outcome(st.(canvas := st.canvas + [m]), [Paint(m)])
  }

  // ---------------------------------------------------------------------------
  // Collecting the hands of one frame

  predicate AllHands(hands: seq<seq<Landmark>>)
  {
    forall i :: 0 <= i < |hands| ==> IsHand(hands[i])
  }

  /** Where a hand's index fingertip lands on the mirrored canvas. */
  function CursorOf(lm: seq<Landmark>, view: View): Pos
    requires IsHand(lm)
  {
    Pos((1.0 - lm[IndexTip].x) * view.width, lm[IndexTip].y * view.height)
  }

  /** The frame's collected hand states. */
  datatype Summary = Summary(
    pinchAt: Option<Pos>,
    fistAt: Option<Pos>,
    peaceCount: nat,
    palm: bool,
    thumbsUp: bool)

  /** One hand's contribution: the first pinch and the first fist keep their
      position, peace hands are counted, palm and thumbs-up are flags. */
  function AddHand(s: Summary, g: Gesture, at: Pos): Summary
  {
    if g == Pinch then (if s.pinchAt.None? then s.(pinchAt := Some(at)) else s)
    else if g == Fist then (if s.fistAt.None? then s.(fistAt := Some(at)) else s)
    else if g == Peace then s.(peaceCount := s.peaceCount + 1)
    else if g == Palm then s.(palm := true)
    else if g == ThumbsUp then s.(thumbsUp := true)
    else s
  }

  /** The summary of the hands in detection order. */
  function Summarize(hands: seq<seq<Landmark>>, view: View): (s: Summary)
    requires AllHands(hands)
    ensures s.peaceCount <= |hands|
    ensures |hands| == 0 ==> s == Summary(None, None, 0, false, false)
    decreases |hands|
  {
    if |hands| == 0 then Summary(None, None, 0, false, false)
    else
      var k := |hands| - 1;
      AddHand(Summarize(hands[..k], view), Classify(hands[k]), CursorOf(hands[k], view))
  }

  /** Hand `i` is the first hand classified as `g`. */
  ghost predicate FirstHandWith(hands: seq<seq<Landmark>>, g: Gesture, i: int)
    requires AllHands(hands)
  {
    0 <= i < |hands| && Classify(hands[i]) == g
    && forall j :: 0 <= j < i ==> Classify(hands[j]) != g
  }

  ghost predicate AnyHand(hands: seq<seq<Landmark>>, g: Gesture)
    requires AllHands(hands)
  {
    exists i :: 0 <= i < |hands| && Classify(hands[i]) == g
  }

  /** The number of hands classified as `g`. */
  function CountHands(hands: seq<seq<Landmark>>, g: Gesture): nat
    requires AllHands(hands)
    decreases |hands|
  {
    if |hands| == 0 then 0
    else CountHands(hands[..|hands| - 1], g) + (if Classify(hands[|hands| - 1]) == g then 1 else 0)
  }

  function FirstAt(s: Summary, g: Gesture): Option<Pos>
  {
    if g == Pinch then s.pinchAt else s.fistAt
  }

  /** One hand keeps an earlier first pinch (fist) and otherwise supplies its own. */
  lemma AddHandFirst(s: Summary, h: Gesture, at: Pos, g: Gesture)
    requires g == Pinch || g == Fist
    ensures FirstAt(AddHand(s, h, at), g)
      == if FirstAt(s, g).Some? then FirstAt(s, g) else if h == g then Some(at) else None
  {
  }

  /** One hand sets the palm (thumbs-up) flag exactly when it shows that gesture. */
  lemma AddHandFlag(s: Summary, h: Gesture, at: Pos, g: Gesture)
    requires g == Palm || g == ThumbsUp
    ensures FlagOf(AddHand(s, h, at), g) == (FlagOf(s, g) || h == g)
  {
  }

  /** The summary records the position of the first pinch (fist) hand, and
      records none exactly when no hand pinches (makes a fist). */
  lemma {:induction false} SummarizeFirst(hands: seq<seq<Landmark>>, view: View, g: Gesture)
    requires AllHands(hands) && (g == Pinch || g == Fist)
    ensures FirstAt(Summarize(hands, view), g).None? <==> !AnyHand(hands, g)
    ensures FirstAt(Summarize(hands, view), g).Some? ==>
      exists i :: FirstHandWith(hands, g, i)
        && FirstAt(Summarize(hands, view), g).value == CursorOf(hands[i], view)
    decreases |hands|
  {
    if |hands| > 0 {
      var k := |hands| - 1;
      var pre := hands[..k];
      assert AllHands(pre);
      SummarizeFirst(pre, view, g);
      assert forall i :: 0 <= i < k ==> pre[i] == hands[i];
      var s := Summarize(pre, view);
      var h := Classify(hands[k]);
      assert Summarize(hands, view) == AddHand(s, h, CursorOf(hands[k], view));
      AddHandFirst(s, h, CursorOf(hands[k], view), g);
      if FirstAt(s, g).Some? {
        var i :| FirstHandWith(pre, g, i) && FirstAt(s, g).value == CursorOf(pre[i], view);
        assert FirstHandWith(hands, g, i);
      } else if h == g {
        assert FirstHandWith(hands, g, k);
      } else {
        assert forall i :: 0 <= i < |hands| ==> Classify(hands[i]) != g by {
          forall i | 0 <= i < |hands| ensures Classify(hands[i]) != g {
            if i < k { assert !AnyHand(pre, g); assert pre[i] == hands[i]; }
          }
        }
      }
    }
  }

  /** The summary counts the peace hands. */
  lemma {:induction false} SummarizePeace(hands: seq<seq<Landmark>>, view: View)
    requires AllHands(hands)
    ensures Summarize(hands, view).peaceCount == CountHands(hands, Peace)
    decreases |hands|
  {
    if |hands| > 0 {
      var pre := hands[..|hands| - 1];
      assert AllHands(pre);
      SummarizePeace(pre, view);
    }
  }

  function FlagOf(s: Summary, g: Gesture): bool
  {
    if g == Palm then s.palm else s.thumbsUp
  }

  /** The summary flags palm (thumbs-up) exactly when some hand shows it. */
  lemma {:induction false} SummarizeFlag(hands: seq<seq<Landmark>>, view: View, g: Gesture)
    requires AllHands(hands) && (g == Palm || g == ThumbsUp)
    ensures FlagOf(Summarize(hands, view), g) <==> AnyHand(hands, g)
    decreases |hands|
  {
    if |hands| > 0 {
      var k := |hands| - 1;
      var pre := hands[..k];
      assert AllHands(pre);
      SummarizeFlag(pre, view, g);
      var h := Classify(hands[k]);
      assert Summarize(hands, view) == AddHand(Summarize(pre, view), h, CursorOf(hands[k], view));
      AddHandFlag(Summarize(pre, view), h, CursorOf(hands[k], view), g);
      if AnyHand(pre, g) {
        var i :| 0 <= i < k && Classify(pre[i]) == g;
        assert pre[i] == hands[i];
      }
      if AnyHand(hands, g) && h != g {
        var i :| 0 <= i < |hands| && Classify(hands[i]) == g;
        assert i < k && pre[i] == hands[i];
      }
    }
  }

  // ---------------------------------------------------------------------------
  // Choosing and dispatching the frame's intent

  datatype Intent =
    | TakeSnapshot
    | HoldToClear
    | DrawAt(at: Pos)
    | EraseAt(at: Pos)
    | UndoLast
    | Idle

  /** Double peace, then palm, then pinch, then fist, then thumbs-up. */
  function Decide(s: Summary): (r: Intent)
    ensures r.DrawAt? ==> s.pinchAt == Some(r.at)
    ensures r.EraseAt? ==> s.fistAt == Some(r.at)
    ensures r.Idle? <==> s.peaceCount < 2 && !s.palm && s.pinchAt.None? && s.fistAt.None? && !s.thumbsUp
  {
    if s.peaceCount >= 2 then TakeSnapshot
    else if s.palm then HoldToClear
    else if s.pinchAt.Some? then DrawAt(s.pinchAt.value)
    else if s.fistAt.Some? then EraseAt(s.fistAt.value)
    else if s.thumbsUp then UndoLast
    else Idle
  }

  /** The frame priority, stated over the hands: two or more peace hands
      give a snapshot; otherwise any palm holds to clear; otherwise the first
      pinching hand draws; otherwise the first fist erases; otherwise a
      thumbs-up undoes; otherwise nothing. */
  lemma FramePriority(hands: seq<seq<Landmark>>, view: View)
    requires AllHands(hands)
    ensures var d := Decide(Summarize(hands, view));
      && (d.TakeSnapshot? <==> CountHands(hands, Peace) >= 2)
      && (d.HoldToClear? <==> CountHands(hands, Peace) < 2 && AnyHand(hands, Palm))
      && (d.DrawAt? <==> CountHands(hands, Peace) < 2 && !AnyHand(hands, Palm) && AnyHand(hands, Pinch))
      && (d.DrawAt? ==> exists i :: FirstHandWith(hands, Pinch, i) && d.at == CursorOf(hands[i], view))
      && (d.EraseAt? <==> (CountHands(hands, Peace) < 2 && !AnyHand(hands, Palm)
                           && !AnyHand(hands, Pinch) && AnyHand(hands, Fist)))
      && (d.EraseAt? ==> exists i :: FirstHandWith(hands, Fist, i) && d.at == CursorOf(hands[i], view))
      && (d.UndoLast? <==> (CountHands(hands, Peace) < 2 && !AnyHand(hands, Palm)
                            && !AnyHand(hands, Pinch) && !AnyHand(hands, Fist) && AnyHand(hands, ThumbsUp)))
      && (d.Idle? <==> (CountHands(hands, Peace) < 2 && !AnyHand(hands, Palm) && !AnyHand(hands, Pinch)
                        && !AnyHand(hands, Fist) && !AnyHand(hands, ThumbsUp)))
  {
    SummarizeFirst(hands, view, Pinch);
    SummarizeFirst(hands, view, Fist);
    SummarizePeace(hands, view);
    SummarizeFlag(hands, view, Palm);
    SummarizeFlag(hands, view, ThumbsUp);
  }

  /** Double peace: the snapshot is scheduled only on entry. */
  function SnapshotFrame(st: State): (o: Outcome)
    ensures Faithful(st, o)
    ensures st.gesture != Snapshot ==>
      o == Outcome(st.(gesture := Snapshot), [Notify(MsgCountdown), ScheduleSnapshot(SnapshotDelay)])
    ensures st.gesture == Snapshot ==> o == Outcome(st, [])
  {
    ReplayFirst(st.canvas, [Notify(MsgCountdown), ScheduleSnapshot(SnapshotDelay)]);
    if st.gesture != Snapshot then
      Outcome(st.(gesture := Snapshot), [Notify(MsgCountdown), ScheduleSnapshot(SnapshotDelay)])
    else Outcome(st, [])
  }

  /** Palm: the first frame starts the hold; a later frame at least
      `PalmHoldDuration` after the start clears the canvas and ends the hold;
      in between, the progress ring is shown. Nothing else changes. */
  function PalmFrame(st: State, now: int): (o: Outcome)
    ensures Faithful(st, o)
    ensures o.state == st.(palmHoldStart := o.state.palmHoldStart, canvas := o.state.canvas)
    ensures st.palmHoldStart.None? ==>
      o.state.palmHoldStart == Some(now) && o.effects == [Notify(MsgHoldToClear)]
    ensures st.palmHoldStart.Some? && now - st.palmHoldStart.value < PalmHoldDuration ==>
      o.state == st && o.effects == [HoldRing(now - st.palmHoldStart.value)]
    ensures st.palmHoldStart.Some? && now - st.palmHoldStart.value >= PalmHoldDuration ==>
      o.state.palmHoldStart.None? && o.state.canvas == [] && ClearSurface in o.effects
    ensures ClearSurface in o.effects <==>
      st.palmHoldStart.Some? && now - st.palmHoldStart.value >= PalmHoldDuration
  {
    match st.palmHoldStart
    case None => Outcome(st.(palmHoldStart := Some(now)), [Notify(MsgHoldToClear)])
    case Some(start) =>
      if now - start < PalmHoldDuration then Outcome(st, [HoldRing(now - start)])
      else
        ReplayFirst(st.canvas, [ClearSurface, Notify(MsgCleared)]);
        Outcome(st.(canvas := [], palmHoldStart := None), [ClearSurface, Notify(MsgCleared)])
  }

  /** Pinch: the hold ends; entering pinch saves the canvas to the history;
      then the point is drawn. */
  function PinchFrame(st: State, at: Pos): (o: Outcome)
    ensures Faithful(st, o)
    ensures o.state.palmHoldStart.None? && o.state.gesture == Pinch
    ensures o.state.history == if st.gesture != Pinch then Saved(st).history else st.history
    ensures var d := Drawn(st, at);
      o.state.lastPosition == d.state.lastPosition && o.state.canvas == d.state.canvas
    ensures o.effects == (if st.gesture != Pinch then [Notify(MsgDrawing)] else []) + Drawn(st, at).effects
  {
    var held := st.(palmHoldStart := None);
    var entered := if st.gesture != Pinch then Outcome(Saved(held).(gesture := Pinch), [Notify(MsgDrawing)])
                   else Outcome(held, []);
    var d := Drawn(entered.state, at);
    FaithfulThen(st, entered, d);
    Outcome(d.state, entered.effects + d.effects)
  }

  /** Fist: the hold ends, entering fist shows a message, the point is erased
      and the last point is forgotten. */
  function FistFrame(st: State, at: Pos): (o: Outcome)
    ensures Faithful(st, o)
    ensures o.state == st.(palmHoldStart := None, lastPosition := None, gesture := Fist,
                           canvas := st.canvas + [Erasure(at, st.pen.size * 2.0)])
    ensures o.effects == (if st.gesture != Fist then [Notify(MsgEraser)] else [])
                         + [Paint(Erasure(at, st.pen.size * 2.0))]
  {
    var held := st.(palmHoldStart := None);
    var entered := if st.gesture != Fist then Outcome(held.(gesture := Fist), [Notify(MsgEraser)])
                   else Outcome(held, []);
    var e := Erased(entered.state, at);
    FaithfulThen(st, entered, e);
    Outcome(e.state.(lastPosition := None), entered.effects + e.effects)
  }

  /** Thumbs-up: the hold ends and the last point is forgotten; only on entry
      is the last action undone. */
  function ThumbsUpFrame(st: State): (o: Outcome)
    ensures Faithful(st, o)
    ensures o.state.palmHoldStart.None? && o.state.lastPosition.None? && o.state.gesture == ThumbsUp
    ensures st.gesture == ThumbsUp ==>
      o == Outcome(st.(palmHoldStart := None, lastPosition := None), [])
    ensures st.gesture != ThumbsUp ==>
      var u := Undone(st);
      && o.state.history == u.state.history && o.state.canvas == u.state.canvas
      && o.effects == u.effects + [Notify(MsgUndoGesture)]
  {
    var reset := st.(palmHoldStart := None, lastPosition := None);
    if st.gesture != ThumbsUp then
      var u := Undone(reset);
      ReplayAppend(st.canvas, u.effects, [Notify(MsgUndoGesture)]);
      ReplayFirst(u.state.canvas, [Notify(MsgUndoGesture)]);
      Outcome(u.state.(gesture := ThumbsUp), u.effects + [Notify(MsgUndoGesture)])
    else Outcome(reset, [])
  }

  /** No gesture: the hold ends and the last point is forgotten; a stored
      snapshot gesture is kept, any other becomes none. */
  function IdleFrame(st: State): (o: Outcome)
    ensures o.effects == []
    ensures o.state == st.(palmHoldStart := None, lastPosition := None,
                           gesture := if st.gesture == Snapshot then Snapshot else NoGesture)
  {
    var reset := st.(palmHoldStart := None, lastPosition := None);
    if st.gesture != NoGesture && st.gesture != Snapshot then Outcome(reset.(gesture := NoGesture), [])
    else Outcome(reset, [])
  }

  function Dispatch(st: State, intent: Intent, now: int): (o: Outcome)
    ensures Faithful(st, o)
  {
    match intent
    case TakeSnapshot => SnapshotFrame(st)
    case HoldToClear => PalmFrame(st, now)
    case DrawAt(at) => PinchFrame(st, at)
    case EraseAt(at) => FistFrame(st, at)
    case UndoLast => ThumbsUpFrame(st)
    case Idle => IdleFrame(st)
  }

  /** Matching the canvases to the video: a size change resizes the drawing
      canvas, which blanks it; the undo history is left as it was. */
  function Resized(st: State, video: View): (o: Outcome)
    ensures Faithful(st, o)
    ensures o.state.surface == video
    ensures o.state.history == st.history
    ensures st.surface == video ==> o == Outcome(st, [])
    ensures st.surface != video ==> o.state == st.(surface := video, canvas := [])
  {
    if st.surface != video then Outcome(st.(surface := video, canvas := []), [ResizeSurface(video)])
    else Outcome(st, [])
  }

  /** One animation frame: size the canvases to the video, then act on the
      hands, whose cursors are placed on the resized canvas. */
  function Step(st: State, hands: seq<seq<Landmark>>, now: int, video: View): (o: Outcome)
    requires AllHands(hands)
    ensures Faithful(st, o)
    ensures o.state.surface == video
  {
    var r := Resized(st, video);
    var d := Dispatch(r.state, Decide(Summarize(hands, video)), now);
    FaithfulThen(st, r, d);
    SurfaceKept(r.state, Decide(Summarize(hands, video)), now);
    Outcome(d.state, r.effects + d.effects)
  }

  /** No branch of the frame changes the canvas size. */
  lemma SurfaceKept(st: State, intent: Intent, now: int)
    ensures Dispatch(st, intent, now).state.surface == st.surface
  {
  }

  /** A frame whose video size differs from the canvas starts from a blank
      drawing, with the history untouched; at a steady size the frame is
      just the hands' action. */
  lemma ResizeBlanks(st: State, hands: seq<seq<Landmark>>, now: int, video: View)
    requires AllHands(hands)
    ensures var o := Step(st, hands, now, video);
      var d := Dispatch(Resized(st, video).state, Decide(Summarize(hands, video)), now);
      && o.state == d.state
      && (st.surface != video ==> Resized(st, video).state.canvas == [] && o.effects[0] == ResizeSurface(video))
      && (st.surface == video ==> o == Dispatch(st, Decide(Summarize(hands, video)), now))
  {
    var r := Resized(st, video);
    if st.surface == video {
      assert r.effects == [];
      assert [] + Dispatch(st, Decide(Summarize(hands, video)), now).effects
        == Dispatch(st, Decide(Summarize(hands, video)), now).effects;
    }
  }

  // ---------------------------------------------------------------------------
  // Properties of one frame that span the branches

  /** The palm hold survives only palm and snapshot frames; a snapshot frame
      leaves it as it was. */
  lemma HoldResets(st: State, intent: Intent, now: int)
    ensures var o := Dispatch(st, intent, now);
      && (!intent.HoldToClear? && !intent.TakeSnapshot? ==> o.state.palmHoldStart.None?)
      && (intent.TakeSnapshot? ==> o.state.palmHoldStart == st.palmHoldStart)
      && (ClearSurface in o.effects && st.history == [] ==> intent.HoldToClear?)
  {
    if intent.DrawAt? {
      assert ClearSurface !in Drawn(st, intent.at).effects;
    }
  }

  /** Edge triggers: the snapshot is scheduled only on entry to the snapshot
      gesture, the history is pushed only on entry to pinch and popped only
      on entry to thumbs-up, and the no-gesture branch keeps a snapshot gesture. */
  lemma EdgeTriggers(st: State, intent: Intent, now: int)
    ensures var o := Dispatch(st, intent, now);
      && (ScheduleSnapshot(SnapshotDelay) in o.effects <==> intent.TakeSnapshot? && st.gesture != Snapshot)
      && (o.state.history != st.history ==>
            (intent.DrawAt? && st.gesture != Pinch) || (intent.UndoLast? && st.gesture != ThumbsUp))
      && (intent.DrawAt? && st.gesture != Pinch ==> o.state.history == Saved(st).history)
      && (intent.UndoLast? && st.gesture != ThumbsUp ==> o.state.history == Undone(st).state.history)
      && (intent.Idle? && st.gesture == Snapshot ==> o.state.gesture == Snapshot)
      && (intent.HoldToClear? ==> o.state.gesture == st.gesture)
  {
    var o := Dispatch(st, intent, now);
    if intent.DrawAt? {
      assert ScheduleSnapshot(SnapshotDelay) !in Drawn(st, intent.at).effects;
    }
    if intent.UndoLast? && st.gesture != ThumbsUp {
      assert ScheduleSnapshot(SnapshotDelay) !in Undone(st.(palmHoldStart := None, lastPosition := None)).effects;
    }
  }

  /** The last point: set by drawing (kept by the scattering brushes once set),
      kept by palm and snapshot frames, forgotten by every other frame. A
      stroke is painted only from a remembered point. */
  lemma LastPositionUpdates(st: State, intent: Intent, now: int)
    ensures var o := Dispatch(st, intent, now);
      && (intent.EraseAt? || intent.UndoLast? || intent.Idle? ==> o.state.lastPosition.None?)
      && (intent.TakeSnapshot? || intent.HoldToClear? ==> o.state.lastPosition == st.lastPosition)
      && (intent.DrawAt? ==>
            o.state.lastPosition
            == (if st.lastPosition.Some? && Scatters(st.pen.brush) then st.lastPosition else Some(intent.at)))
      && (intent.DrawAt? && st.lastPosition.Some? && !Scatters(st.pen.brush) ==>
            Paint(Stroke(st.lastPosition.value, intent.at, st.pen)) in o.effects)
      && (forall m :: Paint(m) in o.effects && m.Stroke? ==>
            intent.DrawAt? && st.lastPosition == Some(m.from) && m.to == intent.at)
  {
    match intent
    case DrawAt(at) =>
      var d := Drawn(st, at);
      var pre: seq<Effect> := if st.gesture != Pinch then [Notify(MsgDrawing)] else [];
      assert PinchFrame(st, at).effects == pre + d.effects;
      assert forall m :: Paint(m) in pre + d.effects ==> Paint(m) in d.effects;
    case UndoLast =>
      if st.gesture != ThumbsUp {
        var u := Undone(st.(palmHoldStart := None, lastPosition := None));
        assert forall m :: Paint(m) !in u.effects;
      }
    case _ =>
  }

  // ---------------------------------------------------------------------------
  // The color and brush cycling of the gesture action handler

  datatype Swatch = Swatch(name: string, value: string)

  const Palette: seq<Swatch> := [
    Swatch("Neon Green", "#39ff14"),
    Swatch("Hot Pink", "#ff10f0"),
    Swatch("Electric Blue", "#00ffff"),
    Swatch("Laser Red", "#ff0040"),
    Swatch("Toxic Yellow", "#ffff00"),
    Swatch("Purple Haze", "#b000ff"),
    Swatch("White", "#ffffff")
  ]

  const BrushCycle: seq<Brush> := [Normal, Glow, Neon, Spray, Rainbow, ThreeD, Particle]

  /** `findIndex` over the palette by value: -1 when absent. */
  function PaletteIndex(color: string, from: nat): (i: int)
    requires from <= |Palette|
    ensures -1 <= i < |Palette|
    ensures i >= 0 ==> (from <= i && Palette[i].value == color
                        && forall j :: from <= j < i ==> Palette[j].value != color)
    ensures i == -1 ==> forall j :: from <= j < |Palette| ==> Palette[j].value != color
    decreases |Palette| - from
  {
    if from == |Palette| then -1
    else if Palette[from].value == color then from
    else PaletteIndex(color, from + 1)
  }

  /** The colour after `color`: the palette's next entry, cyclically;
      a colour not in the palette is followed by the first entry. */
  function NextColor(color: string): (s: Swatch)
    ensures s in Palette
    ensures forall i :: 0 <= i < |Palette| && Palette[i].value == color ==>
      s == Palette[(i + 1) % |Palette|]
    ensures (forall i :: 0 <= i < |Palette| ==> Palette[i].value != color) ==> s == Palette[0]
  {
    var i := PaletteIndex(color, 0);
    NextColorFound(color, i);
    Palette[(i + 1) % |Palette|]
  }

  /** The position `findIndex` gives is the only one holding `color`. */
  lemma NextColorFound(color: string, i: int)
    requires i == PaletteIndex(color, 0)
    ensures forall k :: 0 <= k < |Palette| && Palette[k].value == color ==> k == i
  {
    PaletteIndexOfEach();
  }

  /** Each palette value is found at its own position: the values are distinct. */
  lemma PaletteIndexOfEach()
    ensures forall i :: 0 <= i < |Palette| ==> PaletteIndex(Palette[i].value, 0) == i
  {
    forall i | 0 <= i < |Palette|
      ensures PaletteIndex(Palette[i].value, 0) == i
    {
      var c := Palette[i].value;
      forall j | 0 <= j < |Palette| && j != i
        ensures Palette[j].value != c
      {
        assert Palette[j].value[1..] != c[1..];
      }
    }
  }

  /** `brushTypes.indexOf`: every brush is in the cycle. */
  function BrushIndex(b: Brush): (i: nat)
    ensures i < |BrushCycle| && BrushCycle[i] == b
  {
    match b
    case Normal => 0
    case Glow => 1
    case Neon => 2
    case Spray => 3
    case Rainbow => 4
    case ThreeD => 5
    case Particle => 6
  }

  /** The brush after `b`: one place further in `BrushCycle`, wrapping around. */
  function NextBrush(b: Brush): (r: Brush)
    ensures BrushIndex(r) == (BrushIndex(b) + 1) % |BrushCycle|
  {
    match b
    case Normal => Glow
    case Glow => Neon
    case Neon => Spray
    case Spray => Rainbow
    case Rainbow => ThreeD
    case ThreeD => Particle
    case Particle => Normal
  }

  /** The brush after `k` peace actions. */
  function AdvanceBrush(b: Brush, k: nat): Brush
    decreases k
  {
    if k == 0 then b else NextBrush(AdvanceBrush(b, k - 1))
  }

  /** `k` actions move `k` places around the cycle: seven bring the brush
      back, and every brush is reached from every other. */
  lemma {:induction false} AdvanceBrushIndex(b: Brush, k: nat)
    ensures BrushIndex(AdvanceBrush(b, k)) == (BrushIndex(b) + k) % |BrushCycle|
    decreases k
  {
    if k > 0 {
      AdvanceBrushIndex(b, k - 1);
    }
  }

  lemma BrushCycleCloses(b: Brush)
    ensures AdvanceBrush(b, |BrushCycle|) == b
    ensures forall k: nat :: 0 < k < |BrushCycle| ==> AdvanceBrush(b, k) != b
  {
    forall k: nat | k <= |BrushCycle|
      ensures BrushIndex(AdvanceBrush(b, k)) == (BrushIndex(b) + k) % |BrushCycle|
    {
      AdvanceBrushIndex(b, k);
    }
    var c := AdvanceBrush(b, |BrushCycle|);
    assert BrushIndex(c) == BrushIndex(b);
    assert BrushCycle[BrushIndex(c)] == c;
  }

  // ---------------------------------------------------------------------------
  // The component's state, updated in place by the frame loop

  class GestureDrawing {
    var gesture: Gesture
    var palmHoldStart: Option<int>
    var lastPosition: Option<Pos>
    var history: seq<Image>
    var canvas: Image
    var pen: Pen
    var surface: View

    function AsState(): State
      reads this
    {
      State(gesture, palmHoldStart, lastPosition, history, canvas, pen, surface)
    }

    constructor ()
      ensures AsState() == Initial
    {
      gesture := NoGesture;
      palmHoldStart := None;
      lastPosition := None;
      history := [];
      canvas := [];
      pen := Pen(Glow, "#39ff14", 5.0);
      surface := DefaultSurface;
    }

    method SaveToHistory()
      modifies this
      ensures AsState() == Saved(old(AsState()))
    {
      history := KeepLast(history + [canvas], MaxHistory);
    }

    method Undo() returns (effects: seq<Effect>)
      modifies this
      ensures Outcome(AsState(), effects) == Undone(old(AsState()))
    {
      if |history| == 0 {
        effects := [Notify(MsgNothingToUndo)];
        return;
      }
      var h := history[..|history| - 1];
      if |h| > 0 {
        canvas := h[|h| - 1];
        effects := [RestoreSurface(h[|h| - 1])];
      } else {
        canvas := [];
        effects := [ClearSurface];
      }
      history := h;
      effects := effects + [Notify(MsgUndone), Notify(MsgUndone)];
    }

    method Draw(at: Pos) returns (effects: seq<Effect>)
      modifies this
      ensures Outcome(AsState(), effects) == Drawn(old(AsState()), at)
    {
      effects := [];
      if lastPosition.Some? {
        if pen.brush == Spray || pen.brush == Particle {
          var m := Spatter(at, pen);
          canvas := canvas + [m];
          effects := [Paint(m)];
          return;
        }
        var m := Stroke(lastPosition.value, at, pen);
        canvas := canvas + [m];
        effects := [Paint(m)];
      }
      lastPosition := Some(at);
    }

    method Erase(at: Pos) returns (effects: seq<Effect>)
      modifies this
      ensures Outcome(AsState(), effects) == Erased(old(AsState()), at)
    {
      var m := Erasure(at, pen.size * 2.0);
      canvas := canvas + [m];
      effects := [Paint(m)];
    }

    method ClearCanvas() returns (effects: seq<Effect>)
      modifies this
      ensures AsState() == old(AsState()).(canvas := [])
      ensures effects == [ClearSurface]
    {
      canvas := [];
      effects := [ClearSurface];
    }

    /** The palm branch of the frame loop. */
    method PalmBranch(now: int) returns (effects: seq<Effect>)
      modifies this
      ensures Outcome(AsState(), effects) == PalmFrame(old(AsState()), now)
    {
      if palmHoldStart.None? {
        palmHoldStart := Some(now);
        effects := [Notify(MsgHoldToClear)];
      } else {
        var holdTime := now - palmHoldStart.value;
        if holdTime < PalmHoldDuration {
          effects := [HoldRing(holdTime)];
        } else {
          effects := ClearCanvas();
          effects := effects + [Notify(MsgCleared)];
          palmHoldStart := None;
        }
      }
    }

    /** The pinch branch of the frame loop. */
    method PinchBranch(at: Pos) returns (effects: seq<Effect>)
      modifies this
      ensures Outcome(AsState(), effects) == PinchFrame(old(AsState()), at)
    {
      palmHoldStart := None;
      effects := [];
      if gesture != Pinch {
        SaveToHistory();
        effects := [Notify(MsgDrawing)];
        gesture := Pinch;
      }
      var drawn := Draw(at);
      effects := effects + drawn;
    }

    /** The fist branch of the frame loop. */
    method FistBranch(at: Pos) returns (effects: seq<Effect>)
      modifies this
      ensures Outcome(AsState(), effects) == FistFrame(old(AsState()), at)
    {
      palmHoldStart := None;
      effects := [];
      if gesture != Fist {
        effects := [Notify(MsgEraser)];
        gesture := Fist;
      }
      var erased := Erase(at);
      effects := effects + erased;
      lastPosition := None;
    }

    /** The thumbs-up branch of the frame loop. */
    method ThumbsUpBranch() returns (effects: seq<Effect>)
      modifies this
      ensures Outcome(AsState(), effects) == ThumbsUpFrame(old(AsState()))
    {
      palmHoldStart := None;
      lastPosition := None;
      effects := [];
      if gesture != ThumbsUp {
        effects := Undo();
        effects := effects + [Notify(MsgUndoGesture)];
        gesture := ThumbsUp;
      }
    }

    /** One animation frame: size the canvases to the video, classify and
        collect the hands in detection order, then act on the winning intent. */
    method Tick(hands: seq<seq<Landmark>>, now: int, video: View) returns (effects: seq<Effect>)
      requires AllHands(hands)
      modifies this
      ensures Outcome(AsState(), effects) == Step(old(AsState()), hands, now, video)
    {
      var resize := MatchSize(video);
      var s := Collect(hands, video);
      var acted := Act(Decide(s), now);
      effects := resize + acted;
    }

    /** Setting a canvas's width or height blanks it. */
    method MatchSize(video: View) returns (effects: seq<Effect>)
      modifies this
      ensures Outcome(AsState(), effects) == Resized(old(AsState()), video)
    {
      effects := [];
      if surface != video {
        surface := video;
        canvas := [];
        effects := [ResizeSurface(video)];
      }
    }

    /** Acting on the frame's winning intent. */
    method Act(intent: Intent, now: int) returns (effects: seq<Effect>)
      modifies this
      ensures Outcome(AsState(), effects) == Dispatch(old(AsState()), intent, now)
    {
      match intent
      case TakeSnapshot => effects := SnapshotBranch();
      case HoldToClear => effects := PalmBranch(now);
      case DrawAt(at) => effects := PinchBranch(at);
      case EraseAt(at) => effects := FistBranch(at);
      case UndoLast => effects := ThumbsUpBranch();
      case Idle => effects := IdleBranch();
    }

    method SnapshotBranch() returns (effects: seq<Effect>)
      modifies this
      ensures Outcome(AsState(), effects) == SnapshotFrame(old(AsState()))
    {
      effects := [];
      if gesture != Snapshot {
        effects := [Notify(MsgCountdown), ScheduleSnapshot(SnapshotDelay)];
        gesture := Snapshot;
      }
    }

    method IdleBranch() returns (effects: seq<Effect>)
      modifies this
      ensures Outcome(AsState(), effects) == IdleFrame(old(AsState()))
    {
      effects := [];
      palmHoldStart := None;
      lastPosition := None;
      if gesture != NoGesture && gesture != Snapshot {
        gesture := NoGesture;
      }
    }
  }

  /** The hand-collection loop of `detectHands`: classify each hand in turn,
      keep the first pinch and the first fist position, count the peace
      hands and flag palm and thumbs-up. */
  method Collect(hands: seq<seq<Landmark>>, view: View) returns (s: Summary)
    requires AllHands(hands)
    ensures s == Summarize(hands, view)
  {
    var activePinch: Option<Pos> := None;
    var activeFist: Option<Pos> := None;
    var peaceCount: nat := 0;
    var activePalm := false;
    var activeThumbsUp := false;
    var i := 0;
    while i < |hands|
      invariant 0 <= i <= |hands|
      invariant Summary(activePinch, activeFist, peaceCount, activePalm, activeThumbsUp)
        == Summarize(hands[..i], view)
    {
      assert hands[..i + 1][..i] == hands[..i];
      var landmarks := hands[i];
      var g := Classify(landmarks);
      var at := CursorOf(landmarks, view);
      if g == Pinch {
        if activePinch.None? { activePinch := Some(at); }
      } else if g == Fist {
        if activeFist.None? { activeFist := Some(at); }
      } else if g == Peace {
        peaceCount := peaceCount + 1;
      } else if g == Palm {
        activePalm := true;
      } else if g == ThumbsUp {
        activeThumbsUp := true;
      }
      i := i + 1;
    }
    assert hands[..|hands|] == hands;
    s := Summary(activePinch, activeFist, peaceCount, activePalm, activeThumbsUp);
  }
}
