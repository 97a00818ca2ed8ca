/** The drawing app's performance helpers: the message display queue, the
    batched UI update queue and the frame-rate monitor. Every timer,
    animation-frame and idle callback that the source schedules is an
    explicit event here, a method the runtime calls later; the clock is a
    parameter. Queued update closures are modelled by opaque identifiers. */
module PerformanceOptimizer {
  import opened Seqs
  import opened JsNumbers

  // ===========================================================================
  // MessageOptimizer

  const DefaultDisplayDuration: nat := 800

  /** `messageTimer` is reduced to whether a display timer is outstanding;
      `framesPending` counts the animation frames that will call the display
      callback with the then current message, and `displayed` records every
      call of the display callback in order. */
  datatype MessageState = MessageState(
    messageQueue: seq<string>,
    currentMessage: string,
    timerPending: bool,
    isDisplaying: bool,
    framesPending: nat,
    displayed: seq<string>)

  const MessageInitial := MessageState([], "", false, false, 0, [])

  /** A message is on display exactly while its timer runs, and when none
      is on display there is nothing waiting and nothing current. */
  ghost predicate MessageValid(st: MessageState)
  {
    && (st.isDisplaying <==> st.timerPending)
    && (!st.isDisplaying ==> st.messageQueue == [] && st.currentMessage == "")
  }

  lemma MessageInitialValid()
    ensures MessageValid(MessageInitial)
  {
  }

  /** `processMessageQueue`: an empty queue ends the display; otherwise the
      head becomes current, a frame is requested to show it and the display
      timer is (re)started. */
  function NextMessage(st: MessageState): (r: MessageState)
    ensures |st.messageQueue| == 0 ==> r == st.(isDisplaying := false)
    ensures |st.messageQueue| > 0 ==>
      && r.currentMessage == st.messageQueue[0]
      && r.messageQueue == st.messageQueue[1..]
      && r.isDisplaying && r.timerPending
      && r.framesPending == st.framesPending + 1
      && r.displayed == st.displayed
    ensures MessageValid(r) || |st.messageQueue| == 0
  {
    if |st.messageQueue| == 0 then st.(isDisplaying := false)
    else
      st.(isDisplaying := true,
          currentMessage := st.messageQueue[0],
          messageQueue := st.messageQueue[1..],
          framesPending := st.framesPending + 1,
          timerPending := true)
  }

  /** `showMessage`: the message on display is ignored; any other message
      waits in the queue, and when nothing is on display it is shown at once. */
  function Shown(st: MessageState, m: string): (r: MessageState)
    ensures m == st.currentMessage ==> r == st
    ensures m != st.currentMessage && st.isDisplaying ==>
      r == st.(messageQueue := st.messageQueue + [m])
    ensures MessageValid(st) && m != st.currentMessage && !st.isDisplaying ==>
      && r.currentMessage == m && r.messageQueue == []
      && r.isDisplaying && r.timerPending
      && r.framesPending == st.framesPending + 1 && r.displayed == st.displayed
    ensures MessageValid(st) ==> MessageValid(r)
  {
    if st.currentMessage == m then st
    else
      var queued := st.(messageQueue := st.messageQueue + [m]);
      if !st.isDisplaying then NextMessage(queued) else queued
  }

  /** Expiry of the display timer: an empty queue blanks the display,
      otherwise the next message is shown. */
  function TimerExpired(st: MessageState): (r: MessageState)
    ensures !st.timerPending ==> r == st
    ensures st.timerPending && |st.messageQueue| == 0 ==>
      r == st.(timerPending := false, currentMessage := "", displayed := st.displayed + [""],
               isDisplaying := false)
    ensures st.timerPending && |st.messageQueue| > 0 ==>
      && r.currentMessage == st.messageQueue[0] && r.messageQueue == st.messageQueue[1..]
      && r.isDisplaying && r.timerPending
    ensures MessageValid(st) ==> MessageValid(r)
  {
    if !st.timerPending then st
    else
      var fired := st.(timerPending := false);
      if |fired.messageQueue| == 0 then
        fired.(currentMessage := "", displayed := fired.displayed + [""], isDisplaying := false)
      else NextMessage(fired)
  }

  /** A requested animation frame passes the message current at that
      moment to the display callback. */
  function MessageFrame(st: MessageState): (r: MessageState)
    ensures st.framesPending == 0 ==> r == st
    ensures st.framesPending > 0 ==>
      && r.displayed == st.displayed + [st.currentMessage]
      && r.framesPending == st.framesPending - 1
      && r.(displayed := st.displayed, framesPending := st.framesPending) == st
    ensures MessageValid(st) ==> MessageValid(r)
  {
    if st.framesPending == 0 then st
    else st.(displayed := st.displayed + [st.currentMessage], framesPending := st.framesPending - 1)
  }

  /** `clear` (and `cleanup`): drops the queue, stops the timer and blanks
      the display at once. Frames already requested still fire. */
  function ClearMessages(st: MessageState): (r: MessageState)
    ensures r.messageQueue == [] && r.currentMessage == "" && !r.isDisplaying && !r.timerPending
    ensures r.displayed == st.displayed + [""] && r.framesPending == st.framesPending
    ensures MessageValid(r)
  {
    st.(messageQueue := [], timerPending := false, currentMessage := "",
        displayed := st.displayed + [""], isDisplaying := false)
  }

  /** The state after `n` expiries of the display timer. */
  function ExpireTimes(st: MessageState, n: nat): MessageState
    decreases n
  {
    if n == 0 then st else ExpireTimes(TimerExpired(st), n - 1)
  }

  /** The queue is shown in order: while a message is on display, the
      `k`-th expiry makes the `k`-th waiting message current, and one more
      expiry than there are waiting messages ends the display. */
  lemma {:induction false} QueueShownInOrder(st: MessageState, k: nat)
    requires MessageValid(st) && st.isDisplaying
    requires k <= |st.messageQueue|
    ensures k >= 1 ==> ExpireTimes(st, k).currentMessage == st.messageQueue[k - 1]
    ensures ExpireTimes(st, k).messageQueue == st.messageQueue[k..]
    ensures ExpireTimes(st, k).isDisplaying
    ensures MessageValid(ExpireTimes(st, k))
    decreases k
  {
    if k > 0 {
      var next := TimerExpired(st);
      assert next.messageQueue == st.messageQueue[1..] && next.isDisplaying && MessageValid(next);
      assert ExpireTimes(st, k) == ExpireTimes(next, k - 1);
      QueueShownInOrder(next, k - 1);
      if k == 1 {
        assert next.currentMessage == st.messageQueue[0];
      } else {
        assert next.messageQueue[k - 2] == st.messageQueue[k - 1];
      }
      assert next.messageQueue[k - 1..] == st.messageQueue[k..];
    }
  }

  lemma QueueDrains(st: MessageState)
    requires MessageValid(st) && st.isDisplaying
    ensures ExpireTimes(st, |st.messageQueue| + 1) == ExpireTimes(ExpireTimes(st, |st.messageQueue|), 1)
    ensures !ExpireTimes(st, |st.messageQueue| + 1).isDisplaying
    ensures ExpireTimes(st, |st.messageQueue| + 1).currentMessage == ""
  {
    var n := |st.messageQueue|;
    QueueShownInOrder(st, n);
    ExpireTimesSplit(st, n);
  }

  lemma {:induction false} ExpireTimesSplit(st: MessageState, n: nat)
    ensures ExpireTimes(st, n + 1) == ExpireTimes(ExpireTimes(st, n), 1)
    decreases n
  {
    if n > 0 {
      ExpireTimesSplit(TimerExpired(st), n - 1);
    }
  }

  class MessageOptimizer {
    var messageQueue: seq<string>
    var currentMessage: string
    var timerPending: bool
    var isDisplaying: bool
    var framesPending: nat
    var displayed: seq<string>
    const displayDuration: nat

    function AsState(): MessageState
      reads this
    {
      MessageState(messageQueue, currentMessage, timerPending, isDisplaying, framesPending, displayed)
    }

    ghost predicate Valid()
      reads this
    {
      MessageValid(AsState())
    }

    constructor (displayDuration: nat)
      ensures AsState() == MessageInitial && this.displayDuration == displayDuration
      ensures Valid()
    {
      this.displayDuration := displayDuration;
      messageQueue := [];
      currentMessage := "";
      timerPending := false;
      isDisplaying := false;
      framesPending := 0;
      displayed := [];
    }

    method ShowMessage(message: string)
      requires Valid()
      modifies this
      ensures AsState() == Shown(old(AsState()), message)
      ensures Valid()
    {
      if currentMessage == message {
        return;
      }
      messageQueue := messageQueue + [message];
      if !isDisplaying {
        ProcessMessageQueue();
      }
    }

    method ProcessMessageQueue()
      modifies this
      ensures AsState() == NextMessage(old(AsState()))
    {
      if |messageQueue| == 0 {
        isDisplaying := false;
        return;
      }
      isDisplaying := true;
      currentMessage := messageQueue[0];
      messageQueue := messageQueue[1..];
      framesPending := framesPending + 1;
      timerPending := true;
    }

    /** The display timer fires `displayDuration` ms after it was set. */
    method OnTimer()
      requires Valid()
      modifies this
      ensures AsState() == TimerExpired(old(AsState()))
      ensures Valid()
    {
      if !timerPending {
        return;
      }
      timerPending := false;
      if |messageQueue| == 0 {
        currentMessage := "";
        displayed := displayed + [""];
        isDisplaying := false;
      } else {
        ProcessMessageQueue();
      }
    }

    method OnFrame()
      requires Valid()
      modifies this
      ensures AsState() == MessageFrame(old(AsState()))
      ensures Valid()
    {
      if framesPending == 0 {
        return;
      }
      displayed := displayed + [currentMessage];
      framesPending := framesPending - 1;
    }

    method Clear()
      modifies this
      ensures AsState() == ClearMessages(old(AsState()))
      ensures Valid()
    {
      messageQueue := [];
      timerPending := false;
      currentMessage := "";
      displayed := displayed + [""];
      isDisplaying := false;
    }

    method Cleanup()
      modifies this
      ensures AsState() == ClearMessages(old(AsState()))
      ensures Valid()
    {
      Clear();
    }
  }

  // ===========================================================================
  // UIUpdateOptimizer

  /** A queued update closure, by identity. */
  type Update = nat

  const UpdateThrottle: real := 16.0

  /** `frameId` is reduced to whether a frame is requested; `idleBatches`
      are the batches captured by idle callbacks that have not run yet, and
      `executed` records every update run, in order. */
  datatype UpdateState = UpdateState(
    updateQueue: seq<Update>,
    isProcessing: bool,
    frameRequested: bool,
    lastUpdateTime: real,
    idleBatches: seq<seq<Update>>,
    executed: seq<Update>)

  const UpdateInitial := UpdateState([], false, false, 0.0, [], [])

  function Flatten(batches: seq<seq<Update>>): seq<Update>
  {
    if |batches| == 0 then [] else batches[0] + Flatten(batches[1..])
  }

  lemma {:induction false} FlattenSnoc(batches: seq<seq<Update>>, b: seq<Update>)
    ensures Flatten(batches + [b]) == Flatten(batches) + b
    decreases |batches|
  {
    if |batches| == 0 {
      assert batches + [b] == [b];
      assert Flatten([b][1..]) == [];
    } else {
      assert (batches + [b])[1..] == batches[1..] + [b];
      FlattenSnoc(batches[1..], b);
    }
  }

  /** Every update ever queued, in queueing order: run, captured, or waiting. */
  function Delivered(st: UpdateState): seq<Update>
  {
    st.executed + Flatten(st.idleBatches) + st.updateQueue
  }

  /** `processUpdates`: captures the whole queue, in order, for one idle
      callback, and empties the queue. */
  function Captured(st: UpdateState, now: real): (r: UpdateState)
    ensures r.updateQueue == [] && r.isProcessing && r.lastUpdateTime == now
    ensures r.idleBatches == st.idleBatches + [st.updateQueue]
    ensures r.executed == st.executed && r.frameRequested == st.frameRequested
    ensures Delivered(r) == Delivered(st)
  {
    FlattenSnoc(st.idleBatches, st.updateQueue);
    st.(isProcessing := true, lastUpdateTime := now,
        idleBatches := st.idleBatches + [st.updateQueue], updateQueue := [])
  }

  /** `scheduleUpdate`: processes at once when the throttle interval has
      passed since the last batch, otherwise (re)requests a frame. */
  function Scheduled(st: UpdateState, now: real): (r: UpdateState)
    ensures now - st.lastUpdateTime >= UpdateThrottle ==> r == Captured(st, now)
    ensures now - st.lastUpdateTime < UpdateThrottle ==> r == st.(frameRequested := true)
    ensures Delivered(r) == Delivered(st)
  {
    if now - st.lastUpdateTime >= UpdateThrottle then Captured(st, now)
    else st.(frameRequested := true)
  }

  /** `queueUpdate`: the update joins the end of the queue; a batch is
      scheduled unless one is being processed. */
  function Enqueued(st: UpdateState, u: Update, now: real): (r: UpdateState)
    ensures Delivered(r) == Delivered(st) + [u]
    ensures r.executed == st.executed
    ensures st.isProcessing ==> r == st.(updateQueue := st.updateQueue + [u])
    ensures !st.isProcessing && now - st.lastUpdateTime >= UpdateThrottle ==>
      r.updateQueue == [] && r.idleBatches == st.idleBatches + [st.updateQueue + [u]]
  {
    var queued := st.(updateQueue := st.updateQueue + [u]);
    if !st.isProcessing then Scheduled(queued, now) else queued
  }

  /** The requested frame fires and processes the queue. */
  function UpdateFrame(st: UpdateState, now: real): (r: UpdateState)
    ensures !st.frameRequested ==> r == st
    ensures st.frameRequested ==>
      !r.frameRequested && r.updateQueue == [] && r.idleBatches == st.idleBatches + [st.updateQueue]
    ensures Delivered(r) == Delivered(st)
  {
    if !st.frameRequested then st else Captured(st.(frameRequested := false), now)
  }

  /** The oldest idle callback runs its batch and ends processing. */
  function IdleCallback(st: UpdateState): (r: UpdateState)
    ensures |st.idleBatches| == 0 ==> r == st
    ensures |st.idleBatches| > 0 ==>
      && r.executed == st.executed + st.idleBatches[0]
      && r.idleBatches == st.idleBatches[1..]
      && !r.isProcessing
    ensures r.updateQueue == st.updateQueue
    ensures Delivered(r) == Delivered(st)
  {
    if |st.idleBatches| == 0 then st
    else st.(executed := st.executed + st.idleBatches[0], idleBatches := st.idleBatches[1..],
             isProcessing := false)
  }

  /** `cleanup`: cancels the frame and drops the waiting updates; batches
      already captured by idle callbacks still run. */
  function UpdateCleanup(st: UpdateState): (r: UpdateState)
    ensures r.updateQueue == [] && !r.isProcessing && !r.frameRequested
    ensures Delivered(r) == st.executed + Flatten(st.idleBatches)
    ensures r.idleBatches == st.idleBatches && r.executed == st.executed
  {
    st.(frameRequested := false, updateQueue := [], isProcessing := false)
  }

  class UIUpdateOptimizer {
    var updateQueue: seq<Update>
    var isProcessing: bool
    var frameRequested: bool
    var lastUpdateTime: real
    var idleBatches: seq<seq<Update>>
    var executed: seq<Update>

    function AsState(): UpdateState
      reads this
    {
      UpdateState(updateQueue, isProcessing, frameRequested, lastUpdateTime, idleBatches, executed)
    }

    constructor ()
      ensures AsState() == UpdateInitial
    {
      updateQueue := [];
      isProcessing := false;
      frameRequested := false;
      lastUpdateTime := 0.0;
      idleBatches := [];
      executed := [];
    }

    method QueueUpdate(update: Update, now: real)
      modifies this
      ensures AsState() == Enqueued(old(AsState()), update, now)
    {
      updateQueue := updateQueue + [update];
      if !isProcessing {
        ScheduleUpdate(now);
      }
    }

    method ScheduleUpdate(now: real)
      modifies this
      ensures AsState() == Scheduled(old(AsState()), now)
    {
      if now - lastUpdateTime >= UpdateThrottle {
        ProcessUpdates(now);
      } else {
        frameRequested := true;
      }
    }

    method ProcessUpdates(now: real)
      modifies this
      ensures AsState() == Captured(old(AsState()), now)
    {
      isProcessing := true;
      lastUpdateTime := now;
      var updates := updateQueue;
      updateQueue := [];
      idleBatches := idleBatches + [updates];
    }

    method OnFrame(now: real)
      modifies this
      ensures AsState() == UpdateFrame(old(AsState()), now)
    {
      if !frameRequested {
        return;
      }
      frameRequested := false;
      ProcessUpdates(now);
    }

    /** The browser runs the oldest idle callback; each update is run in
        turn, and one that throws does not stop the rest. */
    method OnIdle()
      modifies this
      ensures AsState() == IdleCallback(old(AsState()))
    {
      if |idleBatches| == 0 {
        return;
      }
      var updates := idleBatches[0];
      idleBatches := idleBatches[1..];
      var ran := executed;
      for i := 0 to |updates|
        invariant ran == old(executed) + updates[..i]
      {
        ran := ran + [updates[i]];
      }
      assert updates[..|updates|] == updates;
      executed := ran;
      isProcessing := false;
    }

    method Cleanup()
      modifies this
      ensures AsState() == UpdateCleanup(old(AsState()))
    {
      frameRequested := false;
      updateQueue := [];
      isProcessing := false;
    }
  }

  // ===========================================================================
  // PerformanceMonitor

  const BufferSize: nat := 60

  /** `fps` and the report built from it are not part of this model. */
  datatype MonitorState = MonitorState(frameCount: nat, lastFrameTime: real, frameBuffer: seq<Num>)

  /** `updateFPS` at time `now`: after the first frame, the rate implied by
      the gap since the previous frame joins the buffer, whose oldest entry
      is dropped beyond `BufferSize`; the frame is counted. */
  function Frame(st: MonitorState, now: real): (r: MonitorState)
    ensures r.frameCount == st.frameCount + 1 && r.lastFrameTime == now
    ensures st.lastFrameTime <= 0.0 ==> r.frameBuffer == st.frameBuffer
    ensures st.lastFrameTime > 0.0 && |st.frameBuffer| <= BufferSize ==>
      r.frameBuffer == KeepLast(st.frameBuffer + [ThousandOver(now - st.lastFrameTime)], BufferSize)
    ensures |st.frameBuffer| <= BufferSize ==> |r.frameBuffer| <= BufferSize
  {
    var buffer :=
      if st.lastFrameTime > 0.0 then
        var pushed := st.frameBuffer + [ThousandOver(now - st.lastFrameTime)];
        if |pushed| > BufferSize then pushed[1..] else pushed
      else st.frameBuffer;
    var _ := if st.lastFrameTime > 0.0 && |st.frameBuffer| <= BufferSize
      then PushShiftIsKeepLast(st.frameBuffer, ThousandOver(now - st.lastFrameTime), BufferSize); 0
      else 0;
    MonitorState(st.frameCount + 1, now, buffer)
  }

  /** The monitor after frames at the given times. */
  function Frames(st: MonitorState, times: seq<real>): MonitorState
    decreases |times|
  {
    if |times| == 0 then st else Frames(Frame(st, times[0]), times[1..])
  }

  /** The rates implied by successive frame times after one at `last`. */
  function Rates(last: real, times: seq<real>): seq<Num>
    decreases |times|
  {
    if |times| == 0 then [] else [ThousandOver(times[0] - last)] + Rates(times[0], times[1..])
  }

  /** Over any run of frames the count grows by one per frame and the
      buffer stays within `BufferSize`. */
  lemma {:induction false} FramesCounted(st: MonitorState, times: seq<real>)
    requires |st.frameBuffer| <= BufferSize
    ensures Frames(st, times).frameCount == st.frameCount + |times|
    ensures |Frames(st, times).frameBuffer| <= BufferSize
    decreases |times|
  {
    if |times| > 0 {
      FramesCounted(Frame(st, times[0]), times[1..]);
    }
  }

  /** One frame's rate followed by the rest. */
  lemma RatesCons(last: real, times: seq<real>)
    requires |times| > 0
    ensures Rates(last, times) == [ThousandOver(times[0] - last)] + Rates(times[0], times[1..])
  {
  }

  /** Once the clock is positive, the buffer holds the rates of the last
      `BufferSize` gaps, oldest first. */
  lemma {:induction false} FramesBuffered(st: MonitorState, times: seq<real>)
    requires |st.frameBuffer| <= BufferSize && st.lastFrameTime > 0.0
    requires forall i :: 0 <= i < |times| ==> times[i] > 0.0
    ensures Frames(st, times).frameBuffer == KeepLast(st.frameBuffer + Rates(st.lastFrameTime, times), BufferSize)
    decreases |times|
  {
    if |times| == 0 {
      assert st.frameBuffer + [] == st.frameBuffer;
    } else {
      var x := ThousandOver(times[0] - st.lastFrameTime);
      var rest := times[1..];
      var next := Frame(st, times[0]);
      var later := Rates(times[0], rest);
      forall i | 0 <= i < |rest| ensures rest[i] > 0.0 {
        assert rest[i] == times[i + 1];
      }
      assert Frames(st, times) == Frames(next, rest);
      assert next.frameBuffer == KeepLast(st.frameBuffer + [x], BufferSize);
      calc {
        Frames(st, times).frameBuffer;
        { FramesBuffered(next, rest); }
        KeepLast(next.frameBuffer + later, BufferSize);
        KeepLast(KeepLast(st.frameBuffer + [x], BufferSize) + later, BufferSize);
        { PushThenAppend(st.frameBuffer, x, later, BufferSize); }
        KeepLast(st.frameBuffer + ([x] + later), BufferSize);
        { RatesCons(st.lastFrameTime, times); }
        KeepLast(st.frameBuffer + Rates(st.lastFrameTime, times), BufferSize);
      }
    }
  }

  class PerformanceMonitor {
    var frameCount: nat
    var lastFrameTime: real
    var frameBuffer: seq<Num>

    function AsState(): MonitorState
      reads this
    {
      MonitorState(frameCount, lastFrameTime, frameBuffer)
    }

    /** Construction starts monitoring with a first frame at `now`. */
    constructor (now: real)
      ensures AsState() == Frame(MonitorState(0, 0.0, []), now)
    {
      frameCount := 0;
      lastFrameTime := 0.0;
      frameBuffer := [];
      new;
      UpdateFPS(now);
    }

    /** One animation frame at time `now`. */
    method UpdateFPS(now: real)
      modifies this
      ensures AsState() == Frame(old(AsState()), now)
    {
      if lastFrameTime > 0.0 {
        var delta := now - lastFrameTime;
        frameBuffer := frameBuffer + [ThousandOver(delta)];
        if |frameBuffer| > BufferSize {
          frameBuffer := frameBuffer[1..];
        }
      }
      lastFrameTime := now;
      frameCount := frameCount + 1;
    }

    method GetFrameCount() returns (count: nat)
      ensures count == frameCount
    {
      return frameCount;
    }
  }
}
