/**
 * The capture state machine of the second sample application: the
 * `ScannerViewHandler` that runs on the UI thread, asks the camera for preview
 * frames, receives the decode thread's outcomes through its message queue and
 * hands decoded results to the scanner view.
 *
 * The step functions (`RestartStep`, `HandleStep`, `QuitStep`, `DispatchStep`)
 * say what each handler operation does to an abstract `Snapshot`; the class
 * performs the same operations in place and its methods are proved to match
 * them. Effects on the camera, the view and the decode thread are recorded in
 * the snapshot's `Effects` (ghost in the class).
 */
module Capture {
  import opened Wrappers

  datatype State = Preview | Success | Done

  /** A decoded symbol (ZXing's `Result`), opaque here. */
  datatype ScanResult = ScanResult(text: string)

  /** The message kinds the handler's switch names. */
  datatype What = RestartPreview | DecodeSucceeded | DecodeFailed | ReturnScanResult | LaunchProductQuery

  /**
   * The data bundle of a success message: the compressed barcode image, if any.
   * Its scale factor is a float and is not modelled.
   */
  datatype MessageData = MessageData(barcodeBitmap: Option<seq<bv8>>)

  /** An Android `Message`: its `what`, its `obj` and its data bundle. */
  datatype Message = Message(what: What, obj: Option<ScanResult>, data: Option<MessageData>)

  /** One call of `scannerView.handleDecode`: the result and the barcode image handed over. */
  datatype Delivery = Delivery(result: Option<ScanResult>, barcode: Option<seq<bv8>>)

  /** What the handler has done to its collaborators so far. */
  datatype Effects = Effects(
    threadStarted: bool,        // decodeThread.start()
    previewStarts: nat,         // cameraManager.startPreview()
    previewStops: nat,          // cameraManager.stopPreview()
    frameRequests: nat,         // cameraManager.requestPreviewFrame(...)
    viewfinderDraws: nat,       // scannerView.drawViewfinder()
    delivered: seq<Delivery>,   // scannerView.handleDecode(...)
    quitsSent: nat)             // QUIT sent to the decode thread

  /** The handler's state, its pending message queue and its effects. */
  datatype Snapshot = Snapshot(state: State, queue: seq<Message>, effects: Effects)

  // ---------------------------------------------------------------------------
  // The message queue
  // ---------------------------------------------------------------------------

  /** `a` is `b` with some elements left out, the rest in their original order. */
  ghost predicate Subsequence<T>(a: seq<T>, b: seq<T>)
    decreases |b|
  {
    a == [] || (b != [] && ((a[0] == b[0] && Subsequence(a[1..], b[1..])) || Subsequence(a, b[1..])))
  }

  lemma {:induction false} SubsequenceTransitive<T>(a: seq<T>, b: seq<T>, c: seq<T>)
    requires Subsequence(a, b) && Subsequence(b, c)
    ensures Subsequence(a, c)
    decreases |c|
  {
    if a != [] {
      if Subsequence(b, c[1..]) {
        SubsequenceTransitive(a, b, c[1..]);
      } else if a[0] == b[0] && Subsequence(a[1..], b[1..]) {
        SubsequenceTransitive(a[1..], b[1..], c[1..]);
      } else {
        SubsequenceTransitive(a, b[1..], c[1..]);
      }
    }
  }

  /**
   * `Handler.removeMessages(what)`: drops every pending message of that kind and
   * keeps the others, in order and with their multiplicities.
   */
  function RemoveMessages(q: seq<Message>, what: What): (r: seq<Message>)
    ensures forall i :: 0 <= i < |r| ==> r[i].what != what
    ensures forall m: Message :: m.what != what ==> multiset(r)[m] == multiset(q)[m]
    ensures Subsequence(r, q)
  {
    if q == [] then []
    else
      assert q == [q[0]] + q[1..];
      if q[0].what == what then RemoveMessages(q[1..], what)
      else [q[0]] + RemoveMessages(q[1..], what)
  }

  lemma {:induction false} RemoveAbsentMessages(q: seq<Message>, what: What)
    requires forall i :: 0 <= i < |q| ==> q[i].what != what
    ensures RemoveMessages(q, what) == q
  {
    if q != [] {
      RemoveAbsentMessages(q[1..], what);
    }
  }

  /** A decode outcome posted by the decode thread. */
  predicate IsDecodeOutcome(m: Message)
  {
    m.what == DecodeSucceeded || m.what == DecodeFailed
  }

  // ---------------------------------------------------------------------------
  // The steps
  // ---------------------------------------------------------------------------

  /** `restartPreviewAndDecode`: only in `Success`, ask for a frame and redraw the viewfinder. */
  function RestartStep(h: Snapshot): (r: Snapshot)
    ensures r.queue == h.queue && r.effects.delivered == h.effects.delivered
    ensures h.state == Success ==>
      && r.state == Preview
      && r.effects.frameRequests == h.effects.frameRequests + 1
      && r.effects.viewfinderDraws == h.effects.viewfinderDraws + 1
    ensures h.state != Success ==> r == h
  {
    if h.state == Success then
      h.(state := Preview,
         effects := h.effects.(frameRequests := h.effects.frameRequests + 1,
                               viewfinderDraws := h.effects.viewfinderDraws + 1))
    else h
  }

  /** The barcode image a success message carries, if its bundle has one. */
  function BarcodeOf(data: Option<MessageData>): Option<seq<bv8>>
  {
    if data.Some? && data.value.barcodeBitmap.Some? then data.value.barcodeBitmap else None
  }

  /** `handleMessage`. There is no check for `Done`: a message is handled in every state. */
  function HandleStep(h: Snapshot, m: Message): (r: Snapshot)
    ensures r.queue == h.queue
    ensures r.effects.previewStops == h.effects.previewStops
    ensures h.effects.frameRequests <= r.effects.frameRequests <= h.effects.frameRequests + 1
    ensures m.what == DecodeSucceeded ==>
      && r.state == Success && r.effects.frameRequests == h.effects.frameRequests
      && r.effects.delivered == h.effects.delivered + [Delivery(m.obj, BarcodeOf(m.data))]
    ensures m.what == DecodeFailed ==>
      && r.state == Preview && r.effects.frameRequests == h.effects.frameRequests + 1
      && r.effects.delivered == h.effects.delivered
    ensures m.what == RestartPreview ==> r == RestartStep(h)
    ensures m.what == ReturnScanResult || m.what == LaunchProductQuery ==> r == h
  {
    match m.what
    case RestartPreview => RestartStep(h)
    case DecodeSucceeded =>
      h.(state := Success,
         effects := h.effects.(delivered := h.effects.delivered + [Delivery(m.obj, BarcodeOf(m.data))]))
    case DecodeFailed =>
      h.(state := Preview, effects := h.effects.(frameRequests := h.effects.frameRequests + 1))
    case ReturnScanResult => h
    case LaunchProductQuery => h
  }

  /**
   * `quitSynchronously`: `Done`, preview stopped, QUIT sent, and every pending
   * decode outcome removed from the queue.
   */
  function QuitStep(h: Snapshot): Snapshot
  {
    h.(state := Done,
       queue := RemoveMessages(RemoveMessages(h.queue, DecodeSucceeded), DecodeFailed),
       effects := h.effects.(previewStops := h.effects.previewStops + 1,
                             quitsSent := h.effects.quitsSent + 1))
  }

  /** The looper hands the oldest pending message to `handleMessage`. */
  function DispatchStep(h: Snapshot): (r: Snapshot)
    ensures h.queue != [] ==> r.queue == h.queue[1..]
    ensures h.queue == [] ==> r == h
  {
    if h.queue == [] then h else HandleStep(h.(queue := h.queue[1..]), h.queue[0])
  }

  /** Dispatch until the queue is empty. */
  function Drain(h: Snapshot): (r: Snapshot)
    ensures r.queue == []
    decreases |h.queue|
  {
    if h.queue == [] then h else Drain(DispatchStep(h))
  }

  /** Handle the given messages one after the other. */
  function Run(h: Snapshot, msgs: seq<Message>): Snapshot
    decreases |msgs|
  {
    if msgs == [] then h else Run(HandleStep(h, msgs[0]), msgs[1..])
  }

  /** The deliveries the success messages among `msgs` cause, in order. */
  function Deliveries(msgs: seq<Message>): seq<Delivery>
  {
    if msgs == [] then []
    else (if msgs[0].what == DecodeSucceeded then [Delivery(msgs[0].obj, BarcodeOf(msgs[0].data))] else [])
         + Deliveries(msgs[1..])
  }

  /** The number of messages of one kind. */
  function Count(msgs: seq<Message>, what: What): nat
  {
    if msgs == [] then 0 else (if msgs[0].what == what then 1 else 0) + Count(msgs[1..], what)
  }

  /** The snapshot right after the constructor. */
  function Started(): (h: Snapshot)
    ensures h.state == Preview && h.queue == []
    ensures h.effects == Effects(true, 1, 0, 1, 1, [], 0)
  {
    RestartStep(Snapshot(Success, [], Effects(true, 1, 0, 0, 0, [], 0)))
  }

  // ---------------------------------------------------------------------------
  // Properties
  // ---------------------------------------------------------------------------

  /** Quitting leaves no decode outcome pending and keeps the other messages in order. */
  lemma QuitPurgesDecodeOutcomes(h: Snapshot)
    ensures var q := QuitStep(h).queue;
      && (forall i :: 0 <= i < |q| ==> !IsDecodeOutcome(q[i]))
      && Subsequence(q, h.queue)
      && (forall m: Message :: !IsDecodeOutcome(m) ==> multiset(q)[m] == multiset(h.queue)[m])
  {
    var q1 := RemoveMessages(h.queue, DecodeSucceeded);
    var q2 := RemoveMessages(q1, DecodeFailed);
    SubsequenceTransitive(q2, q1, h.queue);
    forall i | 0 <= i < |q2|
      ensures !IsDecodeOutcome(q2[i])
    {
      var x := q2[i];
      assert x in multiset(q2);
      assert x in q1;
    }
  }

  /**
   * After a quit the handler is `Done`; quitting again leaves state and queue as they
   * are, but calls `stopPreview` and sends QUIT a second time.
   */
  lemma QuitTwice(h: Snapshot)
    ensures QuitStep(QuitStep(h)).state == QuitStep(h).state == Done
    ensures QuitStep(QuitStep(h)).queue == QuitStep(h).queue
    ensures QuitStep(QuitStep(h)).effects.previewStops == h.effects.previewStops + 2
    ensures QuitStep(QuitStep(h)).effects.quitsSent == h.effects.quitsSent + 2
  {
    var q := QuitStep(h).queue;
    QuitPurgesDecodeOutcomes(h);
    RemoveAbsentMessages(q, DecodeSucceeded);
    RemoveAbsentMessages(q, DecodeFailed);
  }

  /** Draining a `Done` handler with no decode outcome pending changes nothing but the queue. */
  lemma {:induction false} DrainDoneIsSilent(h: Snapshot)
    requires h.state == Done
    requires forall i :: 0 <= i < |h.queue| ==> !IsDecodeOutcome(h.queue[i])
    ensures Drain(h) == h.(queue := [])
    decreases |h.queue|
  {
    if h.queue != [] {
      var next := DispatchStep(h);
      assert next == h.(queue := h.queue[1..]);
      DrainDoneIsSilent(next);
    }
  }

  /**
   * Whatever was pending at quit, handling it afterwards delivers no result,
   * requests no frame and draws nothing: the purge of decode outcomes is what
   * suppresses late results.
   */
  lemma DrainAfterQuitIsSilent(h: Snapshot)
    ensures Drain(QuitStep(h)) == QuitStep(h).(queue := [])
    ensures Drain(QuitStep(h)).effects.delivered == h.effects.delivered
    ensures Drain(QuitStep(h)).effects.frameRequests == h.effects.frameRequests
  {
    QuitPurgesDecodeOutcomes(h);
    DrainDoneIsSilent(QuitStep(h));
  }

  /** A success message that arrives after the quit is still delivered: nothing checks `Done`. */
  lemma LateSuccessAfterQuitIsDelivered(h: Snapshot, m: Message)
    requires m.what == DecodeSucceeded
    ensures var r := HandleStep(QuitStep(h), m);
      r.state == Success && r.effects.delivered == h.effects.delivered + [Delivery(m.obj, BarcodeOf(m.data))]
  {
  }

  /** After a quit, a restart request issues no frame request and draws nothing. */
  lemma RestartAfterQuitIsIgnored(h: Snapshot, m: Message)
    requires m.what == RestartPreview
    ensures HandleStep(QuitStep(h), m) == QuitStep(h)
  {
  }

  /** Every success message delivers exactly its own result, in order, and nothing else does. */
  lemma {:induction false} RunDeliversEachSuccess(h: Snapshot, msgs: seq<Message>)
    ensures Run(h, msgs).effects.delivered == h.effects.delivered + Deliveries(msgs)
    ensures |Deliveries(msgs)| == Count(msgs, DecodeSucceeded)
    decreases |msgs|
  {
    if msgs != [] {
      RunDeliversEachSuccess(HandleStep(h, msgs[0]), msgs[1..]);
    }
  }

  /** Each message issues at most one frame request, and a success message issues none. */
  lemma {:induction false} RunFrameRequestsBounded(h: Snapshot, msgs: seq<Message>)
    ensures Run(h, msgs).effects.frameRequests <= h.effects.frameRequests + |msgs| - Count(msgs, DecodeSucceeded)
    ensures Run(h, msgs).effects.frameRequests >= h.effects.frameRequests + Count(msgs, DecodeFailed)
    decreases |msgs|
  {
    if msgs != [] {
      RunFrameRequestsBounded(HandleStep(h, msgs[0]), msgs[1..]);
    }
  }

  /** `n` failures in a row: `n` frame requests, no delivery, back in `Preview`. */
  function Failures(n: nat): (msgs: seq<Message>)
    ensures |msgs| == n && forall i :: 0 <= i < n ==> msgs[i].what == DecodeFailed
  {
    seq(n, _ => Message(DecodeFailed, None, None))
  }

  lemma {:induction false} RetryAfterFailures(h: Snapshot, n: nat)
    ensures var r := Run(h, Failures(n));
      r.effects.frameRequests == h.effects.frameRequests + n
      && r.effects.delivered == h.effects.delivered
      && (n > 0 ==> r.state == Preview)
      && r.queue == h.queue
    decreases n
  {
    if n > 0 {
      assert Failures(n)[1..] == Failures(n - 1);
      RetryAfterFailures(HandleStep(h, Failures(n)[0]), n - 1);
    }
  }

  /** Any number of failures followed by one success delivers exactly that result. */
  lemma FailuresThenSuccessDeliverOnce(h: Snapshot, n: nat, m: Message)
    requires m.what == DecodeSucceeded
    ensures var r := Run(h, Failures(n) + [m]);
      r.effects.delivered == h.effects.delivered + [Delivery(m.obj, BarcodeOf(m.data))]
      && r.effects.frameRequests == h.effects.frameRequests + n
      && r.state == Success
  {
    RunAppend(h, Failures(n), [m]);
    RetryAfterFailures(h, n);
    var r := Run(h, Failures(n));
    assert Run(r, [m]) == Run(HandleStep(r, m), []);
  }

  lemma {:induction false} RunAppend(h: Snapshot, a: seq<Message>, b: seq<Message>)
    ensures Run(h, a + b) == Run(Run(h, a), b)
    decreases |a|
  {
    if a != [] {
      assert (a + b)[0] == a[0] && (a + b)[1..] == a[1..] + b;
      RunAppend(HandleStep(h, a[0]), a[1..], b);
    } else {
      assert a + b == b;
    }
  }

  /**
   * From a state other than `Success`, restart, success, restart issues exactly one
   * new frame request and one viewfinder draw: the second restart finds `Success`.
   */
  lemma SuccessThenRestart(h: Snapshot, m: Message)
    requires h.state != Success && m.what == DecodeSucceeded
    ensures var r := Run(h, [Message(RestartPreview, None, None), m, Message(RestartPreview, None, None)]);
      r.effects.frameRequests == h.effects.frameRequests + 1
      && r.effects.viewfinderDraws == h.effects.viewfinderDraws + 1
      && r.state == Preview
  {
    var restart := Message(RestartPreview, None, None);
    var msgs := [restart, m, restart];
    var h1 := HandleStep(h, restart);
    var h2 := HandleStep(h1, m);
    assert h1 == h;
    assert Run(h, msgs) == Run(h1, [m, restart]) by { assert msgs[1..] == [m, restart]; }
    assert Run(h1, [m, restart]) == Run(h2, [restart]) by { assert [m, restart][1..] == [restart]; }
    assert Run(h2, [restart]) == HandleStep(h2, restart) by { assert [restart][1..] == []; }
  }

  // ---------------------------------------------------------------------------
  // The handler object
  // ---------------------------------------------------------------------------

  class ScannerViewHandler {
    var state: State
    /** The handler's pending message queue. */
    var queue: seq<Message>
    ghost var effects: Effects

    ghost function Model(): Snapshot
      reads this
    {
      Snapshot(state, queue, effects)
    }

    /** Starts the decode thread and the preview, then asks for the first frame. */
    constructor ()
      ensures Model() == Started()
    {
      ghost var e := Effects(false, 0, 0, 0, 0, [], 0);
      queue := [];
      e := e.(threadStarted := true);
      state := Success;
      e := e.(previewStarts := e.previewStarts + 1);
      effects := e;
      new;
      RestartPreviewAndDecode();
    }

    method HandleMessage(message: Message)
      modifies this
      ensures Model() == HandleStep(old(Model()), message)
    {
      match message.what {
        case RestartPreview =>
          RestartPreviewAndDecode();
        case DecodeSucceeded =>
          state := Success;
          var barcode: Option<seq<bv8>> := None;
          if message.data.Some? {
            var compressedBitmap := message.data.value.barcodeBitmap;
            if compressedBitmap.Some? {
              barcode := compressedBitmap;
            }
          }
          effects := effects.(delivered := effects.delivered + [Delivery(message.obj, barcode)]);
        case DecodeFailed =>
          state := Preview;
          effects := effects.(frameRequests := effects.frameRequests + 1);
        case ReturnScanResult =>
        case LaunchProductQuery =>
      }
    }

    method QuitSynchronously()
      modifies this
      ensures Model() == QuitStep(old(Model()))
    {
      state := Done;
      effects := effects.(previewStops := effects.previewStops + 1);
      effects := effects.(quitsSent := effects.quitsSent + 1);
      queue := RemoveMessages(queue, DecodeSucceeded);
      queue := RemoveMessages(queue, DecodeFailed);
    }

    method RestartPreviewAndDecode()
      modifies this
      ensures Model() == RestartStep(old(Model()))
    {
      if state == Success {
        state := Preview;
        effects := effects.(frameRequests := effects.frameRequests + 1);
        effects := effects.(viewfinderDraws := effects.viewfinderDraws + 1);
      }
    }

    /** Another thread posts a message to this handler (`Message.sendToTarget`). */
    method Post(message: Message)
      modifies this
      ensures Model() == old(Model()).(queue := old(queue) + [message])
    {
      queue := queue + [message];
    }

    /** One turn of the UI thread's looper: hand the oldest pending message over. */
    method DispatchNext() returns (dispatched: bool)
      modifies this
      ensures dispatched == (old(queue) != [])
      ensures Model() == DispatchStep(old(Model()))
    {
      if queue == [] {
        return false;
      }
      var message := queue[0];
      queue := queue[1..];
      HandleMessage(message);
      return true;
    }
  }
}
