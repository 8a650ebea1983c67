/**
 * The camera body: the square, centred, optionally mirrored crop of a video frame,
 * and the shutter / print-ejection sequencer driven by animation frames and timers.
 */
module RetroCamera {
  import opened Types

  datatype Facing = User | Environment

  /** The camera switch. Only two modes exist, so differing from the old one fixes the new one. */
  function Toggled(f: Facing): (g: Facing)
    ensures g != f
  {
    if f == User then Environment else User
  }

  lemma ToggleTwice(f: Facing)
    ensures Toggled(Toggled(f)) == f
  {
  }

  // ---------------------------------------------------------------------------
  // Capture geometry
  // ---------------------------------------------------------------------------

  /** The source rectangle copied from the video frame: a `size` x `size` square at (startX, startY). */
  datatype Crop = Crop(size: nat, startX: real, startY: real)

  /** The largest square of a `width` x `height` frame, centred in it. */
  function CenteredCrop(width: nat, height: nat): (c: Crop)
    ensures c.size <= width && c.size <= height && (c.size == width || c.size == height)
    ensures 0.0 <= c.startX && 0.0 <= c.startY && (c.startX == 0.0 || c.startY == 0.0)
    ensures c.startX + c.size as real <= width as real
    ensures c.startY + c.size as real <= height as real
    ensures c.startX == width as real - (c.startX + c.size as real)
    ensures c.startY == height as real - (c.startY + c.size as real)
  {
    var size := if width <= height then width else height;
    Crop(size, (width - size) as real / 2.0, (height - size) as real / 2.0)
  }

  /** The column a drawn column ends up in: flipped about the square's centre for the selfie camera. */
  function CanvasX(facing: Facing, size: nat, x: real): real
  {
    if facing == User then size as real - x else x
  }

  /** The flip keeps the canvas square in place and undoes itself. */
  lemma CanvasXInSquare(facing: Facing, size: nat, x: real)
    requires 0.0 <= x <= size as real
    ensures 0.0 <= CanvasX(facing, size, x) <= size as real
    ensures CanvasX(facing, size, CanvasX(facing, size, x)) == x
  {
  }

  /** The frame point whose pixel is drawn at canvas point (x, y). */
  function SourcePoint(width: nat, height: nat, facing: Facing, x: real, y: real): (p: (real, real))
    requires 0.0 <= x <= CenteredCrop(width, height).size as real
    requires 0.0 <= y <= CenteredCrop(width, height).size as real
    ensures 0.0 <= p.0 <= width as real && 0.0 <= p.1 <= height as real
  {
    var c := CenteredCrop(width, height);
    (c.startX + CanvasX(facing, c.size, x), c.startY + y)
  }

  /** A selfie still is the back-camera still of the same frame, flipped left to right. */
  lemma SelfieIsFlipped(width: nat, height: nat, x: real, y: real)
    requires 0.0 <= x <= CenteredCrop(width, height).size as real
    requires 0.0 <= y <= CenteredCrop(width, height).size as real
    ensures SourcePoint(width, height, User, x, y)
         == SourcePoint(width, height, Environment, CenteredCrop(width, height).size as real - x, y)
  {
  }

  /** What a capture records: the crop, the mode it was taken in, and the encoded still. */
  datatype Shot = Shot(crop: Crop, facing: Facing, dataUrl: string)

  // ---------------------------------------------------------------------------
  // The print sequencer
  // ---------------------------------------------------------------------------

  /** Pending animation-frame callbacks: the outer one schedules the inner one for the next frame. */
  datatype FrameCallback = OuterFrame | InnerFrame

  /** Pending timers: shutter release (150 ms), flash end (300 ms), print done (3500 ms). */
  datatype Timer = ReleaseShutter | EndFlash | FinishPrint(dataUrl: string)

  datatype PressOutcome = Ignored | FlashOnly | Captured(shot: Shot)

  /** The callbacks queued for the frame after this one: one inner callback per outer one run now. */
  function NextFrame(callbacks: seq<FrameCallback>): (next: seq<FrameCallback>)
    ensures forall c :: c in next ==> c == InnerFrame
    ensures InnerFrame in next <==> OuterFrame in callbacks
  {
    if callbacks == [] then []
    else if callbacks[0] == OuterFrame then [InnerFrame] + NextFrame(callbacks[1..])
    else NextFrame(callbacks[1..])
  }

  /** The stills whose print timer is still pending, in scheduling order. */
  function PendingPrints(timers: seq<Timer>): seq<string>
  {
    if timers == [] then []
    else if timers[0].FinishPrint? then [timers[0].dataUrl] + PendingPrints(timers[1..])
    else PendingPrints(timers[1..])
  }

  lemma {:induction false} PendingPrintsConcat(a: seq<Timer>, b: seq<Timer>)
    ensures PendingPrints(a + b) == PendingPrints(a) + PendingPrints(b)
  {
    if a == [] {
      assert a + b == b;
    } else {
      assert (a + b)[0] == a[0] && (a + b)[1..] == a[1..] + b;
      PendingPrintsConcat(a[1..], b);
    }
  }

  /** The print timers among the three a capturing press schedules. */
  lemma PressTimers(dataUrl: string)
    ensures PendingPrints([ReleaseShutter, EndFlash]) == []
    ensures PendingPrints([ReleaseShutter, EndFlash, FinishPrint(dataUrl)]) == [dataUrl]
  {
    assert [ReleaseShutter, EndFlash][1..] == [EndFlash];
    assert [EndFlash][1..] == [];
    assert [ReleaseShutter, EndFlash, FinishPrint(dataUrl)][1..] == [EndFlash, FinishPrint(dataUrl)];
    assert [EndFlash, FinishPrint(dataUrl)][1..] == [FinishPrint(dataUrl)];
    assert [FinishPrint(dataUrl)][1..] == [];
    assert PendingPrints([FinishPrint(dataUrl)]) == [dataUrl];
    assert PendingPrints([EndFlash, FinishPrint(dataUrl)]) == [dataUrl];
  }

  lemma PendingPrintsSingle(t: Timer)
    ensures PendingPrints([t]) == if t.FinishPrint? then [t.dataUrl] else []
  {
    assert [t][1..] == [];
  }

  /** Removing one timer removes its still, if it has one, from the pending prints. */
  lemma PendingPrintsRemove(before: seq<Timer>, t: Timer, after: seq<Timer>)
    ensures multiset(PendingPrints(before + [t] + after))
         == multiset(PendingPrints(before + after))
          + (if t.FinishPrint? then multiset{t.dataUrl} else multiset{})
  {
    PendingPrintsConcat(before + [t], after);
    PendingPrintsConcat(before, [t]);
    PendingPrintsConcat(before, after);
    PendingPrintsSingle(t);
    var x, y := PendingPrints(before), PendingPrints(after);
    var mid := PendingPrints([t]);
    assert multiset(x + mid + y) == multiset(x) + multiset(mid) + multiset(y);
    assert multiset(x + y) == multiset(x) + multiset(y);
  }

  /** With no print pending, no timer is a print timer, and removing one leaves none pending. */
  lemma NoPrintTimer(timers: seq<Timer>, k: nat)
    requires PendingPrints(timers) == [] && k < |timers|
    ensures !timers[k].FinishPrint?
    ensures PendingPrints(timers[..k] + timers[k + 1..]) == []
  {
    assert timers == timers[..k] + [timers[k]] + timers[k + 1..];
    PendingPrintsRemove(timers[..k], timers[k], timers[k + 1..]);
  }

  /**
   * The sequencer's bookkeeping invariant over plain values: every captured still is
   * delivered or still has its print timer pending, and not both, and not twice; each
   * visual flag that is on, and the print visual, has a pending timer that clears it.
   */
  ghost predicate Consistent(delivered: seq<string>, timers: seq<Timer>, shots: seq<string>,
                             shutterPressed: bool, isFlashing: bool, printingPhoto: Option<string>)
  {
    && multiset(delivered) + multiset(PendingPrints(timers)) == multiset(shots)
    && (shutterPressed ==> ReleaseShutter in timers)
    && (isFlashing ==> EndFlash in timers)
    && (printingPhoto.Some? ==> FinishPrint(printingPhoto.value) in timers)
  }

  /** An admitted press keeps the bookkeeping consistent. */
  lemma PressConsistent(delivered: seq<string>, timers: seq<Timer>, shots: seq<string>,
                        shutterPressed: bool, isFlashing: bool, printingPhoto: Option<string>,
                        hasContext: bool, dataUrl: string,
                        timers': seq<Timer>, shots': seq<string>, printingPhoto': Option<string>)
    requires Consistent(delivered, timers, shots, shutterPressed, isFlashing, printingPhoto)
    requires timers' == timers + if hasContext then [ReleaseShutter, EndFlash, FinishPrint(dataUrl)]
                                 else [ReleaseShutter, EndFlash]
    requires shots' == if hasContext then shots + [dataUrl] else shots
    requires printingPhoto' == if hasContext then Some(dataUrl) else printingPhoto
    ensures Consistent(delivered, timers', shots', true, true, printingPhoto')
  {
    PressTimers(dataUrl);
    if hasContext {
      PendingPrintsConcat(timers, [ReleaseShutter, EndFlash, FinishPrint(dataUrl)]);
      assert multiset(shots + [dataUrl]) == multiset(shots) + multiset{dataUrl};
      assert multiset(PendingPrints(timers) + [dataUrl])
          == multiset(PendingPrints(timers)) + multiset{dataUrl};
    } else {
      PendingPrintsConcat(timers, [ReleaseShutter, EndFlash]);
    }
  }

  /** Firing the timer at index `i` keeps the bookkeeping consistent. */
  lemma FireConsistent(delivered: seq<string>, timers: seq<Timer>, i: nat,
                       shots: seq<string>, shutterPressed: bool, isFlashing: bool,
                       printingPhoto: Option<string>, delivered': seq<string>, timers': seq<Timer>,
                       shutterPressed': bool, isFlashing': bool, printingPhoto': Option<string>)
    requires Consistent(delivered, timers, shots, shutterPressed, isFlashing, printingPhoto)
    requires i < |timers| && timers' == timers[..i] + timers[i + 1..]
    requires delivered' == if timers[i].FinishPrint? then delivered + [timers[i].dataUrl] else delivered
    requires shutterPressed' == (shutterPressed && timers[i] != ReleaseShutter)
    requires isFlashing' == (isFlashing && timers[i] != EndFlash)
    requires printingPhoto' == if timers[i].FinishPrint? then None else printingPhoto
    ensures Consistent(delivered', timers', shots, shutterPressed', isFlashing', printingPhoto')
  {
    var before, t, after := timers[..i], timers[i], timers[i + 1..];
    assert timers == before + [t] + after;
    PendingPrintsRemove(before, t, after);
    if t.FinishPrint? {
      assert multiset(delivered + [t.dataUrl]) == multiset(delivered) + multiset{t.dataUrl};
    }
  }

  class Camera {
    var facing: Facing
    var shutterPressed: bool
    var isFlashing: bool
    var printingPhoto: Option<string>
    var isPrinting: bool
    var frames: seq<FrameCallback>
    var timers: seq<Timer>
    /** The arguments of every onCapture call so far, in call order. */
    var delivered: seq<string>
    /** The stills of every press that captured, in press order. */
    ghost var shots: seq<string>

    /** The bookkeeping invariant over the current fields. */
    ghost predicate Valid()
      reads this
    {
      Consistent(delivered, timers, shots, shutterPressed, isFlashing, printingPhoto)
    }

    constructor ()
      ensures Valid()
      ensures facing == Environment && printingPhoto == None
      ensures !shutterPressed && !isFlashing && !isPrinting
      ensures frames == [] && timers == [] && delivered == [] && shots == []
    {
      facing := Environment;
      shutterPressed, isFlashing, isPrinting := false, false, false;
      printingPhoto := None;
      frames, timers, delivered := [], [], [];
      shots := [];
    }

    /**
     * The shutter button. `ready` says the video and canvas elements are mounted,
     * `hasContext` that a 2D context was obtained; `dataUrl` is the encoded still.
     * The guard reads only `isPrinting`, which turns true two frames after a capture.
     */
    method Press(ready: bool, hasContext: bool, width: nat, height: nat, dataUrl: string)
      returns (outcome: PressOutcome)
      requires Valid()
      modifies this
      ensures Valid()
      ensures outcome.Ignored? <==> !ready || old(isPrinting)
      ensures outcome.Ignored? ==> unchanged(this)
      ensures !outcome.Ignored? ==>
        && shutterPressed && isFlashing && !isPrinting
        && facing == old(facing) && delivered == old(delivered)
      ensures outcome.FlashOnly? <==> ready && !old(isPrinting) && !hasContext
      ensures outcome.FlashOnly? ==>
        && timers == old(timers) + [ReleaseShutter, EndFlash]
        && frames == old(frames) && printingPhoto == old(printingPhoto) && shots == old(shots)
      ensures outcome.Captured? ==>
        && outcome.shot == Shot(CenteredCrop(width, height), old(facing), dataUrl)
        && printingPhoto == Some(dataUrl)
        && frames == old(frames) + [OuterFrame]
        && timers == old(timers) + [ReleaseShutter, EndFlash, FinishPrint(dataUrl)]
        && shots == old(shots) + [dataUrl]
    {
      if !ready || isPrinting {
        return Ignored;
      }
      ghost var wasTimers, wasShots, wasShutter, wasFlashing, wasPrinting :=
        timers, shots, shutterPressed, isFlashing, printingPhoto;
      shutterPressed, isFlashing := true, true;
      if hasContext {
        timers := timers + [ReleaseShutter, EndFlash, FinishPrint(dataUrl)];
        printingPhoto := Some(dataUrl);
        frames := frames + [OuterFrame];
        shots := shots + [dataUrl];
        outcome := Captured(Shot(CenteredCrop(width, height), facing, dataUrl));
      } else {
        timers := timers + [ReleaseShutter, EndFlash];
        outcome := FlashOnly;
      }
      PressConsistent(delivered, wasTimers, wasShots, wasShutter, wasFlashing, wasPrinting,
                      hasContext, dataUrl, timers, shots, printingPhoto);
    }

    /** One animation frame: run the queued callbacks; an inner one starts the ejection. */
    method FrameTick()
      requires Valid()
      modifies this
      ensures Valid()
      ensures frames == NextFrame(old(frames))
      ensures isPrinting == (old(isPrinting) || InnerFrame in old(frames))
      ensures facing == old(facing) && shutterPressed == old(shutterPressed)
      ensures isFlashing == old(isFlashing) && printingPhoto == old(printingPhoto)
      ensures timers == old(timers) && delivered == old(delivered) && shots == old(shots)
    {
      if InnerFrame in frames {
        isPrinting := true;
      }
      frames := NextFrame(frames);
    }

    /**
     * The pending timer at index `i` fires. The print timer calls onCapture with its own
     * still, exactly once, and then clears the print visual and `isPrinting`.
     */
    method Timeout(i: nat) returns (captured: Option<string>)
      requires Valid()
      requires i < |timers|
      modifies this
      ensures Valid()
      ensures timers == old(timers[..i] + timers[i + 1..])
      ensures facing == old(facing) && frames == old(frames) && shots == old(shots)
      ensures old(timers[i]) == ReleaseShutter ==>
        !shutterPressed && isFlashing == old(isFlashing)
      ensures old(timers[i]) == EndFlash ==>
        !isFlashing && shutterPressed == old(shutterPressed)
      ensures !old(timers[i]).FinishPrint? ==>
        && captured == None && delivered == old(delivered)
        && printingPhoto == old(printingPhoto) && isPrinting == old(isPrinting)
      ensures old(timers[i]).FinishPrint? ==>
        && captured == Some(old(timers[i]).dataUrl)
        && delivered == old(delivered) + [old(timers[i]).dataUrl]
        && printingPhoto == None && !isPrinting
        && shutterPressed == old(shutterPressed) && isFlashing == old(isFlashing)
    {
      var t := timers[i];
      ghost var wasTimers, wasDelivered, wasShutter, wasFlashing, wasPrinting :=
        timers, delivered, shutterPressed, isFlashing, printingPhoto;
      timers := timers[..i] + timers[i + 1..];
      shutterPressed := shutterPressed && t != ReleaseShutter;
      isFlashing := isFlashing && t != EndFlash;
      if t.FinishPrint? {
        delivered := delivered + [t.dataUrl];
        captured := Some(t.dataUrl);
        printingPhoto := None;
        isPrinting := false;
      } else {
        captured := None;
      }
      FireConsistent(wasDelivered, wasTimers, i, shots, wasShutter, wasFlashing, wasPrinting,
                     delivered, timers, shutterPressed, isFlashing, printingPhoto);
    }

    /** The camera switch button. */
    method Toggle()
      requires Valid()
      modifies this
      ensures Valid()
      ensures facing == Toggled(old(facing))
      ensures shutterPressed == old(shutterPressed) && isFlashing == old(isFlashing)
      ensures printingPhoto == old(printingPhoto) && isPrinting == old(isPrinting)
      ensures frames == old(frames) && timers == old(timers)
      ensures delivered == old(delivered) && shots == old(shots)
    {
      facing := Toggled(facing);
    }
  }

  // ---------------------------------------------------------------------------
  // Event orders the sequencer admits
  // ---------------------------------------------------------------------------

  /**
   * An idle camera, one press, two frames, then the print timer: the print shows at
   * once, ejection starts only on the second frame, and onCapture gets the still.
   */
  method PrintCycle(width: nat, height: nat, dataUrl: string)
    returns (showing: Option<string>, atPress: bool, afterOneFrame: bool, afterTwoFrames: bool,
             whilePrinting: PressOutcome, captured: Option<string>, clearedAfter: bool)
    ensures showing == Some(dataUrl)
    ensures !atPress && !afterOneFrame && afterTwoFrames && whilePrinting.Ignored?
    ensures captured == Some(dataUrl) && clearedAfter
  {
    var cam := new Camera();
    var outcome := cam.Press(true, true, width, height, dataUrl);
    showing, atPress := cam.printingPhoto, cam.isPrinting;
    cam.FrameTick();
    afterOneFrame := cam.isPrinting;
    cam.FrameTick();
    afterTwoFrames := cam.isPrinting;
    var released := cam.Timeout(0);
    var flashEnded := cam.Timeout(0);
    whilePrinting := cam.Press(true, true, width, height, dataUrl);
    captured := cam.Timeout(0);
    clearedAfter := !cam.isPrinting && cam.printingPhoto == None;
  }

  /** Two presses before the first frame are both admitted and both stills await onCapture. */
  method EarlySecondPress(first: string, second: string)
    returns (a: PressOutcome, b: PressOutcome, pending: seq<string>)
    ensures a.Captured? && b.Captured?
    ensures pending == [first, second]
  {
    var cam := new Camera();
    var one := [ReleaseShutter, EndFlash, FinishPrint(first)];
    var two := [ReleaseShutter, EndFlash, FinishPrint(second)];
    a := cam.Press(true, true, 1920, 1080, first);
    assert cam.timers == one;
    b := cam.Press(true, true, 1920, 1080, second);
    assert cam.timers == one + two;
    PressTimers(first);
    PressTimers(second);
    PendingPrintsConcat(one, two);
    pending := PendingPrints(cam.timers);
  }

  /**
   * If the print timer fires before the two frames have run (animation frames are held
   * back while timers still run), `isPrinting` is set afterwards with no timer left to
   * clear it, and a later press is dropped (`StuckStaysStuck` shows this lasts).
   */
  method TimerBeforeFrames(dataUrl: string, next: string)
    returns (captured: Option<string>, later: PressOutcome, stuck: bool)
    ensures captured == Some(dataUrl)
    ensures later.Ignored?
    ensures stuck
  {
    var cam := new Camera();
    var first := cam.Press(true, true, 640, 480, dataUrl);
    var released := cam.Timeout(0);
    var flashEnded := cam.Timeout(0);
    captured := cam.Timeout(0);
    cam.FrameTick();
    cam.FrameTick();
    later := cam.Press(true, true, 640, 480, next);
    stuck := cam.isPrinting && PendingPrints(cam.timers) == [];
  }

  /** Anything that can happen to the camera: a click, a frame, a timer, the switch. */
  datatype CameraEvent =
    | ShutterClick(ready: bool, hasContext: bool, width: nat, height: nat, dataUrl: string)
    | AnimationFrame
    | TimerFires(index: nat)
    | SwitchClick

  /**
   * Once `isPrinting` is true with no print timer pending, every event leaves it so:
   * each click is ignored and no still reaches onCapture any more.
   */
  method StuckStaysStuck(cam: Camera, event: CameraEvent)
    returns (outcome: PressOutcome, captured: Option<string>)
    requires cam.Valid() && cam.isPrinting && PendingPrints(cam.timers) == []
    requires event.TimerFires? ==> event.index < |cam.timers|
    modifies cam
    ensures cam.Valid() && cam.isPrinting && PendingPrints(cam.timers) == []
    ensures event.ShutterClick? ==> outcome.Ignored?
    ensures captured == None && cam.delivered == old(cam.delivered)
  {
    outcome, captured := Ignored, None;
    match event
    case ShutterClick(ready, hasContext, width, height, dataUrl) =>
      outcome := cam.Press(ready, hasContext, width, height, dataUrl);
    case AnimationFrame =>
      cam.FrameTick();
    case TimerFires(k) =>
      NoPrintTimer(cam.timers, k);
      captured := cam.Timeout(k);
    case SwitchClick =>
      cam.Toggle();
  }
}
