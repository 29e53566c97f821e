/** The camera widgets: a view that drains a frame queue and shows the kept
    frame, and two selection widgets that keep a region of interest in step
    with the tracking parameters and draw the latest tracking result over
    the frame. */
module CameraDisplay {
  import opened Types

  // ---------------------------------------------------------------------
  // The objects the widgets talk to
  // ---------------------------------------------------------------------

  /** One item of a frame queue: `(time, image)`. */
  datatype Frame = Frame(time: real, image: Image)

  /** A frame queue, seen as the frames it holds, oldest first. */
  class FrameQueue {
    var items: seq<Frame>

    constructor (items: seq<Frame>)
      ensures this.items == items
    {
      this.items := items;
    }

    /** `get(timeout=...)`: the oldest frame; `None` stands for the `Empty`
        exception raised when nothing is queued. */
    method Get() returns (frame: Option<Frame>)
      modifies this
      ensures old(items) == [] ==> frame == None && items == []
      ensures old(items) != [] ==> frame == Some(old(items)[0]) && items == old(items)[1..]
    {
      if items == [] {
        frame := None;
      } else {
        frame := Some(items[0]);
        items := items[1..];
      }
    }
  }

  /** The queue of camera control settings. */
  class ControlQueue {
    var items: seq<map<string, ParamValue>>

    constructor ()
      ensures items == []
    {
      items := [];
    }

    method Put(settings: map<string, ParamValue>)
      modifies this
      ensures items == old(items) + [settings]
    {
      items := items + [settings];
    }
  }

  class Camera {
    const frameQueue: FrameQueue
    const controlQueue: ControlQueue?
    const rotation: int

    constructor (frameQueue: FrameQueue, controlQueue: ControlQueue?, rotation: int)
      ensures this.frameQueue == frameQueue && this.controlQueue == controlQueue && this.rotation == rotation
    {
      this.frameQueue := frameQueue;
      this.controlQueue := controlQueue;
      this.rotation := rotation;
    }
  }

  class FrameDispatcher {
    const guiQueue: FrameQueue

    constructor (guiQueue: FrameQueue)
      ensures this.guiQueue == guiQueue
    {
      this.guiQueue := guiQueue;
    }
  }

  /** The data accumulator, seen through the rows it has stored so far. */
  class DataAccumulator {
    var storedData: seq<seq<Value>>

    constructor (storedData: seq<seq<Value>>)
      ensures this.storedData == storedData
    {
      this.storedData := storedData;
    }
  }

  /** The experiment a widget belongs to; `frameDispatcher` is null when the
      experiment has no `frame_dispatcher` attribute, `trackingParams` when it
      tracks nothing. An attribute that exists but holds `None`, which makes
      the view's constructor raise `AttributeError` before the camera's queue
      replaces the choice, is not represented. */
  class Experiment {
    const camera: Camera
    const frameDispatcher: FrameDispatcher?
    const dataAcc: DataAccumulator
    const trackingParams: Parametrized?

    constructor (camera: Camera, frameDispatcher: FrameDispatcher?, dataAcc: DataAccumulator, trackingParams: Parametrized?)
      ensures this.camera == camera && this.frameDispatcher == frameDispatcher
      ensures this.dataAcc == dataAcc && this.trackingParams == trackingParams
    {
      this.camera := camera;
      this.frameDispatcher := frameDispatcher;
      this.dataAcc := dataAcc;
      this.trackingParams := trackingParams;
    }
  }

  // ---------------------------------------------------------------------
  // Which frame is shown
  // ---------------------------------------------------------------------

  /** A drawn eye: centre, axes and angle, as handed to the ellipse drawer. */
  datatype Ellipse = Ellipse(centre: (Value, Value), axes: seq<Value>, angle: Value)

  /** What the image item shows: the initial black image, a frame, or a
      frame with the eye ellipses drawn on it. */
  datatype Display = Blank | Shows(image: Image) | ShowsEllipses(base: Option<Image>, ellipses: seq<Ellipse>)

  /** The image after `n` successive `np.rot90(., k)`. */
  function RotatedTimes(img: Image, k: int, n: nat): Image
    decreases n
  {
    if n == 0 then img else Rot90(RotatedTimes(img, k, n - 1), k)
  }

  lemma ModShift(a: int, k: int)
    ensures (a % 4 + k) % 4 == (a + k) % 4
  {
    var q := a / 4;
    assert a == 4 * q + a % 4;
    assert a % 4 + k == (a + k) - 4 * q;
  }

  /** n rotations by k quarter turns make k * n quarter turns in all. */
  lemma {:induction false} RotatedTimesNet(img: Image, k: int, n: nat)
    ensures RotatedTimes(img, k, n) == Image(img.id, (img.quarterTurns + k * n) % 4)
    decreases n
  {
    if n > 0 {
      RotatedTimesNet(img, k, n - 1);
      ModShift(img.quarterTurns + k * (n - 1), k);
      assert img.quarterTurns + k * (n - 1) + k == img.quarterTurns + k * n;
    }
  }

  /** The first frame taken from the queue, rotated once per frame taken. */
  function KeptFrameImage(first: Image, rotation: int, taken: nat): Image
  {
    if rotation >= 1 then RotatedTimes(first, rotation, taken) else first
  }

  /** The current image after the queue `queue` has been drained. */
  function KeptImage(current: Option<Image>, queue: seq<Frame>, rotation: int): Option<Image>
  {
    if queue == [] then current else Some(KeptFrameImage(queue[0].image, rotation, |queue|))
  }

  /** Draining keeps the current image when nothing is queued; otherwise it
      keeps the oldest queued frame, turned by `rotation` quarter turns for
      every frame taken (none when `rotation < 1`). */
  lemma KeptImageFacts(current: Option<Image>, queue: seq<Frame>, rotation: int)
    ensures queue == [] ==> KeptImage(current, queue, rotation) == current
    ensures queue != [] ==>
              KeptImage(current, queue, rotation) ==
                Some(Image(queue[0].image.id,
                           (queue[0].image.quarterTurns + (if rotation >= 1 then rotation * |queue| else 0)) % 4))
  {
    if queue != [] && rotation >= 1 {
      RotatedTimesNet(queue[0].image, rotation, |queue|);
    }
  }

  /** The frame kept is not the most recent one whenever the oldest and the
      newest queued frames differ. */
  lemma KeptImageIsOldest(current: Option<Image>, queue: seq<Frame>, rotation: int)
    requires |queue| >= 2 && queue[0].image.id != queue[|queue| - 1].image.id
    ensures KeptImage(current, queue, rotation).Some?
    ensures KeptImage(current, queue, rotation).value.id != queue[|queue| - 1].image.id
  {
    KeptImageFacts(current, queue, rotation);
  }

  // ---------------------------------------------------------------------
  // The camera view
  // ---------------------------------------------------------------------

  class CameraViewWidget {
    const experiment: Experiment
    const camera: Camera
    var frameQueue: FrameQueue
    const controlQueue: ControlQueue?
    const cameraRotation: int
    /** The clean values of the camera control parameters. */
    var controlParams: map<string, ParamValue>
    var currentImage: Option<Image>
    var display: Display

    /** Whatever the experiment offers, the view reads the camera's own
        frame queue: the queue chosen from the dispatcher is overwritten. */
    constructor (experiment: Experiment, controlValues: map<string, ParamValue>)
      ensures this.experiment == experiment && camera == experiment.camera
      ensures frameQueue == experiment.camera.frameQueue
      ensures controlQueue == experiment.camera.controlQueue
      ensures cameraRotation == experiment.camera.rotation
      ensures controlParams == controlValues
      ensures currentImage == None && display == Blank
    {
      this.experiment := experiment;
      camera := experiment.camera;
      controlParams := controlValues;
      display := Blank;
      if experiment.frameDispatcher != null {
        frameQueue := experiment.frameDispatcher.guiQueue;
      } else {
        frameQueue := experiment.camera.frameQueue;
      }
      frameQueue := experiment.camera.frameQueue;
      controlQueue := experiment.camera.controlQueue;
      cameraRotation := experiment.camera.rotation;
      currentImage := None;
    }

    /** Sends the current control settings to the camera. */
    method UpdateControls()
      requires controlQueue != null
      modifies controlQueue
      ensures controlQueue.items == old(controlQueue.items) + [controlParams]
    {
      controlQueue.Put(controlParams);
    }

    /** Takes every queued frame, keeps the first one taken (turned once per
        frame taken) and shows it. */
    method UpdateImage()
      modifies this`currentImage, this`display, frameQueue
      ensures frameQueue.items == []
      ensures currentImage == KeptImage(old(currentImage), old(frameQueue.items), cameraRotation)
      ensures display == if currentImage.Some? then Shows(currentImage.value) else old(display)
    {
      ghost var queued := frameQueue.items;
      ghost var taken: nat := 0;
      var first := true;
      while true
        invariant taken <= |queued| && frameQueue.items == queued[taken..]
        invariant first <==> taken == 0
        invariant taken == 0 ==> currentImage == old(currentImage)
        invariant display == old(display)
        invariant taken > 0 ==> currentImage == Some(KeptFrameImage(queued[0].image, cameraRotation, taken))
        decreases |frameQueue.items|
      {
        if first {
          var frame := frameQueue.Get();
          if frame.None? {
            break;
          }
          currentImage := Some(frame.value.image);
          first := false;
        } else {
          var frame := frameQueue.Get();
          if frame.None? {
            break;
          }
        }
        if cameraRotation >= 1 {
          currentImage := Some(Rot90(currentImage.value, cameraRotation));
        }
        taken := taken + 1;
      }
      if currentImage.Some? {
        display := Shows(currentImage.value);
      }
    }
  }

  /** The part shared by the selection widgets: the view reads the
      dispatcher's display queue and the tracking parameters are at hand. */
  class CameraSelection {
    const view: CameraViewWidget
    const trackParams: Parametrized

    constructor (experiment: Experiment, controlValues: map<string, ParamValue>)
      requires experiment.frameDispatcher != null && experiment.trackingParams != null
      ensures fresh(view) && view.experiment == experiment && view.camera == experiment.camera
      ensures view.frameQueue == experiment.frameDispatcher.guiQueue
      ensures view.controlQueue == experiment.camera.controlQueue
      ensures view.cameraRotation == experiment.camera.rotation
      ensures view.controlParams == controlValues
      ensures view.currentImage == None && view.display == Blank
      ensures trackParams == experiment.trackingParams
    {
      var v := new CameraViewWidget(experiment, controlValues);
      v.frameQueue := experiment.frameDispatcher.guiQueue;
      view := v;
      trackParams := experiment.trackingParams;
    }
  }

  // ---------------------------------------------------------------------
  // Tail selection
  // ---------------------------------------------------------------------

  function PointAdd(a: Point, b: Point): Point
  {
    Point(a.x + b.x, a.y + b.y)
  }

  function PointSub(a: Point, b: Point): Point
  {
    Point(a.x - b.x, a.y - b.y)
  }

  /** `(tail_start, tail_length)` read off the two handles of the tail ROI. */
  function ParamsFromHandles(p1: Point, p2: Point): (r: (Point, Point))
    ensures r.0 == p1 && PointAdd(r.0, r.1) == p2
  {
    (p1, PointSub(p2, p1))
  }

  /** The two handle positions for `tail_start` and `tail_length`. */
  function HandlesFromParams(start: Point, length: Point): (r: (Point, Point))
    ensures r.0 == start && PointSub(r.1, r.0) == length
  {
    (start, PointAdd(start, length))
  }

  /** Handles to parameters and back gives the handles; parameters to
      handles and back gives the parameters. */
  lemma TailRoiRoundTrip(p1: Point, p2: Point, start: Point, length: Point)
    ensures var (s, l) := ParamsFromHandles(p1, p2); HandlesFromParams(s, l) == (p1, p2)
    ensures var (h1, h2) := HandlesFromParams(start, length); ParamsFromHandles(h1, h2) == (start, length)
  {
  }

  /** A row of the numpy array of tail points. */
  datatype Vec = Vec(c0: real, c1: real)

  function VecAdd(a: Vec, b: Vec): Vec
  {
    Vec(a.c0 + b.c0, a.c1 + b.c1)
  }

  /** `tail_segment_length * [sin(angle), cos(angle)]`, computed from the
      `tail_length` parameter, the number of angles and one angle. */
  type SegmentOffset = (Point, int, Value) -> Vec

  /** The tail points: the start, then one point per angle, each the previous
      one moved by that angle's segment offset. */
  function TailPath(start: Vec, angles: seq<Value>, offset: SegmentOffset, length: Point, count: int): (points: seq<Vec>)
    ensures |points| == |angles| + 1 && points[0] == start
    decreases |angles|
  {
    if angles == [] then [start]
    else
      var p := TailPath(start, angles[..|angles| - 1], offset, length, count);
      p + [VecAdd(p[|p| - 1], offset(length, count, angles[|angles| - 1]))]
  }

  /** Each point after the first is the one before it moved by the offset
      of its angle. */
  lemma {:induction false} TailPathStep(start: Vec, angles: seq<Value>, offset: SegmentOffset, length: Point, count: int, k: nat)
    requires k < |angles|
    ensures TailPath(start, angles, offset, length, count)[k + 1] ==
              VecAdd(TailPath(start, angles, offset, length, count)[k], offset(length, count, angles[k]))
    decreases |angles|
  {
    var init := angles[..|angles| - 1];
    var p := TailPath(start, init, offset, length, count);
    var points := TailPath(start, angles, offset, length, count);
    assert points == p + [VecAdd(p[|p| - 1], offset(length, count, angles[|angles| - 1]))];
    if k < |init| {
      TailPathStep(start, init, offset, length, count, k);
      assert init[k] == angles[k];
      assert points[k] == p[k] && points[k + 1] == p[k + 1];
    } else {
      assert points[k] == p[|p| - 1];
    }
  }

  /** Computes the tail points the way the overlay does, appending one point
      per angle; `np.sin(None)` raises a `TypeError` at the first `None`
      angle, and the points computed so far are dropped. */
  method TailPoints(start: Vec, angles: seq<Value>, offset: SegmentOffset, length: Point)
    returns (points: Outcome<seq<Vec>>)
    ensures points == if PyNone in angles then Raise(TypeError)
                      else Ok(TailPath(start, angles, offset, length, |angles|))
  {
    var ps := [start];
    for i := 0 to |angles|
      invariant PyNone !in angles[..i]
      invariant ps == TailPath(start, angles[..i], offset, length, |angles|)
    {
      if angles[i] == PyNone {
        return Raise(TypeError);
      }
      assert angles[..i + 1] == angles[..i] + [angles[i]];
      assert angles[..i + 1][..i] == angles[..i];
      ps := ps + [VecAdd(ps[|ps| - 1], offset(length, |angles|, angles[i]))];
    }
    assert angles[..|angles|] == angles;
    points := Ok(ps);
  }

  /** The data handed to the tail curve: x from the second column of the
      points, y from the first. */
  datatype Curve = Curve(xs: seq<real>, ys: seq<real>)

  function CurveOf(points: seq<Vec>): Curve
  {
    Curve(seq(|points|, k requires 0 <= k < |points| => points[k].c1),
          seq(|points|, k requires 0 <= k < |points| => points[k].c0))
  }

  /** Python's lenient `s[i:]`. */
  function SliceFrom<T>(s: seq<T>, i: nat): seq<T>
  {
    if i <= |s| then s[i..] else []
  }

  /** The tail angles of the latest stored row: the row without its time
      and tail sum columns. */
  function TailAngles(rows: seq<seq<Value>>): seq<Value>
    requires rows != []
  {
    SliceFrom(rows[|rows| - 1], 2)
  }

  /** The curve drawn for the latest row: one point more than there are
      angles, starting at `tail_start` in the ROI's own axes. */
  lemma TailCurveShape(rows: seq<seq<Value>>, start: Point, offset: SegmentOffset, length: Point)
    requires rows != []
    ensures var angles := TailAngles(rows);
      var c := CurveOf(TailPath(Vec(start.y, start.x), angles, offset, length, |angles|));
      |c.xs| == |c.ys| == |angles| + 1 &&
      |angles| == (if |rows[|rows| - 1]| >= 2 then |rows[|rows| - 1]| - 2 else 0) &&
      c.xs[0] == start.x && c.ys[0] == start.y
  {
  }

  /** The tail overlay for the stored rows: nothing before a second row is
      stored, otherwise the curve of the latest row's angles, or the error
      a `None` angle raises. */
  function TailOverlay(rows: seq<seq<Value>>, start: Point, length: Point, offset: SegmentOffset): Outcome<Option<Curve>>
  {
    if |rows| <= 1 then Ok(None)
    else
      var angles := TailAngles(rows);
      if PyNone in angles then Raise(TypeError)
      else Ok(Some(CurveOf(TailPath(Vec(start.y, start.x), angles, offset, length, |angles|))))
  }

  /** A curve is drawn exactly when more than one row is stored and no angle
      of the latest row is `None`; with a `None` angle the overlay raises
      `TypeError`, and with one row or none it draws nothing. */
  lemma TailOverlayCases(rows: seq<seq<Value>>, start: Point, length: Point, offset: SegmentOffset)
    ensures TailOverlay(rows, start, length, offset) == Ok(None) <==> |rows| <= 1
    ensures TailOverlay(rows, start, length, offset) == Raise(TypeError) <==>
              |rows| > 1 && (var row := rows[|rows| - 1]; exists k :: 2 <= k < |row| && row[k].PyNone?)
    ensures var r := TailOverlay(rows, start, length, offset);
      r.Ok? && r.value.Some? <==>
        |rows| > 1 && (var row := rows[|rows| - 1]; forall k :: 2 <= k < |row| ==> !row[k].PyNone?)
  {
  }

  class LineSegmentRoi {
    var p1: Point
    var p2: Point

    constructor (p1: Point, p2: Point)
      ensures this.p1 == p1 && this.p2 == p2
    {
      this.p1 := p1;
      this.p2 := p2;
    }
  }

  class CameraTailSelection {
    const selection: CameraSelection
    const roi: LineSegmentRoi
    var tailCurve: Curve

    /** The tail parameters the widget reads are present. */
    ghost predicate Valid()
      reads this, selection, selection.trackParams
    {
      HasPair(selection.trackParams.values, "tail_start") &&
      HasPair(selection.trackParams.values, "tail_length")
    }

    function TailStart(): Point
      reads this, selection, selection.trackParams
      requires Valid()
    {
      selection.trackParams.values["tail_start"].p
    }

    function TailLength(): Point
      reads this, selection, selection.trackParams
      requires Valid()
    {
      selection.trackParams.values["tail_length"].p
    }

    constructor (experiment: Experiment, controlValues: map<string, ParamValue>)
      requires experiment.frameDispatcher != null && experiment.trackingParams != null
      requires HasPair(experiment.trackingParams.values, "tail_start")
      requires HasPair(experiment.trackingParams.values, "tail_length")
      ensures Valid() && fresh(selection) && fresh(selection.view) && fresh(roi)
      ensures selection.view.frameQueue == experiment.frameDispatcher.guiQueue
      ensures selection.view.experiment == experiment && selection.trackParams == experiment.trackingParams
      ensures (roi.p1, roi.p2) == HandlesFromParams(TailStart(), TailLength())
      ensures tailCurve == Curve([], [])
    {
      var s := new CameraSelection(experiment, controlValues);
      var values := experiment.trackingParams.values;
      var handles := HandlesFromParams(values["tail_start"].p, values["tail_length"].p);
      selection := s;
      roi := new LineSegmentRoi(handles.0, handles.1);
      tailCurve := Curve([], []);
    }

    /** Moves the ROI handles to the positions the parameters give. */
    method SetPosFromTree()
      requires Valid()
      modifies roi
      ensures Valid()
      ensures (roi.p1, roi.p2) == HandlesFromParams(TailStart(), TailLength())
    {
      var handles := HandlesFromParams(TailStart(), TailLength());
      roi.p1 := handles.0;
      roi.p2 := handles.1;
    }

    /** Writes the parameters the ROI handles give; nothing else changes. */
    method SetPosFromRoi()
      requires Valid()
      modifies selection.trackParams
      ensures Valid()
      ensures (TailStart(), TailLength()) == ParamsFromHandles(roi.p1, roi.p2)
      ensures selection.trackParams.values ==
                old(selection.trackParams.values)["tail_start" := PairValue(roi.p1)]
                                                 ["tail_length" := PairValue(PointSub(roi.p2, roi.p1))]
    {
      var ps := ParamsFromHandles(roi.p1, roi.p2);
      selection.trackParams.values := selection.trackParams.values["tail_start" := PairValue(ps.0)];
      selection.trackParams.values := selection.trackParams.values["tail_length" := PairValue(ps.1)];
    }

    /** Updates the view, then, once more than one row is stored, draws the
        tail curve for the latest row; a `None` angle raises before the curve
        is set, and the result reports what happened. */
    method UpdateImage(offset: SegmentOffset) returns (result: Outcome<Option<Curve>>)
      requires Valid()
      modifies selection.view`currentImage, selection.view`display, selection.view.frameQueue, this`tailCurve
      ensures Valid()
      ensures selection.view.frameQueue.items == []
      ensures selection.view.currentImage ==
                KeptImage(old(selection.view.currentImage), old(selection.view.frameQueue.items), selection.view.cameraRotation)
      ensures selection.view.display ==
                if selection.view.currentImage.Some? then Shows(selection.view.currentImage.value) else old(selection.view.display)
      ensures result == TailOverlay(selection.view.experiment.dataAcc.storedData, TailStart(), TailLength(), offset)
      ensures tailCurve == if result.Ok? && result.value.Some? then result.value.value else old(tailCurve)
    {
      selection.view.UpdateImage();
      var rows := selection.view.experiment.dataAcc.storedData;
      if |rows| <= 1 {
        return Ok(None);
      }
      var angles := TailAngles(rows);
      var start := TailStart();
      var points :- TailPoints(Vec(start.y, start.x), angles, offset, TailLength());
      tailCurve := CurveOf(points);
      result := Ok(Some(tailCurve));
    }
  }

  // ---------------------------------------------------------------------
  // Eyes selection
  // ---------------------------------------------------------------------

  /** Python's `int(r)`: truncation toward zero. */
  function Trunc(r: real): (n: int)
    ensures 0.0 <= r ==> n as real <= r < n as real + 1.0
    ensures r < 0.0 ==> n as real - 1.0 < r <= n as real
  {
    if r >= 0.0 then r.Floor else -((-r).Floor)
  }

  /** `tuple([int(c) for c in p])`. */
  function TruncPoint(p: Point): Point
  {
    Point(Trunc(p.x) as real, Trunc(p.y) as real)
  }

  /** Truncating a whole number leaves it as it is, so truncating twice is
      truncating once. */
  lemma TruncWhole(n: int)
    ensures Trunc(n as real) == n
  {
  }

  lemma TruncPointIdempotent(p: Point)
    ensures TruncPoint(TruncPoint(p)) == TruncPoint(p)
  {
    TruncWhole(Trunc(p.x));
    TruncWhole(Trunc(p.y));
  }

  function Slice<T>(s: seq<T>, i: nat, j: nat): seq<T>
    requires i <= j
  {
    if j <= |s| then s[i..j] else if i <= |s| then s[i..] else []
  }

  function Index(s: seq<Value>, i: nat): Outcome<Value>
  {
    if i < |s| then Ok(s[i]) else Raise(IndexError)
  }

  /** A value moved by an offset; not-a-number stays not-a-number. */
  function Shift(v: Value, p: real): Value
  {
    match v
    case Num(x) => Num(x + p)
    case NaN => NaN
    case PyNone => PyNone
  }

  /** Python's `v + p`, which raises on `None`. */
  function Plus(v: Value, p: real): Outcome<Value>
  {
    if v.PyNone? then Raise(TypeError) else Ok(Shift(v, p))
  }

  /** The two ellipses, evaluated in Python's order; the first eye field
      goes with the second coordinate of `wnd_pos` and the second with the
      first. */
  function EyeEllipses(e: seq<Value>, pos: Point): Outcome<seq<Ellipse>>
  {
    var e0 :- Index(e, 0);
    var x0 :- Plus(e0, pos.y);
    var e1 :- Index(e, 1);
    var y0 :- Plus(e1, pos.x);
    var axes0 := Slice(e, 2, 4);
    var angle0 :- Index(e, 4);
    var e5 :- Index(e, 5);
    var x1 :- Plus(e5, pos.y);
    var e6 :- Index(e, 6);
    var y1 :- Plus(e6, pos.x);
    var axes1 := Slice(e, 7, 9);
    var angle1 :- Index(e, 9);
    Ok([Ellipse((x0, y0), axes0, angle0), Ellipse((x1, y1), axes1, angle1)])
  }

  datatype Overlay = NotDrawn | Drawn(ellipses: seq<Ellipse>) | Raised(error: PyError)

  /** The eye overlay for the stored rows and the `wnd_pos` parameter. */
  function EyeOverlay(rows: seq<seq<Value>>, pos: Point): Overlay
  {
    if |rows| <= 1 then NotDrawn
    else
      var e := SliceFrom(rows[|rows| - 1], 1);
      if e == [] then Raised(IndexError)
      else if e[0].PyNone? then NotDrawn
      else match EyeEllipses(e, pos)
        case Ok(ellipses) => Drawn(ellipses)
        case Raise(err) => Raised(err)
  }

  /** Ellipses are drawn exactly when more than one row is stored and the
      latest row holds ten eye fields after its time, none of those that are
      offset being `None`; their centres are the eye positions moved by
      `wnd_pos` with the axes swapped. */
  lemma EyeOverlayDrawn(rows: seq<seq<Value>>, pos: Point)
    ensures EyeOverlay(rows, pos).Drawn? <==>
              |rows| > 1 &&
              var e := SliceFrom(rows[|rows| - 1], 1);
              |e| >= 10 && !e[0].PyNone? && !e[1].PyNone? && !e[5].PyNone? && !e[6].PyNone?
    ensures EyeOverlay(rows, pos).Drawn? ==>
              var e := SliceFrom(rows[|rows| - 1], 1);
              EyeOverlay(rows, pos).ellipses ==
                [Ellipse((Shift(e[0], pos.y), Shift(e[1], pos.x)), e[2..4], e[4]),
                 Ellipse((Shift(e[5], pos.y), Shift(e[6], pos.x)), e[7..9], e[9])]
    ensures |rows| > 1 && |rows[|rows| - 1]| >= 2 && rows[|rows| - 1][1].PyNone? ==>
              EyeOverlay(rows, pos) == NotDrawn
  {
  }

  class RectRoi {
    var pos: Point
    var size: Point

    constructor (pos: Point, size: Point)
      ensures this.pos == pos && this.size == size
    {
      this.pos := pos;
      this.size := size;
    }
  }

  class CameraEyesSelection {
    const selection: CameraSelection
    const roi: RectRoi

    /** The window parameters the widget reads are present. */
    ghost predicate Valid()
      reads this, selection, selection.trackParams
    {
      HasPair(selection.trackParams.values, "wnd_pos") &&
      HasPair(selection.trackParams.values, "wnd_dim")
    }

    function WndPos(): Point
      reads this, selection, selection.trackParams
      requires Valid()
    {
      selection.trackParams.values["wnd_pos"].p
    }

    function WndDim(): Point
      reads this, selection, selection.trackParams
      requires Valid()
    {
      selection.trackParams.values["wnd_dim"].p
    }

    constructor (experiment: Experiment, controlValues: map<string, ParamValue>)
      requires experiment.frameDispatcher != null && experiment.trackingParams != null
      requires HasPair(experiment.trackingParams.values, "wnd_pos")
      requires HasPair(experiment.trackingParams.values, "wnd_dim")
      ensures Valid() && fresh(selection) && fresh(selection.view) && fresh(roi)
      ensures selection.view.frameQueue == experiment.frameDispatcher.guiQueue
      ensures selection.view.experiment == experiment && selection.trackParams == experiment.trackingParams
      ensures roi.pos == WndPos() && roi.size == WndDim()
    {
      var s := new CameraSelection(experiment, controlValues);
      var values := experiment.trackingParams.values;
      selection := s;
      roi := new RectRoi(values["wnd_pos"].p, values["wnd_dim"].p);
    }

    /** Moves and resizes the ROI to the window the parameters give. */
    method SetPosFromTree()
      requires Valid()
      modifies roi
      ensures Valid()
      ensures roi.pos == WndPos() && roi.size == WndDim()
    {
      roi.pos := WndPos();
      roi.size := WndDim();
    }

    /** Writes the ROI's size and position, truncated to whole numbers, as
        the window parameters; nothing else changes. */
    method SetPosFromRoi()
      requires Valid()
      modifies selection.trackParams
      ensures Valid()
      ensures WndDim() == TruncPoint(roi.size) && WndPos() == TruncPoint(roi.pos)
      ensures selection.trackParams.values ==
                old(selection.trackParams.values)["wnd_dim" := PairValue(TruncPoint(roi.size))]
                                                 ["wnd_pos" := PairValue(TruncPoint(roi.pos))]
    {
      selection.trackParams.values := selection.trackParams.values["wnd_dim" := PairValue(TruncPoint(roi.size))];
      selection.trackParams.values := selection.trackParams.values["wnd_pos" := PairValue(TruncPoint(roi.pos))];
    }

    /** Updates the view, then draws the eye ellipses of the latest row over
        the current image when there is something to draw. */
    method UpdateImage() returns (overlay: Overlay)
      requires Valid()
      modifies selection.view`currentImage, selection.view`display, selection.view.frameQueue
      ensures Valid()
      ensures selection.view.frameQueue.items == []
      ensures selection.view.currentImage ==
                KeptImage(old(selection.view.currentImage), old(selection.view.frameQueue.items), selection.view.cameraRotation)
      ensures overlay == EyeOverlay(selection.view.experiment.dataAcc.storedData, WndPos())
      ensures selection.view.display ==
                if overlay.Drawn? then ShowsEllipses(selection.view.currentImage, overlay.ellipses)
                else if selection.view.currentImage.Some? then Shows(selection.view.currentImage.value)
                else old(selection.view.display)
    {
      selection.view.UpdateImage();
      overlay := EyeOverlay(selection.view.experiment.dataAcc.storedData, WndPos());
      if overlay.Drawn? {
        selection.view.display := ShowsEllipses(selection.view.currentImage, overlay.ellipses);
      }
    }
  }
}
