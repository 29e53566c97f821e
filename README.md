# Tail/eyes tracking chain and camera widgets of stytra, in Dafny

This project models two pieces of stytra's real-time tracking front end.

1. **The combined tail and eyes tracking method** (`TailEyesTrackingMethod`,
   module `EyesTail`). It holds a fixed chain of two member detectors: the
   centroid tail tracker, then the eye tracker. Construction does three things.
   It merges the parameters the members declare, in chain order. It builds the
   column schema: `tail_sum`, one `theta_NN` column per tail segment, then five
   columns for each eye. It fixes the monitored columns. `detect` runs the
   members in order and joins their messages and result tuples. `reset_state`
   rebuilds the column names from the current `n_segments`. The members' own
   code is not part of this model. Each member is a value made of its declared
   parameters and a `detect` function from an image to a message and result
   fields. The decimal formatting used in column names (`"{}"` and `"{:02}"`)
   is in module `Decimal`.
2. **The camera widgets** (module `CameraDisplay`).
   - `CameraViewWidget.update_image` drains a frame queue in a loop. A queue is
     a sequence of `(time, image)` frames. An image is reduced to an identity
     and an orientation in quarter turns.
   - `CameraSelection` makes the view read the frame dispatcher's display queue.
   - The tail widget converts between its two ROI handles and the
     `(tail_start, tail_length)` parameters. It also draws the tail curve of
     the latest stored row.
   - The eyes widget writes the ROI's truncated size and position as
     `wnd_dim`/`wnd_pos`. It draws the two eye ellipses, offset by `wnd_pos`.

Python inheritance (`CameraSelection` extends `CameraViewWidget`, and the tail
and eyes widgets extend `CameraSelection`) is modelled by composition. Each
selection widget holds a `CameraSelection`, which holds its `CameraViewWidget`.
Python exceptions that the overlay code can raise (`IndexError`, `TypeError`)
are values of an `Outcome` type. They are evaluated in Python's left-to-right
order.

Where the code and its own comments or structure suggest different things,
the model follows the code:

- The comment at `stytra/gui/camera_display.py:97-98` says the frame shown is
  the most recent one added to the queue. Lines 99-105 keep the **first**
  (oldest) frame dequeued and throw the later ones away. Lines 107-109 apply
  the rotation once per dequeued frame. `KeptImageFacts` and
  `KeptImageIsOldest` state this.
- `stytra/tracking/eyes_tail.py:22-38` builds the column names from
  `n_segments`. `detect` (lines 42-49) never compares the length of the joined
  result with them. The model adds no such check.
- The frame queue for the base view is chosen by whether the experiment has a
  `frame_dispatcher` attribute (`stytra/gui/camera_display.py:49-52`). Line 55
  then overwrites that choice with the camera's own queue
  (`CameraViewWidget.constructor`).

## Model

| member | source | states |
|---|---|---|
| `Decimal.NatToString` | stytra/tracking/eyes_tail.py:28-32 | `"{}".format(n)` is a non-empty string of digits with no leading zero, one character exactly when n < 10 |
| `Decimal.ZeroPad2` | stytra/tracking/eyes_tail.py:23 | `"{:02}".format(n)` is all digits, at least two long, exactly two long when n < 100, and has no leading zero beyond the padding |
| `Decimal.ParseNatToString` | stytra/tracking/eyes_tail.py:28-32 | reading back `"{}".format(n)` gives n |
| `Decimal.ParseLeadingZero` | stytra/tracking/eyes_tail.py:23 | the zero that padding adds does not change the value of a numeral |
| `Decimal.ZeroPad2RoundTrip` | stytra/tracking/eyes_tail.py:23 | reading back `"{:02}".format(n)` gives n |
| `Decimal.ZeroPad2Injective` | stytra/tracking/eyes_tail.py:23 | two segment indices get the same padded numeral if and only if they are equal |
| `EyesTail.EyeHeadersWrittenOut` | stytra/tracking/eyes_tail.py:25-36 | the columns built for eyes 0 and 1 are `pos_x_e0, pos_y_e0, dim_x_e0, dim_y_e0, th_e0, pos_x_e1, pos_y_e1, dim_x_e1, dim_y_e1, th_e1`, in that order |
| `EyesTail.BuildHeaders` | stytra/tracking/eyes_tail.py:22-36 | the header list grown by `extend` for each eye equals the schema for the given `n_segments` |
| `EyesTail.AccumulatorHeadersLayout` | stytra/tracking/eyes_tail.py:22-38 | the schema has exactly 1 + n_segments + 10 columns (no angle columns for a negative count); column 0 is `tail_sum`; column 1+i is `theta_` followed by i zero-padded to two digits; the last ten are the eye columns in order |
| `EyesTail.HeaderAt` | stytra/tracking/eyes_tail.py:22-38 | which column any index of the schema holds: the sum column, the angle column of segment i-1, or an eye column |
| `EyesTail.MonitoredHeadersInSchema` | stytra/tracking/eyes_tail.py:37-38 | every monitored column (`tail_sum`, `th_e0`, `th_e1`) is a column of the schema, at indices 0, n+5 and n+10 |
| `EyesTail.ThetaHeaderShape` | stytra/tracking/eyes_tail.py:23 | every angle column is `theta_` followed by the padded segment index, so it is at least eight long and has `e` as its third character |
| `EyesTail.EyeColumnsDistinct` | stytra/tracking/eyes_tail.py:25-36 | the ten eye columns are pairwise distinct and differ from `tail_sum` |
| `EyesTail.HeadersDiffer` | stytra/tracking/eyes_tail.py:22-38 | two different indices of the schema hold different names |
| `EyesTail.AccumulatorHeadersDistinct` | stytra/tracking/eyes_tail.py:22-38 | no two columns of the schema share a name, for every `n_segments` |
| `EyesTail.ChainConcat` | stytra/tracking/eyes_tail.py:42-49 | running a chain made of two chains joins their messages and their results in order |
| `EyesTail.ChainResultsLength` | stytra/tracking/eyes_tail.py:44-48 | the joined result is as long as the members' results put together |
| `EyesTail.TailFieldsBeforeEyeFields` | stytra/tracking/eyes_tail.py:13 | for the two-member chain, the result is the centroid fields followed by the eye fields, and the message is the centroid message followed by the eye message |
| `EyesTail.MergeAnnotationsKeys` | stytra/tracking/eyes_tail.py:16-18 | a key is a merged parameter if and only if some member declares it |
| `EyesTail.MergeAnnotationsLastWins` | stytra/tracking/eyes_tail.py:16-18 | on a key several members declare, the merged value is that of the last declaring member in the chain |
| `EyesTail.MergeParams` | stytra/tracking/eyes_tail.py:16-18 | the `dict.update` loop over the chain yields the in-order merge of the members' parameters |
| `EyesTail.TailEyesTrackingMethod.constructor` | stytra/tracking/eyes_tail.py:10-39 | the chain is [centroid, eyes]; the parameters are a fresh object named `tracking/eyes_tail` holding the merged parameters; the headers match `n_segments`; the monitored headers and log name are the fixed ones |
| `EyesTail.TailEyesTrackingMethod.Detect` | stytra/tracking/eyes_tail.py:42-49 | the messages and results are the in-order joins of every member's message and result on the same image and arguments; an empty chain gives `""` and `()` |
| `EyesTail.TailEyesTrackingMethod.ResetState` | stytra/tracking/eyes_tail.py:51-69 | afterwards the headers are those the constructor gives for the current `n_segments`, and chain and parameters are unchanged, so a second call changes nothing |
| `Types.Rot90` | stytra/gui/camera_display.py:107-109 | `np.rot90` keeps the image and turns it by k quarter turns, modulo 4 |
| `CameraDisplay.FrameQueue.Get` | stytra/gui/camera_display.py:100-112 | `get` takes the oldest frame, or reports `Empty` on an empty queue and leaves it empty |
| `CameraDisplay.RotatedTimesNet` | stytra/gui/camera_display.py:107-109 | n rotations by k quarter turns are one rotation by k*n quarter turns, modulo 4 |
| `CameraDisplay.KeptImageFacts` | stytra/gui/camera_display.py:94-112 | an empty queue leaves the current image as it was; otherwise the kept image is the first frame dequeued, turned by rotation × (frames dequeued) quarter turns when rotation ≥ 1, and not turned otherwise |
| `CameraDisplay.KeptImageIsOldest` | stytra/gui/camera_display.py:97-105 | when the oldest and newest queued frames differ, the kept frame is not the newest one |
| `CameraDisplay.CameraViewWidget.constructor` | stytra/gui/camera_display.py:49-59 | the view reads the camera's frame queue whether or not the experiment has a dispatcher; control queue and rotation come from the camera; no image yet and a blank display |
| `CameraDisplay.CameraViewWidget.UpdateControls` | stytra/gui/camera_display.py:86-87 | the current control settings are appended to the control queue |
| `CameraDisplay.CameraViewWidget.UpdateImage` | stytra/gui/camera_display.py:89-116 | the frame queue ends empty; the current image is the kept image of the drained queue; the display shows it when there is one and is otherwise unchanged |
| `CameraDisplay.CameraSelection.constructor` | stytra/gui/camera_display.py:146-160 | the view now reads the dispatcher's display queue and the tracking parameters are the experiment's |
| `CameraDisplay.ParamsFromHandles` | stytra/gui/camera_display.py:226-231 | `tail_start` is the first handle, and `tail_start + tail_length` is the second handle |
| `CameraDisplay.HandlesFromParams` | stytra/gui/camera_display.py:216-221 | the first handle is `tail_start`, and the second handle minus the first is `tail_length` |
| `CameraDisplay.TailRoiRoundTrip` | stytra/gui/camera_display.py:213-231 | handles → parameters → handles recovers the handles exactly, and parameters → handles → parameters recovers the parameters |
| `CameraDisplay.TailPath` | stytra/gui/camera_display.py:252-257 | the tail path has one point more than there are angles and starts at the start point |
| `CameraDisplay.TailPathStep` | stytra/gui/camera_display.py:255-257 | every later point is the one before it moved by the segment offset of its angle |
| `CameraDisplay.TailPoints` | stytra/gui/camera_display.py:252-257 | the loop that appends one point per angle builds the tail path, and raises `TypeError` instead when any angle is `None` |
| `CameraDisplay.TailOverlayCases` | stytra/gui/camera_display.py:239-259 | nothing is drawn if and only if at most one row is stored; `TypeError` is raised if and only if more rows are stored and a field of the latest row after its first two is `None`; a curve is drawn if and only if more rows are stored and none of those fields is `None` |
| `CameraDisplay.TailCurveShape` | stytra/gui/camera_display.py:239-259 | the curve for the latest row has len(angles)+1 points; angles are the row without its first two fields; after the axis swap in `setData` the curve starts at `tail_start` |
| `CameraDisplay.CameraTailSelection.constructor` | stytra/gui/camera_display.py:196-211 | the line ROI's handles are placed from `tail_start` and `tail_length`; the tail curve starts empty |
| `CameraDisplay.CameraTailSelection.SetPosFromTree` | stytra/gui/camera_display.py:213-221 | the handles move to `tail_start` and `tail_start + tail_length` |
| `CameraDisplay.CameraTailSelection.SetPosFromRoi` | stytra/gui/camera_display.py:223-231 | `tail_start` becomes the first handle and `tail_length` the second minus the first; no other parameter changes |
| `CameraDisplay.CameraTailSelection.UpdateImage` | stytra/gui/camera_display.py:233-259 | the view is updated as the base view does; the outcome is the tail overlay of the stored rows; the tail curve is set, to the path from (`tail_start[1]`, `tail_start[0]`) through the latest row's angles, only when that overlay draws one, and a raised `TypeError` leaves it as it was |
| `CameraDisplay.Trunc` | stytra/gui/camera_display.py:302-305 | `int(r)` truncates toward zero: the result is within one of r and not farther from zero than r |
| `CameraDisplay.TruncWhole` | stytra/gui/camera_display.py:302-305 | truncating a whole number gives that number |
| `CameraDisplay.TruncPointIdempotent` | stytra/gui/camera_display.py:291-305 | parameters written from a truncated ROI, read back into the ROI and written again, do not change |
| `CameraDisplay.EyeOverlayDrawn` | stytra/gui/camera_display.py:311-320 | ellipses are drawn if and only if more than one row is stored and the eye fields `e[0]`, `e[1]`, `e[5]`, `e[6]` exist and are not `None` (with `e[9]` present); the centres are `(e[0]+pos[1], e[1]+pos[0])` and `(e[5]+pos[1], e[6]+pos[0])`; a `None` in `e[0]` draws nothing |
| `CameraDisplay.CameraEyesSelection.constructor` | stytra/gui/camera_display.py:265-281 | the rectangle ROI is placed at `wnd_pos` with size `wnd_dim` |
| `CameraDisplay.CameraEyesSelection.SetPosFromTree` | stytra/gui/camera_display.py:291-295 | the ROI moves to `wnd_pos` and takes size `wnd_dim` |
| `CameraDisplay.CameraEyesSelection.SetPosFromRoi` | stytra/gui/camera_display.py:297-305 | `wnd_dim` and `wnd_pos` become the ROI's size and position truncated toward zero; no other parameter changes |
| `CameraDisplay.CameraEyesSelection.UpdateImage` | stytra/gui/camera_display.py:307-322 | the view is updated as the base view does; the overlay outcome is that of the latest stored row; the display shows the ellipses over the current image exactly when they are drawn |

## Left out

- Widget construction is left out: Qt/pyqtgraph layouts, buttons, `show_params_gui`, the plot and ROI items, and the signal connections (`gui_timer`, `sigTreeStateChanged`, `sigRegionChangeFinished`, `treeChangeBlocker`). The model keeps only the values passed to and from these items.
- `CameraSelection.initialise_roi` and the base `set_pos_from_tree`/`set_pos_from_roi` are left out. The first adds the ROI to the display area, wires a signal, and prints when no ROI is defined; the other two do nothing.
- `save_image` is left out: it does file I/O and reads the wall clock.
- `print("here")` in the tracking method's constructor is left out, since it is I/O.
- `CameraViewCalib.show_calibration` and the pixel drawing of `draw_ellipse` are left out, since they are floating-point geometry and rendering. The display records which ellipses would be drawn on which image.
- CameraDisplay.TailPath: the sine/cosine/square-root step of each tail segment is a function parameter (`SegmentOffset`), and so is what a NaN angle gives. Only the point count, the first point and the step-by-step structure are modelled. A `None` angle is not passed to it: `TailPoints` raises `TypeError` for it, as `np.sin(None)` does.
- The ellipses drawn when the current image is `None` are recorded over `None` (`ShowsEllipses` with no base image). The code of `draw_ellipse` is not part of this model, so the model assumes that call succeeds.
- An experiment whose `frame_dispatcher` attribute exists but holds `None` is not represented: `Experiment.frameDispatcher` is null only when the attribute is missing. In the source such an experiment makes the view's constructor raise `AttributeError` at `stytra/gui/camera_display.py:50`.
- Coordinates are exact reals, so float rounding and NaN arithmetic on handle positions are not modelled. A NaN eye field stays NaN when it is offset.
- The multiprocessing queue is a plain sequence drained in one call. Timeouts, other processes adding frames during the drain, and cross-process behaviour are not modelled.
- The member detectors (`CentroidTrackingMethod`, `EyeTrackingMethod`) are not part of this model. Neither is `lightparam.Parametrized` beyond a name and a map of values. The frame dispatcher and data accumulator are also not part of this model. Only their display queue and read-only `stored_data` are used.
- EyesTail.TailEyesTrackingMethod.constructor requires the merged parameters to contain an integer `n_segments`, because the source raises otherwise.
- CameraDisplay.CameraSelection.constructor requires a frame dispatcher and a tracking method, because the source raises `AttributeError` without them.
- CameraDisplay.CameraViewWidget.UpdateControls requires a control queue, because `put` on `None` raises.
- The selection widgets' methods require the parameters they read (`tail_start`/`tail_length`, `wnd_pos`/`wnd_dim`) to be pairs. Their constructors read the same keys, and the widgets only ever overwrite them with pairs.
- The experiment configuration scripts (the protocol files and the combined experiment example) are not modelled. They only instantiate stimulus classes that are not part of this model.
