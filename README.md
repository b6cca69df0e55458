# TimerApp core, modelled in Dafny

TimerApp is a PyQt desktop countdown timer. Two pieces of its logic are modelled here, separately, because the program never connects them:

- **The multi-point slider** (`Slider`, `slider.dfy`). It holds a list of point values in value space and an optional selected index. A linear map converts a pixel `x` on the track to a value and back; the track has a 10-pixel margin on each side. Pointer handlers work on this state:
  - a left press selects the first point within 5 pixels, or appends a new point and selects it;
  - a right press pops the point hit;
  - a drag moves the selected point, clamped into the range;
  - a release clears the selection.

  Coordinates are exact `real`s. The widget width and the value range are fields of the `MultiSlider` class.
- **The countdown window** (`Timer`, `timer.dfy`) and its **time formatter** (`TimeFormat`, `time_format.dfy`).
  - The window holds the configured duration, the time left, whether its 10 ms timer runs, the label text, and a count of sound requests, which stands for the sound being played.
  - Every tick lowers the time left by one hundredth and shows it. The tick after the time left reaches zero stops the timer, shows "Time's up!" and requests the sound.
  - The source rounds the time left to two decimals after each step, so times are modelled exactly as whole hundredths of a second (`nat`). The formatter is then an integer function producing `SS.ss`, `MM:SS.ss` or `H:MM:SS.ss`.

The `TimerApp` and `MultiSlider` classes update their fields in place, as the Python objects do. The timer's methods are specified by pure transition functions on a `Snapshot` value (`Start`, `Tick`, `Reset`, `Save`). A snapshot records what the label shows as a `Display` (a literal text, a formatted time left, or the expiry message); the class keeps it in a ghost field, and `Valid` ties the label text to it through `DisplayText`. `Run` applies ticks only while the timer runs, as a stopped `QTimer` delivers no more timeouts, and the lemmas about whole countdowns are stated on `Run`.

`ParseTime` reads a label back into hundredths. It is not part of the program: it exists so that the formatter can be specified by its inverse.

Behaviour of the code worth knowing:

- A left press that misses stores the unclamped value of the press. A press in a margin therefore stores a value outside `[min_value, max_value]` (`ScaledXInRange`). Only a drag clamps.
- `start` with a zero duration does not expire at once. It expires on the first tick (`StartZeroExpiresOnFirstTick`).
- Reset leaves the time left alone and only shows the duration.
- Saving a shorter duration while the countdown runs can leave the time left above the duration (`SaveWhileRunning`). So "time left ≤ duration" is not an invariant of the code.
- The countdown never reads the slider's points.

## Model

| member | source | states |
|---|---|---|
| `Slider.Track.ScaledX` | TimerApp/multislider.py:106-117 | pixel `LEFT_MARGIN` maps to `min_value` and `width - RIGHT_MARGIN` to `max_value`; its inverse, monotonicity and range are `ScaleRoundTrip`, `ScaledXMonotone` and `ScaledXInRange` |
| `Slider.Track.DenormalizedX` | TimerApp/multislider.py:94-104 | `min_value` is drawn at `LEFT_MARGIN` and `max_value` at `width - RIGHT_MARGIN`; it inverts `ScaledX` (`ScaleRoundTrip`) |
| `Slider.ScaleRoundTrip` | TimerApp/multislider.py:94-117 | `get_denormalized_x` and `get_scaled_x` are inverse to each other, in both orders |
| `Slider.ScaledXMonotone` | TimerApp/multislider.py:106-117 | the pixel-to-value map is strictly increasing |
| `Slider.ScaledXInRange` | TimerApp/multislider.py:106-117 | a pixel maps into `[min_value, max_value]` exactly when it lies on the drawn track, so a margin press yields an out-of-range value |
| `Slider.FirstHitFrom` | TimerApp/multislider.py:79-92 | the result is the lowest index at or after the start whose point lies strictly within 5 pixels of `x`; none exactly when no point qualifies |
| `Slider.FirstHit` | TimerApp/multislider.py:79-92 | the result is the lowest index whose point lies strictly within 5 pixels of `x`, and none exactly when no point does |
| `Slider.FirstMatchNotNearest` | TimerApp/multislider.py:87-92 | with two points within the threshold, the first is returned even when the second is nearer |
| `Slider.MultiSlider.IsOnPoint` | TimerApp/multislider.py:79-92 | the scanning loop returns exactly the first-match hit |
| `Slider.Clamp` | TimerApp/multislider.py:73 | `max(lo, min(hi, v))` lies in `[lo, hi]`, is `v` when `v` is in range, and is the nearer bound otherwise |
| `Slider.RemoveAt` | TimerApp/multislider.py:65 | `pop(i)` drops exactly entry `i` and keeps the others in order (and as a multiset) |
| `Slider.MultiSlider.constructor` | TimerApp/multislider.py:15-22 | a new slider has no points, no selection, the given width, and the given range, which defaults to `0.0` to `1.0` |
| `Slider.MultiSlider.MousePress` | TimerApp/multislider.py:43-67 | left press selects the point hit with points unchanged, or appends the unclamped scaled `x` and selects the new last index. Right press pops the point hit (if any) and clears the selection. Any other button only sets the selection to the hit or none. The selection stays none or a valid index |
| `Slider.MultiSlider.MouseMove` | TimerApp/multislider.py:69-74 | with a selection, only the selected entry changes, to the clamped scaled `x`; without one nothing changes; the selection stays valid |
| `Slider.MultiSlider.MouseRelease` | TimerApp/multislider.py:76-77 | the selection becomes none and the points are unchanged |
| `Slider.MultiSlider.GetSelectedValue` | TimerApp/multislider.py:119-121 | with a selection, returns the selected point's value |
| `TimeFormat.NatStr` | TimerApp/main.py:105 | hours are rendered as one or more decimal digits |
| `TimeFormat.NatStrValue` | TimerApp/main.py:105 | the unpadded hours text denotes the hours |
| `TimeFormat.NatStrNoLeadingZero` | TimerApp/main.py:105 | the hours are unpadded: no leading zero |
| `TimeFormat.Pad2` | TimerApp/main.py:105-109 | `{n:02d}` gives two digits denoting `n` |
| `TimeFormat.SecondsFieldRoundTrip` | TimerApp/main.py:105-111 | `{s:05.2f}` is five characters `SS.ss` that read back as the seconds shown |
| `TimeFormat.Split` | TimerApp/main.py:98-109 | `hours*3600 + minutes*60 + seconds == raw` exactly, minutes in `[0,59]`, seconds in `[0,60)`. Hours are 0 below an hour and at least 1 from an hour on. Minutes are at least 1 in the minutes branch and 0 below a minute |
| `TimeFormat.Format` | TimerApp/main.py:98-112 | every label is at least five characters and ends in two decimals after a point; `ParseFormat`, `FormatLayout` and `FormatColons` state the rest |
| `TimeFormat.FormatLayout` | TimerApp/main.py:98-112 | the label is 5 characters below 60 s and 8 below 3600 s, and otherwise the hour digits plus 9, with the colons in place. The last five characters are always the seconds field |
| `TimeFormat.FormatColons` | TimerApp/main.py:101-111 | no colon below 60 s, one colon in `[60, 3600)`, two colons from 3600 s |
| `TimeFormat.ParseFormat` | TimerApp/main.py:98-112 | every label reads back as exactly the time it shows |
| `TimeFormat.FormatInjective` | TimerApp/main.py:98-112 | distinct times never share a label |
| `TimeFormat.FormatSecondsExample` | TimerApp/main.py:110-111 | 5.20 s shows `05.20` |
| `TimeFormat.FormatMinutesExample` | TimerApp/main.py:106-109 | 65.30 s shows `01:05.30` |
| `TimeFormat.FormatHoursExample` | TimerApp/main.py:101-105 | 3661 s shows `1:01:01.00`, hours unpadded |
| `Timer.DisplayText` | TimerApp/main.py:122-126 | a shown time left is a formatted time ending in two decimals, and expiry shows `Time's up!` |
| `Timer.Run` | TimerApp/main.py:116-127 | ticking keeps the duration, never raises the time left, and requests the sound at most once, only together with stopping |
| `Timer.TimerApp.constructor` | TimerApp/main.py:46-58 | the window opens idle with a 10.0 s duration and the label `10.0` |
| `Timer.TimerApp.SaveSettings` | TimerApp/main.py:87-90 | sets the duration and the label to the formatted duration; time left, running state and sound count unchanged |
| `Timer.TimerApp.ResetTimer` | TimerApp/main.py:92-96 | stops the timer and sets the label to the formatted duration; duration and time left unchanged |
| `Timer.TimerApp.StartTimer` | TimerApp/main.py:114-116 | time left becomes the duration and the timer runs, from any state; duration and label unchanged |
| `Timer.TimerApp.UpdateTimer` | TimerApp/main.py:118-127 | with time left positive, it drops by exactly one hundredth and the label becomes the formatted new time left. Otherwise the timer stops, the label is "Time's up!" and one sound is requested, with the time left unchanged |
| `Timer.RunWhileRunning` | TimerApp/main.py:118-127 | from a running state with `T` hundredths left, `n` ticks leave `max(0, T - n)`. The timer still runs iff `n <= T`, the label shows the time left or "Time's up!", the sound is requested exactly once when `n > T`, and the duration is untouched |
| `Timer.StartThenRun` | TimerApp/main.py:114-127 | after Start with duration `D`, `D` ticks reach zero still running and tick `D + 1` expires with one sound |
| `Timer.StartZeroExpiresOnFirstTick` | TimerApp/main.py:114-127 | a zero-duration start runs until the first tick, which expires |
| `Timer.RunAdditive` | TimerApp/main.py:118-127 | `m` ticks and then `n` more are `m + n` ticks |
| `Timer.Monotone` | TimerApp/main.py:118-121 | the time left is non-increasing along any run of ticks |
| `Timer.SaveWhileRunning` | TimerApp/main.py:87-90 | a shorter duration saved mid-run is shown, leaves the time left above it, and the next tick still shows the countdown from the old time left |
| `Timer.ResetThenStart` | TimerApp/main.py:92-96 | after Reset, Start restarts from the full duration with the timer running, the label still showing the duration |

## Left out

- Painting, `sizeHint`, colours, pens and `update()` redraw requests (TimerApp/multislider.py:24-41, 67, 74, 123-124): rendering only, with no state.
- Widget construction, layouts, style sheets, the settings dialog and `open_settings`, and the `__main__` blocks with their file read: user interface and I/O.
- `playsound` and the real `QTimer` cadence. Playing the sound is counted in `sounds`. A timeout is an explicit `UpdateTimer` call, and `Run` delivers ticks only while the timer runs.
- `print` calls, including the one in `get_selected_value`.
- IEEE floating point. Times are exact hundredths, so float artefacts are not modelled: the `round` ties, and a subtraction in `get_time` that can print "60.00". Durations are whole hundredths because the duration spin box keeps two decimals. Slider coordinates are exact reals.
- `MultiSlider.Valid` requires `width > 20` and `min_value < max_value`. The source divides by zero only at `width == 20` or `max_value == min_value`. A narrower widget (negative track length) and a reversed range (`min_value > max_value`) have a defined mapping in the source but are not modelled.
- Slider.MultiSlider.GetSelectedValue: requires a selection; with none the source indexes `points[None]` and raises `TypeError`, which is not modelled.
- Timer.TimerApp.SaveSettings: requires the value to be at most `MaxDuration` (1e10 seconds), the range of the duration spin box that supplies it.
- The time left before the first Start: the source has no value there and a tick would fail. The model starts it at 0; no tick arrives before Start, because the timer is not running.
- Widget resizing: `width` is a field that the handlers leave unchanged. Resizing belongs to the toolkit.
