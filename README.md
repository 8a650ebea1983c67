# Instant-camera photo booth: a Dafny model of its logic

The application is a browser photo booth. A toy instant camera shows the live video.
Pressing its shutter takes a square still, slides a print out of the camera, and after
3.5 s hands the still to the app. The app adds it to a gallery of prints, asks a remote
service for a short caption in the background, and saves the gallery to local storage.
This project models the logic behind that, in four modules:

- `Types` (`types.dfy`): the `Photo` record.
- `RetroCamera` (`retro_camera.dfy`): the capture geometry and the shutter/print sequencer.
  - The geometry is a centred square crop of the video frame. For the selfie camera it is
    flipped left to right.
  - The sequencer is a `Camera` class with one method per event: `Press`, `FrameTick`,
    `Timeout` and `Toggle`. It keeps queues of pending animation-frame callbacks and
    pending timers.
  - Its object invariant `Valid()` says three things. Every captured still has either
    been delivered to `onCapture` or still has its print timer pending. No still is
    delivered twice. Every visual flag that is on has a pending timer that will turn it off.
- `App` (`app.dfy`): the gallery list and its transforms.
  - The transforms are capture (append), delete by id (filter), caption patch by id (map)
    and clear.
  - It also holds the reconciliation of the caption service's outcome, with JavaScript's
    `trim`, and the removal of the data-URL header before the image is sent.
  - `PhotoStore` is a class holding the list and the "storage full" flag. Every change to
    the list is followed by the save step, as the app's save effect does.
- `Gallery` (`gallery.dfy`): the display order, which puts the newest print first, and
  the placeholder shown for an empty gallery.
- `Booth` (`booth.dfy`): the wiring between the modules. The camera's `onCapture` is the
  app's capture handler, and the gallery renders the store's list.

Event orders the sequencer admits are written out as methods with postconditions.

- `PrintCycle`: the print shows at once. Ejection (`isPrinting`) starts only on the
  second animation frame, and the print timer delivers the still and clears the state.
- `EarlySecondPress`: the shutter guard reads only `isPrinting`. So a second press that
  comes before the first capture's two frames is admitted, and both stills are queued for
  `onCapture`. The shutter guard does not keep a second print out while the first is
  still pending.
- `TimerBeforeFrames`: when the print timer fires before the two frames have run,
  `isPrinting` is set afterwards and no timer is left to clear it. `StuckStaysStuck`
  shows that every later event keeps this state, so every later press is dropped.
  Browsers hold back animation frames in hidden pages but keep running timers, so this
  order can happen.

Caption and export behaviour as the code has it:

- A missing or blank answer writes no caption, so the "正在显影..." placeholder stays.
  Only an exception writes the fallback "美好的一刻".
- Each capture starts exactly one description call, and that call settles once. The
  store keeps the outstanding calls as a ghost multiset of ids, and `SettleCaption`
  consumes one. Ids come from `Date.now`, so two captures in the same millisecond share
  an id; each of their settlements then patches every entry with that id.
- There is no high-resolution export: the card's download link saves the stored still
  as it is.

## Model

| member | source | states |
|---|---|---|
| `Gallery.DisplayOrder` | components/Gallery.tsx:22 | the displayed list has the same length as the stored list, and card i is stored photo n-1-i |
| `Gallery.DisplaySameEntries` | components/Gallery.tsx:22 | the display holds exactly the stored photos, with the same multiplicities |
| `Gallery.NewestFirst` | components/Gallery.tsx:22 | after an append, the new photo is shown first and the rest keep their displayed order |
| `Gallery.DisplayInvolution` | components/Gallery.tsx:22 | reversing the displayed copy gives back the stored list, so the copy loses and reorders nothing else |
| `Gallery.Render` | components/Gallery.tsx:11-27 | the placeholder is rendered exactly when the list is empty; otherwise one card per photo, and card i is stored photo n-1-i, so the last stored photo comes first |
| `App.TrimStart` | App.tsx:151 | the result is the suffix after the leading whitespace run: what it drops is all whitespace, and it starts with a non-whitespace character |
| `App.TrimEnd` | App.tsx:151 | the result is the prefix before the trailing whitespace run: what it drops is all whitespace, and it ends with a non-whitespace character |
| `App.Trim` | App.tsx:151 | a non-empty trimmed text neither starts nor ends with ECMAScript whitespace |
| `App.TrimPadded` | App.tsx:151 | any core that neither starts nor ends with whitespace, padded on both sides with whitespace, trims to exactly that core |
| `App.TrimBlank` | App.tsx:151-153 | a text trims to the empty string exactly when it is all whitespace |
| `App.TrimIdempotent` | App.tsx:151 | trimming twice is trimming once |
| `App.StripDataUrlPrefix` | App.tsx:114 | the result is a suffix of the input; without a png/jpeg/jpg base64 header the input is returned unchanged; otherwise exactly one such header is removed |
| `App.StripPrepended` | App.tsx:114 | for each of the three headers, stripping the header plus any payload gives back that payload, even when the payload starts with another header |
| `App.Tilt` | App.tsx:177 | a draw in [0, 1) gives a tilt in [-3, 3) degrees |
| `App.NewPhoto` | App.tsx:168-178 | a new entry carries the given id, still and date, the "正在显影..." placeholder caption and a tilt in [-3, 3) |
| `App.RemoveById` | App.tsx:186-188 | no entry with the id survives, every other entry survives, the list never grows, and a list without that id is returned unchanged |
| `App.RemoveCounts` | App.tsx:187 | every entry with another id keeps its number of occurrences; entries with the id occur zero times |
| `App.RemoveConcat` | App.tsx:187 | deleting from a concatenation deletes from each part in place, so the survivors keep their relative order |
| `App.PatchCaption` | App.tsx:154-163 | same length and order; a matching entry changes only its caption to the new text; every other entry is unchanged |
| `App.PatchAfterRemove` | App.tsx:154-187 | a caption that arrives after its print was deleted changes nothing; the deleted entry is not brought back |
| `App.RemoveAfterPatch` | App.tsx:154-187 | patching a caption and then deleting that id gives the same list as deleting it |
| `App.RemoveAppended` | App.tsx:180-187 | deleting the id of the photo just appended gives the same list as deleting that id from the list before the capture |
| `App.CaptionFor` | App.tsx:151-163 | an exception gives the fallback "美好的一刻"; an answer gives no caption exactly when its text is missing or all whitespace; otherwise the caption is the trimmed text, which starts with a non-whitespace character |
| `App.ApplyOutcome` | App.tsx:151-163 | same length; entries with other ids are unchanged; matching entries get the caption that `CaptionFor` gives, or keep their own when it gives none |
| `App.PhotoStore.constructor` | App.tsx:52-55 | the store starts with an empty list and no storage warning |
| `App.PhotoStore.Persist` | App.tsx:77-88 | saving never changes the list; a good write clears the warning; a failed write sets the warning only when the list is non-empty, and otherwise leaves it as it was |
| `App.PhotoStore.Load` | App.tsx:64-74 | a stored value that is present, non-empty and parses replaces the list, and the list is then saved; otherwise the list and the warning are unchanged |
| `App.PhotoStore.Capture` | App.tsx:167-184 | exactly one entry is appended at the end and earlier entries are untouched; the caption request names the same id and the still with its header stripped, and that id joins the outstanding calls; the warning follows the write outcome |
| `App.PhotoStore.Delete` | App.tsx:186-188 | the list becomes `RemoveById` of the old list, and it is saved |
| `App.PhotoStore.SettleCaption` | App.tsx:151-164 | only an outstanding call can settle, and settling consumes it; the list becomes `ApplyOutcome` of the old list; when there is no caption to write, nothing is saved and the warning is unchanged |
| `App.PhotoStore.Reset` | App.tsx:190-196 | a confirmed clear leaves an empty list and no warning, whatever the write does; an unconfirmed one changes nothing |
| `App.CaptionSettlesOnce` | App.tsx:151-184 | after one capture and its settlement the id is no longer outstanding, so the new entry cannot be patched again; the list is the capture followed by `ApplyOutcome` |
| `RetroCamera.Toggled` | components/RetroCamera.tsx:122-124 | the switch always changes the facing mode (there are two modes) |
| `RetroCamera.ToggleTwice` | components/RetroCamera.tsx:122-124 | two switches restore the original facing mode |
| `RetroCamera.CenteredCrop` | components/RetroCamera.tsx:70-75 | the square side is the smaller of the two frame sides; both offsets are non-negative and at least one is zero; the square lies inside the frame; the left and right margins are equal, and so are the top and bottom margins |
| `RetroCamera.CanvasXInSquare` | components/RetroCamera.tsx:78-81 | the optional flip maps the canvas square onto itself and undoes itself when applied twice |
| `RetroCamera.SourcePoint` | components/RetroCamera.tsx:70-83 | every canvas point of the `size` by `size` still is drawn from a point inside the video frame |
| `RetroCamera.SelfieIsFlipped` | components/RetroCamera.tsx:78-83 | the selfie still at column x shows what the back-camera still of the same frame shows at column size - x |
| `RetroCamera.NextFrame` | components/RetroCamera.tsx:107-111 | after a frame only inner callbacks are queued, and there is one exactly when an outer callback ran |
| `RetroCamera.Camera.constructor` | components/RetroCamera.tsx:13-19 | the camera starts facing the environment, with no flags set, no print and nothing pending |
| `RetroCamera.Camera.Press` | components/RetroCamera.tsx:56-119 | the press is ignored, and nothing changes, exactly when the elements are missing or `isPrinting` holds. Otherwise shutter and flash go on and their timers are queued, and `isPrinting` stays false. With a 2D context the print shows the new still at once, one outer frame callback and the print timer are queued, and the returned shot records the centred crop and the facing mode. Without a context no frame callback or print timer is queued |
| `RetroCamera.Camera.FrameTick` | components/RetroCamera.tsx:107-111 | queued outer callbacks become inner callbacks for the next frame; `isPrinting` turns true exactly when an inner callback runs; nothing else changes |
| `RetroCamera.Camera.Timeout` | components/RetroCamera.tsx:56-119 | the fired timer leaves the queue. A shutter or flash timer turns only its flag off. A print timer calls `onCapture` once with its own still, then clears the print and `isPrinting` |
| `RetroCamera.Camera.Toggle` | components/RetroCamera.tsx:122-124 | the facing mode switches and nothing else changes |
| `RetroCamera.PrintCycle` | components/RetroCamera.tsx:104-118 | from idle, a press shows the still at once; `isPrinting` is false at the press and after one frame, and true after the second; the shutter and flash timers fire; a press while ejecting is ignored; the print timer delivers that still and clears the print and `isPrinting` |
| `RetroCamera.EarlySecondPress` | components/RetroCamera.tsx:57-111 | two presses before the first frame are both captured, and both stills await delivery in press order |
| `RetroCamera.TimerBeforeFrames` | components/RetroCamera.tsx:107-118 | when the three timers fire before the two frames, the still is still delivered, but afterwards `isPrinting` is true with no print pending and the next press is ignored |
| `RetroCamera.StuckStaysStuck` | components/RetroCamera.tsx:57-118 | from `isPrinting` with no print timer pending, any click, frame, timer or camera switch keeps that state; a click is ignored and nothing more reaches `onCapture` |
| `Booth.CaptureAndDescribe` | App.tsx:248-263 | after a full press-to-commit cycle and a non-blank answer, the gallery shows one more card; the first card is the delivered still, under the new id, with the trimmed answer as caption; with good writes there is no warning |
| `Booth.DeleteBeforeCaption` | App.tsx:151-188 | capturing a print, deleting it and then settling its caption call in any way leaves the previous list without that id |

## Left out

- Camera stream acquisition, track stopping and the error message (components/RetroCamera.tsx:21-54) are browser media I/O. Only their effect on the shutter is modelled: the `ready` parameter of `Press` says whether the video and canvas elements are mounted.
- The warm overlay, the vignette and the JPEG encoding (components/RetroCamera.tsx:85-101) are floating-point pixel work. The encoded still is an opaque `dataUrl` input; only the crop and mirror geometry is modelled.
- The remote caption call and its prompt (App.tsx:110-149), including the local time string, are a remote black box. Each call is reduced to a `CaptionOutcome` input: an answer, with or without text, or an exception. The call settles as a separate `SettleCaption` event at any later time.
- `localStorage` and JSON are foreign code (App.tsx:66-69, 79, 193). A write is reduced to a `WriteOutcome` input and a read to a `ParseOutcome` input. The stored text itself is not modelled, so neither is `removeItem` in the reset. A parse that yields something other than a list of photos is not modelled.
- Ids from `Date.now`, dates from `toLocaleDateString` and the `Math.random` draw (App.tsx:168-177) are inputs. Ids are not assumed unique: delete and patch act on every matching entry.
- Timer delays: every pending timer may fire next. The 150 ms, 300 ms and 3500 ms delays are not modelled as times, so the proved facts hold for every firing order. This includes orders a real clock would not produce.
- React rendering: each event is assumed to see the state left by the previous one. Batching of state updates within one handler is not modelled.
- `Gallery.DisplayOrder`: the copy taken before reversing (components/Gallery.tsx:22) is implicit, because lists are values here. Aliasing of the stored list is therefore not modelled.
- The spoken greeting, the install guide, standalone detection, all styling, and the card's flip and download link (components/Polaroid.tsx) are presentation code and not part of this model.
