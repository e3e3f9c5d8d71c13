# Face recognition: a verified model of the matcher, the gallery and the capture loop

This project models `main.py`, a webcam face-recognition program, and proves
what its core does. The program works in three stages:

- **Enrolment.** It builds a gallery of known faces from a dataset directory.
  The directory holds one sub-directory per person. In such a sub-directory,
  each regular file whose name ends in png, jpg or jpeg (in any case) and in
  which at least one face is found contributes its first face encoding under
  the person's name. Any error during the walk ends the program with status 1.
- **Matching.** Every other frame, it labels each face found on the frame.
  The label is `{name} ({confidence})`, built from the first nearest gallery
  entry (the lowest index among equal distances), when the face library calls
  that entry a match; otherwise it is `Unknown (0%)`.
- **Annotation.** Every frame is shown with an outline, a label band and the
  label for each face location. Frames that are not processed reuse the
  previous frame's results.

Modules:

- `Types`: the shared values (option, face encoding, face location).
- `Matching`: `np.argmin`, and the label of one face.
- `Enrolment`: the image-name filter, the dataset as the enrolment walk sees
  it, and the walk as a specification function `Enrol`.
- `Annotation`: box rescaling and the drawing calls for one frame. `Frame`
  records the calls made on a frame.
- `Recognition`: the `FaceRecognition` class. Its fields are the ones the
  program updates in place. Its methods mirror `__init__`, `encode_faces`,
  the matching part of the capture loop, one pass of that loop,
  `annotate_frame` and `run_recognition`. Each method is proved against a specification function:
  `Enrol`, `Labels`, `Step`/`Steps` or `Annotations`.

The face library's `face_distance` and `compare_faces`, and the program's own
`face_confidence` (main.py:9-23), are parameters (a `Matcher`). The gallery, the labels and the frame-skip results
are proved for every choice of them.

Three behaviours of the code that a reader might not expect:

- The code filters image names with `lower().endswith(('png', 'jpg', 'jpeg'))`.
  It asks for no dot, so `xpng` is accepted (`ExtensionWithoutDotAccepted`).
- The code starts the frame toggle at true. Detection therefore runs on the first, third,
  fifth, ... frame. The model counts frames from 0, so these are frames 0, 2,
  4, ... (`StepsToggle`, `StepsCache`).
- With an empty gallery, the code lets `np.argmin` raise on the first detected
  face. It does not turn this into `Unknown (0%)`. The exception leaves the
  capture loop after cleanup, which the model reports as `Crashed`.

## Model

| member | source | states |
|---|---|---|
| Matching.ArgMin | main.py:93 | `np.argmin` of a non-empty distance list returns an index that reaches the minimum and lies before every other index that reaches it (ties go to the first). |
| Matching.FirstMinimumUnique | main.py:93 | Any index that is the first minimum is the one `ArgMin` returns, so the best match is determined by the distances alone. |
| Matching.DisplayLabel | main.py:99 | The label `{name} ({confidence})` is the name, then ` (`, then the confidence, then `)`: it starts with the name followed by ` (`, ends with the confidence followed by `)`, and is three characters longer than the two together. |
| Matching.FaceLabel | main.py:87-99 | The label of one face is absent (argmin raises) exactly when the gallery is empty. |
| Matching.FaceLabelIsNearest | main.py:87-99 | With the first nearest entry at `k`, the label is `names[k] (confidence(distances[k]))` when the verdict at `k` is a match, and `Unknown (0%)` otherwise; no other entry's verdict counts. |
| Matching.NoMatchIsUnknown | main.py:89-99 | When no gallery entry is called a match, the face is `Unknown (0%)`. |
| Matching.ToleranceDecidesLabel | main.py:87-97 | When the verdicts are "distance at most a tolerance", the face is named after its nearest entry exactly when some distance is within the tolerance; otherwise it is `Unknown (0%)`. |
| Enrolment.Lower | main.py:53 | `str.lower` on ASCII letters: the result has one character per character of the name, each lowercased. |
| Enrolment.EndsWith | main.py:53 | `str.endswith` with one suffix: the last characters of the string are the suffix. Defined directly, no contract. |
| Enrolment.IsImageName | main.py:53 | The filter: the lowercased name ends with png, jpg or jpeg. Defined directly; characterised by `IsImageNameIgnoresCase`. |
| Enrolment.LowerEndsWith | main.py:53 | The lowercased name ends with a lower-case suffix exactly when the name's last characters spell it in any mix of cases. |
| Enrolment.IsImageNameIgnoresCase | main.py:53 | A file name passes the filter exactly when it ends with png, jpg or jpeg in any mix of cases. |
| Enrolment.UpperCaseExtensionAccepted | main.py:53 | `a.PNG` passes the filter. |
| Enrolment.MixedCaseJpegAccepted | main.py:53 | `b.JpEg` passes the filter. |
| Enrolment.ExtensionWithoutDotAccepted | main.py:53 | `xpng` passes the filter: no dot is required. |
| Enrolment.OtherExtensionRejected | main.py:53 | `a.gif` is rejected. |
| Enrolment.Then | main.py:47-62 | Running one part of the walk after another: an error in the first part ends the walk there, as an exception leaves both loops. Defined directly; `EnrolImagesStopsAtFailure` and `EnrolPersonsStopsAtFailure` state the consequence. |
| Enrolment.EnrolImage | main.py:52-58 | One directory entry fails exactly when it is a passing file whose load raised, and then adds nothing. It adds an encoding exactly when it is a passing file with at least one face, and then adds exactly its first encoding under the person's name. It adds at most one of each, and as many encodings as names. |
| Enrolment.EnrolImages | main.py:51-58 | The inner loop: the entries of one person's directory, in listing order. Defined directly; characterised by `EnrolImagesLockStep`, `EnrolImagesAppend` and `ImageContribution`. |
| Enrolment.EnrolPerson | main.py:49-58 | One dataset entry: nothing unless it is a directory, an error if listing it raises, otherwise its images. Defined directly. |
| Enrolment.EnrolPersons | main.py:48-58 | The outer loop: the dataset entries in listing order. Defined directly; characterised by `EnrolLockStep`, `EnrolPersonsAppend` and `SkippedPersonAddsNothing`. |
| Enrolment.Enrol | main.py:47-62 | The whole walk: an error if listing the dataset raises, otherwise its entries. Defined directly. |
| Enrolment.EnrolImagesLockStep | main.py:51-58 | Walking one person's directory adds as many encodings as names, and every name added is that person's. |
| Enrolment.EnrolLockStep | main.py:48-58 | The whole walk adds as many encodings as names, and every name added is the name of a directory entry of the dataset. |
| Enrolment.EnrolImagesAppend | main.py:51-58 | Walking a concatenated listing of images is walking the first part and then, unless it failed, the second. |
| Enrolment.EnrolPersonsAppend | main.py:48-58 | Walking a concatenated listing of the dataset is walking the first part and then, unless it failed, the second. |
| Enrolment.SkippedPersonAddsNothing | main.py:48-50 | An entry of the dataset directory that is not a directory changes nothing, wherever it stands. |
| Enrolment.ImageContribution | main.py:51-58 | Within a directory: an entry that is not a file, fails the filter or holds no face adds nothing; a passing file with faces appends exactly its first encoding and the person's name; a passing file that cannot be loaded stops the walk with an error. |
| Enrolment.EnrolImagesStopsAtFailure | main.py:47-62 | Once the walk over a directory has failed, the rest of its listing is never looked at. |
| Enrolment.EnrolPersonsStopsAtFailure | main.py:47-62 | Once the walk over the dataset has failed, the remaining entries are never looked at. |
| Enrolment.EnrolPersonsFailsAt | main.py:47-62 | When entry `j` is the first to fail, the walk ends failed, holding what came before together with what entry `j` added before failing. |
| Annotation.PaddedBox | main.py:120-123 | The full-frame box keeps an upright location upright. It is 4 times as high and as wide plus 40, and lies strictly outside the scaled location on every side. |
| Annotation.FaceDrawing | main.py:126-130 | The outline, band and text for one face. Defined directly; characterised by `FaceDrawingCalls` and `FaceDrawingLayout`. |
| Annotation.Annotations | main.py:118 | The calls for every pair of the `zip`. Defined directly; characterised by `AnnotationsShape`. |
| Annotation.PaddedBoxExample | main.py:120-123 | The location (10, 20, 30, 5) on the shrunk frame becomes (20, 100, 140, 0) on the full frame. |
| Annotation.FaceDrawingCalls | main.py:120-130 | For every location, upright or not, the three calls with all their arguments. First, a blue (255, 0, 0) outline of thickness 2 from (4·left − 20, 4·top − 20) to (4·right + 20, 4·bottom + 20). Second, a filled blue band from (4·left − 20, 4·bottom + 20 − 35) to the outline's bottom-right corner. Third, the label in white (255, 255, 255), in the complex Hershey font at scale 0.8 and thickness 1, at (4·left − 20 + 6, 4·bottom + 20 − 6). |
| Annotation.FaceDrawingLayout | main.py:120-130 | For an upright location: the outline is the location scaled by 4 and padded by 20 on every side. The filled band shares the outline's left, right and bottom edges, is 35 high, and lies inside the outline. The label text is the name and starts strictly inside the band. |
| Annotation.AnnotationsUpToShape | main.py:118-130 | The first `count` (location, label) pairs give `3 * count` drawing calls, and calls `3i` to `3i + 2` are pair `i`'s outline, band and text. |
| Annotation.AnnotationsShape | main.py:118 | `zip` draws exactly the pairs up to the shorter list, three calls per pair and in order; the rest of the longer list is not drawn. |
| Annotation.Frame.constructor | main.py:73 | A frame read from the device has nothing drawn on it. |
| Annotation.Frame.Draw | main.py:126-130 | A drawing primitive adds its call after those already made on the frame. |
| Recognition.Distances | main.py:92 | `face_distance`: one distance per gallery encoding, in gallery order. Defined directly, no contract. |
| Recognition.Verdicts | main.py:88 | `compare_faces`: one match verdict per gallery encoding, in gallery order. Defined directly, no contract. |
| Recognition.Label | main.py:87-99 | The label of one face is absent (argmin raises) exactly when the gallery is empty; its value is `FaceLabel`'s. |
| Recognition.Labels | main.py:86-99 | The labels of a frame are absent exactly when a face was found and the gallery is empty; otherwise there is one label per encoding, in order, each the label of its face. |
| Recognition.Step | main.py:78-101 | One frame's effect on the toggle and the results. Defined directly; characterised by `StepOutcome`. |
| Recognition.StepOutcome | main.py:78-101 | A frame raises exactly when it is a processing frame with a face and an empty gallery. Otherwise the toggle flips. A frame that is not processed keeps the results. A processing frame replaces them by its own locations and encodings, each encoding with its own label. |
| Recognition.Steps | main.py:72-101 | The frames in order, stopping at the first that raises. Defined directly; characterised by `StepsToggle` and `StepsCache`. |
| Recognition.Drawn | main.py:103 | What frame `count - 1` is annotated with: the annotations of the results held after it. Defined directly. |
| Recognition.FirstQuit | main.py:106-107 | The index of the first capture followed by `q`. Every earlier capture's key is not `q`, and the capture at that index has key `q` unless there is none. |
| Recognition.StepsToggle | main.py:101 | After `count` frames without an error, the toggle equals its start value when `count` is even and is flipped when `count` is odd. |
| Recognition.StepsCache | main.py:78-101 | Starting with the toggle on, the results after any number of frames are exactly those computed on the last even-numbered frame (counting from 0), whatever the frames in between held. |
| Recognition.FaceRecognition.constructor | main.py:27-43 | A new recogniser has empty results and the toggle on. Its gallery lists are exactly what the enrolment walk adds. It exits with an error exactly when the walk fails. |
| Recognition.FaceRecognition.EncodeFaces | main.py:45-62 | The gallery lists grow by exactly the walk's encodings and names, in lock-step. It records the exit with status 1 (`exitedWithError`) exactly when a listing or an image load raised, and keeps an earlier exit. |
| Recognition.FaceRecognition.EncodePerson | main.py:49-58 | One dataset entry appends exactly what walking it adds: nothing for a non-directory, otherwise its images in order. Fails exactly when the listing or an image load raised. |
| Recognition.FaceRecognition.ProcessFrame | main.py:78-101 | Requires a recogniser whose enrolment did not exit. On a processing frame, the results become the detection's locations and encodings and their `Labels`; otherwise they are kept. Either way the toggle flips, which is `Step`. When the gallery is empty and a face was found, it fails with the new locations and encodings, no labels, and the toggle unflipped. The gallery is outside its frame, so it is unchanged. |
| Recognition.FaceRecognition.AnnotateFrame | main.py:112-130 | The calls made on the frame are followed by exactly `Annotations` of the current locations and labels. |
| Recognition.FaceRecognition.ShowFrame | main.py:78-105 | Requires a recogniser whose enrolment did not exit. One pass on a frame that was read. It fails exactly when matching raises. Otherwise the toggle and results become those of `Step`, and the calls drawn on the fresh frame are exactly the `Annotations` of the new results. |
| Recognition.FaceRecognition.RunRecognition | main.py:64-110 | Runs only on a recogniser whose enrolment did not exit, because `sys.exit(1)` ends the program before this. If the source cannot be opened, it ends with nothing shown and nothing changed. Otherwise, frame `k` shown carries the annotations of the state after `k + 1` steps. On a quit it stops right after the first capture followed by `q`. When the device runs dry, every capture was shown and none was followed by `q`. In both cases the final toggle and results are those of `Steps`. A crash happens on the frame whose step fails, no later than the first `q`. |

## Left out

- `face_confidence` (main.py:9-23) is floating-point arithmetic with `math.pow` and rounding. It is a parameter of the `Matcher`, and every property holds for any confidence function.
- `face_recognition.face_locations`, `face_encodings`, `face_distance`, `compare_faces` and `load_image_file` are foreign calls. Detections and encodings are inputs; distance and match verdict are parameters. The library's default tolerance of 0.6 is not assumed. `ToleranceDecidesLabel` covers every tolerance.
- Floating-point distances are modelled as `real`, so NaN distances, which `np.argmin` would treat specially, do not arise.
- Enrolment.Lower: lowercases the ASCII letters A-Z only and keeps the length. Python's `str.lower` also lowercases other Unicode letters, and a few of them (such as `İ`) become two code points. The only non-ASCII characters whose lowercase holds an ASCII letter are the Kelvin sign (`k`) and `İ` (`i` and a combining dot). Neither letter occurs in png, jpg or jpeg, so the filter's verdict is the same.
- `os.listdir`, `os.path.isdir` and `os.path.isfile` are modelled by their results. The dataset is a value: listings, directory and file flags, and the faces found per image, with `None` where a call raised. Path joining and `dataset_dir`/`video_source` are not modelled.
- `print` lines and the error message are not modelled. `sys.exit(1)` after an enrolment error is modelled as the `exitedWithError` field, which `EncodeFaces` itself sets on every error path. `ProcessFrame`, `ShowFrame` and `RunRecognition` require it to be false, so no frame is handled after a failed enrolment. `sys.exit` when the source cannot be opened is modelled as the `SourceNotFound` outcome.
- The `while True` capture loop runs over a finite sequence of successful reads. A failed read ends it (`CaptureFailed`). The frames themselves (pixels, resizing, the BGR to RGB swap) are not modelled. A frame is the list of drawing calls made on it.
- `cv2.imshow`, `cv2.waitKey`, `video_capture.release` and `cv2.destroyAllWindows` are display and device I/O. The key code polled after each frame is part of the capture. The cleanup in `finally` is not modelled.
- Recognition.FaceRecognition.RunRecognition: on `Crashed`, the model does not state the fields left behind. The exception leaves `run_recognition`, and the program state after it is not used.
