/**
 * The recogniser: a gallery of known faces built once, then a capture loop
 * that runs detection and matching on every other frame, keeps the last
 * results for the frames in between, and annotates every frame it shows.
 */
module Recognition {
  import opened Types
  import opened Matching
  import opened Enrolment
  import opened Annotation

  /**
   * The face library's two comparisons of a gallery encoding with a detected
   * one (its distance, and whether the library calls it a match) and the
   * confidence text of a distance.
   */
  datatype Matcher = Matcher(
    distance: (Encoding, Encoding) -> real,
    isMatch: (Encoding, Encoding) -> bool,
    confidence: real -> string)

  /** What the face library finds on the shrunk frame: locations and, in the same order, encodings. */
  datatype Detection = Detection(locations: seq<Box>, encodings: seq<Encoding>)

  /**
   * One successful read of the capture device: what detection would find on
   * it, and the key code polled after it is shown.
   */
  datatype Capture = Capture(detection: Detection, key: int)

  const QuitKey := 'q' as int

  /** The known faces: encodings and names, index by index. */
  datatype Gallery = Gallery(encodings: seq<Encoding>, names: seq<string>)

  /** The results kept between frames: locations, encodings and display labels. */
  datatype Cache = Cache(locations: seq<Box>, encodings: seq<Encoding>, names: seq<string>)

  predicate WellFormed(g: Gallery)
  {
    |g.encodings| == |g.names|
  }

  /** `face_distance(known, face)`: one distance per gallery encoding. */
  function Distances(known: seq<Encoding>, face: Encoding, m: Matcher): seq<real>
  {
    seq(|known|, i requires 0 <= i < |known| => m.distance(known[i], face))
  }

  /** `compare_faces(known, face)`: one verdict per gallery encoding. */
  function Verdicts(known: seq<Encoding>, face: Encoding, m: Matcher): seq<bool>
  {
    seq(|known|, i requires 0 <= i < |known| => m.isMatch(known[i], face))
  }

  /** The display label of one detected face; `None` when the gallery is empty. */
  function Label(g: Gallery, m: Matcher, face: Encoding): (r: Option<string>)
    requires WellFormed(g)
    ensures r.None? <==> g.encodings == []
  {
    FaceLabel(g.names, Distances(g.encodings, face, m), Verdicts(g.encodings, face, m), m.confidence)
  }

  /**
   * The labels of all faces of a frame: one per encoding, in order. `None`
   * exactly when a face was found while the gallery is empty.
   */
  function Labels(g: Gallery, m: Matcher, faces: seq<Encoding>): (r: Option<seq<string>>)
    requires WellFormed(g)
    ensures r.None? <==> faces != [] && g.encodings == []
    ensures r.Some? ==> |r.value| == |faces|
    ensures r.Some? ==> forall i :: 0 <= i < |faces| ==> Label(g, m, faces[i]) == Some(r.value[i])
  {
    if faces != [] && g.encodings == [] then None
    else Some(seq(|faces|, i requires 0 <= i < |faces| => Label(g, m, faces[i]).value))
  }

  /**
   * One frame: on a processing frame the cache is replaced by what is found on
   * it; otherwise it is kept. The toggle flips either way. `None` when
   * matching raises.
   */
  function Step(g: Gallery, m: Matcher, processing: bool, cache: Cache, d: Detection): Option<(bool, Cache)>
    requires WellFormed(g)
  {
    if !processing then Some((true, cache))
    else match Labels(g, m, d.encodings)
      case None => None
      case Some(names) => Some((false, Cache(d.locations, d.encodings, names)))
  }

  /**
   * One frame raises exactly when it is a processing frame with a face and an
   * empty gallery. Otherwise the toggle flips. A frame that is not processed
   * keeps the cache. A processing frame replaces it by the frame's own
   * locations and encodings, each encoding carrying its own label.
   */
  lemma StepOutcome(g: Gallery, m: Matcher, processing: bool, cache: Cache, d: Detection)
    requires WellFormed(g)
    ensures var r := Step(g, m, processing, cache, d);
      && (r.None? <==> processing && d.encodings != [] && g.encodings == [])
      && (r.Some? ==> r.value.0 == !processing)
      && (r.Some? && !processing ==> r.value.1 == cache)
      && (r.Some? && processing ==>
            r.value.1.locations == d.locations && r.value.1.encodings == d.encodings &&
            |r.value.1.names| == |d.encodings| &&
            forall i :: 0 <= i < |d.encodings| ==> Label(g, m, d.encodings[i]) == Some(r.value.1.names[i]))
  {
  }

  /** Toggle and cache after the first `count` frames, in order; `None` once matching has raised. */
  function Steps(g: Gallery, m: Matcher, processing: bool, cache: Cache, captures: seq<Capture>, count: nat)
    : Option<(bool, Cache)>
    requires WellFormed(g) && count <= |captures|
  {
    if count == 0 then Some((processing, cache))
    else match Steps(g, m, processing, cache, captures, count - 1)
      case None => None
      case Some(state) => Step(g, m, state.0, state.1, captures[count - 1].detection)
  }

  /** The toggle is back where it started after an even number of frames. */
  lemma {:induction false} StepsToggle(g: Gallery, m: Matcher, processing: bool, cache: Cache,
                                       captures: seq<Capture>, count: nat)
    requires WellFormed(g) && count <= |captures|
    requires Steps(g, m, processing, cache, captures, count).Some?
    ensures Steps(g, m, processing, cache, captures, count).value.0 == (processing == (count % 2 == 0))
  {
    if count > 0 {
      StepsToggle(g, m, processing, cache, captures, count - 1);
    }
  }

  /** The latest frame, counting from 0, that ran detection when frame 0 did: the last even one. */
  function LastProcessed(count: nat): nat
    requires count > 0
  {
    (count - 1) - (count - 1) % 2
  }

  /**
   * Starting on a processing frame, detection runs on frames 0, 2, 4, ...; so
   * after any number of frames the cached results are exactly those of the
   * last even-numbered frame, whatever the frames in between held.
   */
  lemma {:induction false} StepsCache(g: Gallery, m: Matcher, cache: Cache, captures: seq<Capture>, count: nat)
    requires WellFormed(g) && 0 < count <= |captures|
    requires Steps(g, m, true, cache, captures, count).Some?
    ensures var d := captures[LastProcessed(count)].detection;
      Labels(g, m, d.encodings).Some? &&
      Steps(g, m, true, cache, captures, count).value.1
      == Cache(d.locations, d.encodings, Labels(g, m, d.encodings).value)
  {
    if count > 1 {
      StepsToggle(g, m, true, cache, captures, count - 1);
      if (count - 1) % 2 == 1 {
        StepsCache(g, m, cache, captures, count - 1);
      }
    }
  }

  /** The drawing calls made on frame `count - 1`: the annotations of the results held after it. */
  function Drawn(g: Gallery, m: Matcher, processing: bool, cache: Cache, captures: seq<Capture>, count: nat)
    : Option<seq<DrawCall>>
    requires WellFormed(g) && count <= |captures|
  {
    match Steps(g, m, processing, cache, captures, count)
    case None => None
    case Some(state) => Some(Annotations(state.1.locations, state.1.names))
  }

  /** One more frame: the state and the drawing calls after `count + 1` frames follow from those after `count`. */
  lemma StepsNext(g: Gallery, m: Matcher, processing: bool, cache: Cache, captures: seq<Capture>, count: nat,
                  state: (bool, Cache), next: (bool, Cache))
    requires WellFormed(g) && count < |captures|
    requires Steps(g, m, processing, cache, captures, count) == Some(state)
    requires Step(g, m, state.0, state.1, captures[count].detection) == Some(next)
    ensures Steps(g, m, processing, cache, captures, count + 1) == Some(next)
    ensures Drawn(g, m, processing, cache, captures, count + 1) == Some(Annotations(next.1.locations, next.1.names))
  {
  }

  /** Frame `k` of `shown` carries the drawing calls made after the first `k + 1` captures. */
  ghost predicate Displays(g: Gallery, m: Matcher, processing: bool, cache: Cache,
                           captures: seq<Capture>, shown: seq<seq<DrawCall>>)
    requires WellFormed(g)
  {
    |shown| <= |captures| &&
    forall k :: 0 <= k < |shown| ==> Drawn(g, m, processing, cache, captures, k + 1) == Some(shown[k])
  }

  lemma DisplaysNext(g: Gallery, m: Matcher, processing: bool, cache: Cache,
                     captures: seq<Capture>, shown: seq<seq<DrawCall>>, calls: seq<DrawCall>)
    requires WellFormed(g) && Displays(g, m, processing, cache, captures, shown) && |shown| < |captures|
    requires Drawn(g, m, processing, cache, captures, |shown| + 1) == Some(calls)
    ensures Displays(g, m, processing, cache, captures, shown + [calls])
  {
    var extended := shown + [calls];
    forall k | 0 <= k < |extended|
      ensures Drawn(g, m, processing, cache, captures, k + 1) == Some(extended[k])
    {
      if k < |shown| {
        assert extended[k] == shown[k];
      }
    }
  }

  /** The index of the first capture followed by the quit key; the number of captures when there is none. */
  function FirstQuit(captures: seq<Capture>): (r: nat)
    ensures r <= |captures|
    ensures forall k :: 0 <= k < r ==> captures[k].key != QuitKey
    ensures r < |captures| ==> captures[r].key == QuitKey
  {
    if captures == [] || captures[0].key == QuitKey then 0
    else 1 + FirstQuit(captures[1..])
  }

  datatype RunEnd = SourceNotFound | CaptureFailed | QuitRequested | Crashed

  class FaceRecognition {
    var knownFaceEncodings: seq<Encoding>
    var knownFaceNames: seq<string>
    var faceLocations: seq<Box>
    var faceEncodings: seq<Encoding>
    var faceNames: seq<string>
    var processCurrentFrame: bool
    /** Enrolment stopped on an error, upon which the program exits with status 1. */
    var exitedWithError: bool

    ghost predicate Valid()
      reads this
    {
      |knownFaceEncodings| == |knownFaceNames|
    }

    function Known(): Gallery
      reads this
    {
      Gallery(knownFaceEncodings, knownFaceNames)
    }

    function Results(): Cache
      reads this
    {
      Cache(faceLocations, faceEncodings, faceNames)
    }

    /** Empty results, processing on, and the gallery enrolled from `dataset`. */
    constructor (dataset: Dataset)
      ensures Valid()
      ensures knownFaceEncodings == Enrol(dataset).encodings && knownFaceNames == Enrol(dataset).names
      ensures exitedWithError == Enrol(dataset).failed
      ensures Results() == Cache([], [], []) && processCurrentFrame
    {
      faceLocations, faceEncodings, faceNames := [], [], [];
      knownFaceEncodings, knownFaceNames := [], [];
      processCurrentFrame := true;
      exitedWithError := false;
      new;
      EncodeFaces(dataset);
    }

    /**
     * The enrolment walk: appends, in lock-step, the first encoding and the
     * person's name of every image file with a face. When a listing or an
     * image load raises, it stops there and the program exits with status 1.
     */
    method EncodeFaces(dataset: Dataset)
      requires Valid()
      modifies this`knownFaceEncodings, this`knownFaceNames, this`exitedWithError
      ensures Valid()
      ensures knownFaceEncodings == old(knownFaceEncodings) + Enrol(dataset).encodings
      ensures knownFaceNames == old(knownFaceNames) + Enrol(dataset).names
      ensures exitedWithError == (old(exitedWithError) || Enrol(dataset).failed)
    {
      if dataset.None? {
        exitedWithError := true;
        return;
      }
      var persons := dataset.value;
      var j := 0;
      while j < |persons|
        invariant 0 <= j <= |persons| && Valid()
        invariant !EnrolPersons(persons[..j]).failed
        invariant knownFaceEncodings == old(knownFaceEncodings) + EnrolPersons(persons[..j]).encodings
        invariant knownFaceNames == old(knownFaceNames) + EnrolPersons(persons[..j]).names
        invariant exitedWithError == old(exitedWithError)
      {
        EnrolPersonsNext(persons, j);
        ghost var before, here := EnrolPersons(persons[..j]), EnrolPerson(persons[j]);
        AppendAssociative(old(knownFaceEncodings), before.encodings, here.encodings);
        AppendAssociative(old(knownFaceNames), before.names, here.names);
        var personOk := EncodePerson(persons[j]);
        if !personOk {
          EnrolPersonsFailsAt(persons, j);
          exitedWithError := true;
          return;
        }
        j := j + 1;
      }
      assert persons[..j] == persons;
    }

    /**
     * One entry of the dataset directory: nothing unless it is a directory;
     * otherwise its listing is walked, appending what each image contributes.
     * Returns false, and stops, when listing the directory or loading an
     * image raised.
     */
    method EncodePerson(person: PersonEntry) returns (ok: bool)
      requires Valid()
      modifies this`knownFaceEncodings, this`knownFaceNames
      ensures Valid()
      ensures knownFaceEncodings == old(knownFaceEncodings) + EnrolPerson(person).encodings
      ensures knownFaceNames == old(knownFaceNames) + EnrolPerson(person).names
      ensures ok == !EnrolPerson(person).failed
    {
      if !person.isDir {
        return true;
      }
      if person.images.None? {
        return false;
      }
      var images := person.images.value;
      var i := 0;
      while i < |images|
        invariant 0 <= i <= |images| && Valid()
        invariant !EnrolImages(person.name, images[..i]).failed
        invariant knownFaceEncodings == old(knownFaceEncodings) + EnrolImages(person.name, images[..i]).encodings
        invariant knownFaceNames == old(knownFaceNames) + EnrolImages(person.name, images[..i]).names
      {
        var image := images[i];
        EnrolImagesNext(person.name, images, i);
        if image.isFile && IsImageName(image.fileName) {
          if image.faces.None? {
            EnrolImagesStopsAtFailure(person.name, images, i + 1);
            return false;
          }
          var faces := image.faces.value;
          if |faces| > 0 {
            AppendAssociative(old(knownFaceEncodings), EnrolImages(person.name, images[..i]).encodings, [faces[0]]);
            AppendAssociative(old(knownFaceNames), EnrolImages(person.name, images[..i]).names, [person.name]);
            knownFaceEncodings := knownFaceEncodings + [faces[0]];
            knownFaceNames := knownFaceNames + [person.name];
          }
        }
        i := i + 1;
      }
      assert images[..i] == images;
      ok := true;
    }

    /**
     * The matching part of one pass of the capture loop. On a processing
     * frame the results are replaced by the detection's locations and
     * encodings and one label per encoding; then the toggle flips. Returns
     * false when `np.argmin` raises on an empty gallery: the results then hold
     * the new locations and encodings and no labels, and the toggle is as it was.
     */
    method ProcessFrame(m: Matcher, detection: Detection) returns (ok: bool)
      requires Valid() && !exitedWithError
      modifies this`faceLocations, this`faceEncodings, this`faceNames, this`processCurrentFrame
      ensures ok == Step(old(Known()), m, old(processCurrentFrame), old(Results()), detection).Some?
      ensures ok ==> (processCurrentFrame, Results())
                     == Step(old(Known()), m, old(processCurrentFrame), old(Results()), detection).value
      ensures !ok ==> processCurrentFrame == old(processCurrentFrame)
                      && Results() == Cache(detection.locations, detection.encodings, [])
    {
      if processCurrentFrame {
        faceLocations := detection.locations;
        faceEncodings := detection.encodings;
        faceNames := [];
        var i := 0;
        while i < |faceEncodings|
          invariant 0 <= i <= |faceEncodings|
          invariant processCurrentFrame == old(processCurrentFrame)
          invariant faceLocations == detection.locations && faceEncodings == detection.encodings
          invariant |faceNames| == i
          invariant forall k :: 0 <= k < i ==> Label(Known(), m, faceEncodings[k]) == Some(faceNames[k])
          invariant i > 0 ==> knownFaceEncodings != []
        {
          var faceEncoding := faceEncodings[i];
          var matches := Verdicts(knownFaceEncodings, faceEncoding, m);
          var name := UnknownName;
          var confidence := NoConfidence;
          var faceDistances := Distances(knownFaceEncodings, faceEncoding, m);
          if |faceDistances| == 0 {
            return false;
          }
          var bestMatchIndex := ArgMin(faceDistances);
          if matches[bestMatchIndex] {
            name := knownFaceNames[bestMatchIndex];
            confidence := m.confidence(faceDistances[bestMatchIndex]);
          }
          faceNames := faceNames + [DisplayLabel(name, confidence)];
          i := i + 1;
        }
        assert Labels(Known(), m, faceEncodings).value == faceNames;
      }
      processCurrentFrame := !processCurrentFrame;
      ok := true;
    }

    /** Draws an outline, a label band and the label for each (location, label) pair of the results. */
    method AnnotateFrame(frame: Frame)
      modifies frame
      ensures frame.drawn == old(frame.drawn) + Annotations(faceLocations, faceNames)
    {
      var count := Min(|faceLocations|, |faceNames|);
      var i := 0;
      while i < count
        invariant 0 <= i <= count
        invariant frame.drawn == old(frame.drawn) + AnnotationsUpTo(faceLocations, faceNames, i)
      {
        var location, name := faceLocations[i], faceNames[i];
        var top := location.top * 4 - 20;
        var right := location.right * 4 + 20;
        var bottom := location.bottom * 4 + 20;
        var left := location.left * 4 - 20;
        ghost var before := frame.drawn;
        frame.Draw(Rectangle(Point(left, top), Point(right, bottom), Blue, 2));
        frame.Draw(Rectangle(Point(left, bottom - 35), Point(right, bottom), Blue, Filled));
        frame.Draw(Text(name, Point(left + 6, bottom - 6), HersheyComplex, 0.8, White, 1));
        assert frame.drawn == before + FaceDrawing(location, name);
        AppendAssociative(old(frame.drawn), AnnotationsUpTo(faceLocations, faceNames, i), FaceDrawing(location, name));
        i := i + 1;
      }
    }

    /**
     * One pass of the capture loop on a frame read from the device: matching
     * (on a processing frame) and the toggle, then the annotations drawn on
     * the frame, which is then shown. Returns false when matching raised.
     */
    method ShowFrame(m: Matcher, detection: Detection) returns (ok: bool, calls: seq<DrawCall>)
      requires Valid() && !exitedWithError
      modifies this`faceLocations, this`faceEncodings, this`faceNames, this`processCurrentFrame
      ensures ok == Step(Known(), m, old(processCurrentFrame), old(Results()), detection).Some?
      ensures ok ==> (processCurrentFrame, Results())
                     == Step(Known(), m, old(processCurrentFrame), old(Results()), detection).value
                     && calls == Annotations(faceLocations, faceNames)
    {
      ok := ProcessFrame(m, detection);
      if !ok {
        return ok, [];
      }
      var frame := new Frame();
      AnnotateFrame(frame);
      calls := frame.drawn;
    }

    /**
     * The capture loop over the frames the device delivers before a read
     * fails. Returns why it ended and, for each frame shown, the drawing calls
     * made on it.
     */
    method RunRecognition(m: Matcher, sourceOpened: bool, captures: seq<Capture>)
      returns (end: RunEnd, shown: seq<seq<DrawCall>>)
      requires Valid() && !exitedWithError
      modifies this`faceLocations, this`faceEncodings, this`faceNames, this`processCurrentFrame
      ensures !sourceOpened ==> (end == SourceNotFound && shown == []
                                 && processCurrentFrame == old(processCurrentFrame) && Results() == old(Results()))
      ensures sourceOpened ==> end != SourceNotFound && |shown| <= |captures|
      ensures Displays(old(Known()), m, old(processCurrentFrame), old(Results()), captures, shown)
      ensures end == QuitRequested ==> |shown| == FirstQuit(captures) + 1
      ensures end == CaptureFailed ==> |shown| == FirstQuit(captures) == |captures|
      ensures end == Crashed ==> |shown| <= FirstQuit(captures)
      ensures end == CaptureFailed || end == QuitRequested ==>
                Steps(old(Known()), m, old(processCurrentFrame), old(Results()), captures, |shown|)
                == Some((processCurrentFrame, Results()))
      ensures end == Crashed ==>
                (|shown| < |captures|
                 && Steps(old(Known()), m, old(processCurrentFrame), old(Results()), captures, |shown| + 1).None?)
    {
      shown := [];
      ghost var g0, processing0, cache0 := Known(), processCurrentFrame, Results();
      if !sourceOpened {
        return SourceNotFound, shown;
      }
      var i := 0;
      while i < |captures|
        invariant 0 <= i <= |captures| && |shown| == i
        invariant Steps(g0, m, processing0, cache0, captures, i)
                  == Some((processCurrentFrame, Results()))
        invariant Displays(g0, m, processing0, cache0, captures, shown)
        invariant i <= FirstQuit(captures)
      {
        var capture := captures[i];
        ghost var before := (processCurrentFrame, Results());
        var ok, calls := ShowFrame(m, capture.detection);
        if !ok {
          return Crashed, shown;
        }
        StepsNext(g0, m, processing0, cache0, captures, i, before, (processCurrentFrame, Results()));
        DisplaysNext(g0, m, processing0, cache0, captures, shown, calls);
        shown := shown + [calls];
        i := i + 1;
        if capture.key == QuitKey {
          return QuitRequested, shown;
        }
      }
      end := CaptureFailed;
    }
  }
}
