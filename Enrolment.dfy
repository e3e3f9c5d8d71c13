/**
 * Building the gallery of known faces from the dataset directory: one
 * sub-directory per person, one gallery entry per image in which the face
 * library finds a face.
 */
module Enrolment {
  import opened Types

  // ---------------------------------------------------------------------
  // The image-file filter
  // ---------------------------------------------------------------------

  /** `str.lower` on one character, for the ASCII letters. */
  function LowerChar(c: char): char
  {
    if 'A' <= c <= 'Z' then (c as int + 32) as char else c
  }

  /** `str.lower`: every character lowercased, in place. */
  function Lower(s: string): (r: string)
    ensures |r| == |s|
    ensures forall i :: 0 <= i < |s| ==> r[i] == LowerChar(s[i])
  {
    if s == [] then [] else [LowerChar(s[0])] + Lower(s[1..])
  }

  /** `str.endswith` with one suffix. */
  predicate EndsWith(s: string, suffix: string)
  {
    |suffix| <= |s| && s[|s| - |suffix|..] == suffix
  }

  /** The file name test of the enrolment walk: the lowercased name ends with png, jpg or jpeg. */
  predicate IsImageName(fileName: string)
  {
    var lower := Lower(fileName);
    EndsWith(lower, "png") || EndsWith(lower, "jpg") || EndsWith(lower, "jpeg")
  }

  /** The last `|suffix|` characters of `s` spell `suffix` in either case. */
  ghost predicate EndsWithIgnoringCase(s: string, suffix: string)
  {
    |suffix| <= |s| &&
    forall i :: 0 <= i < |suffix| ==> LowerChar(s[|s| - |suffix| + i]) == suffix[i]
  }

  lemma LowerEndsWith(s: string, suffix: string)
    ensures EndsWith(Lower(s), suffix) <==> EndsWithIgnoringCase(s, suffix)
  {
    if |suffix| <= |s| {
      var tail := Lower(s)[|s| - |suffix|..];
      assert |tail| == |suffix|;
      assert forall i :: 0 <= i < |suffix| ==> tail[i] == LowerChar(s[|s| - |suffix| + i]);
      assert tail == suffix <==> forall i :: 0 <= i < |suffix| ==> tail[i] == suffix[i];
    }
  }

  /**
   * A file name passes exactly when its last three characters are png or jpg,
   * or its last four are jpeg, in any mix of cases; no dot is needed.
   */
  lemma IsImageNameIgnoresCase(fileName: string)
    ensures IsImageName(fileName) <==>
              EndsWithIgnoringCase(fileName, "png") ||
              EndsWithIgnoringCase(fileName, "jpg") ||
              EndsWithIgnoringCase(fileName, "jpeg")
  {
    LowerEndsWith(fileName, "png");
    LowerEndsWith(fileName, "jpg");
    LowerEndsWith(fileName, "jpeg");
  }

  /** An upper-case extension passes. */
  lemma UpperCaseExtensionAccepted()
    ensures IsImageName("a.PNG")
  {
    assert Lower("a.PNG") == "a.png";
  }

  /** The four-letter extension passes in any mix of cases. */
  lemma MixedCaseJpegAccepted()
    ensures IsImageName("b.JpEg")
  {
    assert Lower("b.JpEg") == "b.jpeg";
  }

  /** No dot is needed before the extension. */
  lemma ExtensionWithoutDotAccepted()
    ensures IsImageName("xpng")
  {
  }

  /** Another extension is rejected. */
  lemma OtherExtensionRejected()
    ensures !IsImageName("a.gif")
  {
    assert Lower("a.gif")[4] == 'f';
  }

  // ---------------------------------------------------------------------
  // The dataset as the walk sees it
  // ---------------------------------------------------------------------

  /**
   * One entry of a person's directory: its name, whether it is a regular file,
   * and what loading and encoding it yields (`None` when either call raises).
   */
  datatype ImageEntry = ImageEntry(fileName: string, isFile: bool, faces: Option<seq<Encoding>>)

  /**
   * One entry of the dataset directory: its name, whether it is a directory,
   * and its listing (`None` when listing it raises).
   */
  datatype PersonEntry = PersonEntry(name: string, isDir: bool, images: Option<seq<ImageEntry>>)

  /** The dataset directory's listing; `None` when listing it raises. */
  type Dataset = Option<seq<PersonEntry>>

  /**
   * What the walk adds to the two gallery lists, and whether it stopped on an
   * error (after which the program exits with status 1).
   */
  datatype Enrolled = Enrolled(encodings: seq<Encoding>, names: seq<string>, failed: bool)

  const Nothing := Enrolled([], [], false)
  const Failure := Enrolled([], [], true)

  /** Running `a` and then, unless `a` stopped on an error, `b`. */
  function Then(a: Enrolled, b: Enrolled): Enrolled
  {
    if a.failed then a else Enrolled(a.encodings + b.encodings, a.names + b.names, b.failed)
  }

  /** One directory entry of `person`: a passing file with a face adds its first encoding. */
  function EnrolImage(person: string, image: ImageEntry): (r: Enrolled)
    ensures r.failed <==> image.isFile && IsImageName(image.fileName) && image.faces.None?
    ensures r.failed ==> r.encodings == [] && r.names == []
    ensures !r.failed ==> |r.encodings| == |r.names| <= 1 && (forall n :: n in r.names ==> n == person)
    ensures r.encodings != [] <==>
              image.isFile && IsImageName(image.fileName) && image.faces.Some? && image.faces.value != []
    ensures r.encodings != [] ==> r.encodings == [image.faces.value[0]]
  {
    if image.isFile && IsImageName(image.fileName) then
      match image.faces
      case None => Failure
      case Some(faces) => if |faces| > 0 then Enrolled([faces[0]], [person], false) else Nothing
    else Nothing
  }

  function EnrolImages(person: string, images: seq<ImageEntry>): Enrolled
  {
    if images == [] then Nothing
    else Then(EnrolImages(person, images[..|images| - 1]), EnrolImage(person, images[|images| - 1]))
  }

  function EnrolPerson(person: PersonEntry): Enrolled
  {
    if !person.isDir then Nothing
    else match person.images
      case None => Failure
      case Some(images) => EnrolImages(person.name, images)
  }

  function EnrolPersons(persons: seq<PersonEntry>): Enrolled
  {
    if persons == [] then Nothing
    else Then(EnrolPersons(persons[..|persons| - 1]), EnrolPerson(persons[|persons| - 1]))
  }

  /** What the whole enrolment walk adds to the gallery. */
  function Enrol(dataset: Dataset): Enrolled
  {
    match dataset
    case None => Failure
    case Some(persons) => EnrolPersons(persons)
  }

  // ---------------------------------------------------------------------
  // Properties of the walk
  // ---------------------------------------------------------------------

  /** The two gallery lists stay in lock-step. */
  ghost predicate LockStep(e: Enrolled)
  {
    |e.encodings| == |e.names|
  }

  lemma {:induction false} EnrolImagesLockStep(person: string, images: seq<ImageEntry>)
    ensures LockStep(EnrolImages(person, images))
    ensures forall k :: 0 <= k < |EnrolImages(person, images).names| ==>
              EnrolImages(person, images).names[k] == person
    decreases |images|
  {
    if images != [] {
      EnrolImagesLockStep(person, images[..|images| - 1]);
    }
  }

  /** `name` is the name of a directory entry of the dataset. */
  ghost predicate IsDirectoryName(name: string, persons: seq<PersonEntry>)
  {
    exists j :: 0 <= j < |persons| && persons[j].isDir && name == persons[j].name
  }

  /**
   * Every enrolment walk adds as many encodings as names, and every name it
   * adds is that of a directory in the dataset.
   */
  lemma {:induction false} EnrolLockStep(persons: seq<PersonEntry>)
    ensures LockStep(EnrolPersons(persons))
    ensures forall k :: 0 <= k < |EnrolPersons(persons).names| ==>
              IsDirectoryName(EnrolPersons(persons).names[k], persons)
    decreases |persons|
  {
    if persons != [] {
      var init := persons[..|persons| - 1];
      var last := persons[|persons| - 1];
      EnrolLockStep(init);
      if last.isDir && last.images.Some? {
        EnrolImagesLockStep(last.name, last.images.value);
      }
      var before, here := EnrolPersons(init), EnrolPerson(last);
      var e := EnrolPersons(persons);
      assert e == Then(before, here);
      forall k | 0 <= k < |e.names|
        ensures IsDirectoryName(e.names[k], persons)
      {
        if k < |before.names| {
          assert e.names[k] == before.names[k];
          assert IsDirectoryName(before.names[k], init);
          var j :| 0 <= j < |init| && init[j].isDir && before.names[k] == init[j].name;
          assert persons[j] == init[j];
          assert 0 <= j < |persons| && persons[j].isDir && e.names[k] == persons[j].name;
        } else {
          var j := |persons| - 1;
          assert !before.failed && e.names == before.names + here.names;
          assert here.names != [] && last.isDir;
          assert e.names[k] == here.names[k - |before.names|] == last.name;
          assert persons[j] == last;
          assert 0 <= j < |persons| && persons[j].isDir && e.names[k] == persons[j].name;
        }
      }
    }
  }

  lemma ThenAssociative(a: Enrolled, b: Enrolled, c: Enrolled)
    ensures Then(Then(a, b), c) == Then(a, Then(b, c))
  {
  }

  /** The walk over a concatenation is the walk over each part in turn. */
  lemma {:induction false} EnrolImagesAppend(person: string, xs: seq<ImageEntry>, ys: seq<ImageEntry>)
    ensures EnrolImages(person, xs + ys) == Then(EnrolImages(person, xs), EnrolImages(person, ys))
    decreases |ys|
  {
    if ys == [] {
      assert xs + ys == xs;
    } else {
      var ys' := ys[..|ys| - 1];
      assert (xs + ys)[..|xs + ys| - 1] == xs + ys';
      EnrolImagesAppend(person, xs, ys');
      ThenAssociative(EnrolImages(person, xs), EnrolImages(person, ys'), EnrolImage(person, ys[|ys| - 1]));
    }
  }

  lemma {:induction false} EnrolPersonsAppend(xs: seq<PersonEntry>, ys: seq<PersonEntry>)
    ensures EnrolPersons(xs + ys) == Then(EnrolPersons(xs), EnrolPersons(ys))
    decreases |ys|
  {
    if ys == [] {
      assert xs + ys == xs;
    } else {
      var ys' := ys[..|ys| - 1];
      assert (xs + ys)[..|xs + ys| - 1] == xs + ys';
      EnrolPersonsAppend(xs, ys');
      ThenAssociative(EnrolPersons(xs), EnrolPersons(ys'), EnrolPerson(ys[|ys| - 1]));
    }
  }

  /**
   * Entries that are not directories add nothing, wherever they stand in the
   * dataset listing.
   */
  lemma SkippedPersonAddsNothing(xs: seq<PersonEntry>, p: PersonEntry, ys: seq<PersonEntry>)
    requires !p.isDir
    ensures EnrolPersons(xs + [p] + ys) == EnrolPersons(xs + ys)
  {
    assert [p][..0] == [];
    assert EnrolPersons([p]) == Nothing;
    EnrolPersonsAppend(xs, [p]);
    var before := EnrolPersons(xs);
    assert before.encodings + [] == before.encodings && before.names + [] == before.names;
    assert EnrolPersons(xs + [p]) == before;
    EnrolPersonsAppend(xs + [p], ys);
    EnrolPersonsAppend(xs, ys);
  }

  /**
   * Within a person's directory, an entry that is not a file, whose name fails
   * the filter, or in which no face is found adds nothing; a file that passes
   * and has faces appends exactly its first encoding under the person's name.
   */
  lemma ImageContribution(person: string, xs: seq<ImageEntry>, image: ImageEntry, ys: seq<ImageEntry>)
    requires !EnrolImages(person, xs).failed
    ensures !image.isFile || !IsImageName(image.fileName) || image.faces == Some([]) ==>
              EnrolImages(person, xs + [image] + ys) == EnrolImages(person, xs + ys)
    ensures image.isFile && IsImageName(image.fileName) && image.faces.Some? && image.faces.value != [] ==>
              var before := EnrolImages(person, xs);
              EnrolImages(person, xs + [image] + ys)
              == Then(Enrolled(before.encodings + [image.faces.value[0]], before.names + [person], false),
                      EnrolImages(person, ys))
    ensures image.isFile && IsImageName(image.fileName) && image.faces.None? ==>
              EnrolImages(person, xs + [image] + ys) == Then(EnrolImages(person, xs), Failure)
  {
    var before, here := EnrolImages(person, xs), EnrolImage(person, image);
    assert (xs + [image])[..|xs|] == xs;
    assert EnrolImages(person, xs + [image]) == Then(before, here);
    EnrolImagesAppend(person, xs + [image], ys);
    if here == Nothing {
      assert before.encodings + [] == before.encodings && before.names + [] == before.names;
      EnrolImagesAppend(person, xs, ys);
    }
  }

  /** Once a walk over a prefix has stopped on an error, the rest of the listing is never looked at. */
  lemma EnrolImagesStopsAtFailure(person: string, images: seq<ImageEntry>, k: nat)
    requires k <= |images| && EnrolImages(person, images[..k]).failed
    ensures EnrolImages(person, images) == EnrolImages(person, images[..k])
  {
    var done, rest := images[..k], images[k..];
    assert done + rest == images;
    EnrolImagesAppend(person, done, rest);
    assert Then(EnrolImages(person, done), EnrolImages(person, rest)) == EnrolImages(person, done);
  }

  lemma EnrolPersonsStopsAtFailure(persons: seq<PersonEntry>, k: nat)
    requires k <= |persons| && EnrolPersons(persons[..k]).failed
    ensures EnrolPersons(persons) == EnrolPersons(persons[..k])
  {
    var done, rest := persons[..k], persons[k..];
    assert done + rest == persons;
    EnrolPersonsAppend(done, rest);
    assert Then(EnrolPersons(done), EnrolPersons(rest)) == EnrolPersons(done);
  }

  /** The walk over the first `j + 1` persons is the walk over the first `j` followed by person `j`. */
  lemma EnrolPersonsNext(persons: seq<PersonEntry>, j: nat)
    requires j < |persons|
    ensures EnrolPersons(persons[..j + 1]) == Then(EnrolPersons(persons[..j]), EnrolPerson(persons[j]))
  {
    assert persons[..j + 1][..j] == persons[..j];
  }

  lemma EnrolImagesNext(person: string, images: seq<ImageEntry>, i: nat)
    requires i < |images|
    ensures EnrolImages(person, images[..i + 1]) == Then(EnrolImages(person, images[..i]), EnrolImage(person, images[i]))
  {
    assert images[..i + 1][..i] == images[..i];
  }

  /** When person `j` is the first whose walk stops on an error, the whole walk stops there. */
  lemma EnrolPersonsFailsAt(persons: seq<PersonEntry>, j: nat)
    requires j < |persons| && !EnrolPersons(persons[..j]).failed && EnrolPerson(persons[j]).failed
    ensures var before, here := EnrolPersons(persons[..j]), EnrolPerson(persons[j]);
      EnrolPersons(persons)
      == Enrolled(before.encodings + here.encodings, before.names + here.names, true)
  {
    EnrolPersonsNext(persons, j);
    EnrolPersonsStopsAtFailure(persons, j + 1);
  }
}
