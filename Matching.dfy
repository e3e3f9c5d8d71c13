/** Choosing the nearest gallery entry for one detected face and naming it. */
module Matching {
  import opened Types

  /** `k` is the first index at which `d` reaches its minimum. */
  ghost predicate IsFirstMinimum(d: seq<real>, k: int)
  {
    0 <= k < |d| &&
    (forall j :: 0 <= j < |d| ==> d[k] <= d[j]) &&
    (forall j :: 0 <= j < k ==> d[k] < d[j])
  }

  /** `np.argmin`: the index of the smallest distance, the first one on a tie. */
  function ArgMin(d: seq<real>): (k: nat)
    requires |d| > 0
    ensures k < |d|
    ensures forall j :: 0 <= j < |d| ==> d[k] <= d[j]
    ensures forall j :: 0 <= j < k ==> d[k] < d[j]
  {
    if |d| == 1 then 0
    else
      var k := ArgMin(d[..|d| - 1]);
      if d[|d| - 1] < d[k] then |d| - 1 else k
  }

  /** Only one index can be the first minimum, so the one `ArgMin` returns is it. */
  lemma {:induction false} FirstMinimumUnique(d: seq<real>, k: int)
    requires IsFirstMinimum(d, k)
    ensures ArgMin(d) == k
  {
  }

  const UnknownName := "Unknown"
  const NoConfidence := "0%"

  /** The text drawn under a face: `{name} ({confidence})`. */
  function DisplayLabel(name: string, confidence: string): (r: string)
    ensures |r| == |name| + |confidence| + 3
    ensures r[..|name|] == name && r[|name|..|name| + 2] == " ("
    ensures r[|r| - |confidence| - 1..|r| - 1] == confidence && r[|r| - 1] == ')'
  {
    name + " (" + confidence + ")"
  }

  /** The label of an unmatched face. */
  const UnknownLabel := DisplayLabel(UnknownName, NoConfidence)

  /**
   * The label of one detected face, given the distances to every gallery
   * encoding, the library's per-entry match verdicts and the gallery names.
   * `None` when the gallery is empty: `np.argmin` of an empty list raises.
   */
  function FaceLabel(names: seq<string>, distances: seq<real>, matches: seq<bool>,
                     confidence: real -> string): (r: Option<string>)
    requires |distances| == |names| == |matches|
    ensures r.None? <==> distances == []
  {
    if distances == [] then None
    else
      var best := ArgMin(distances);
      if matches[best] then Some(DisplayLabel(names[best], confidence(distances[best])))
      else Some(UnknownLabel)
  }

  /**
   * The label is decided by the first nearest entry alone: its name and the
   * confidence of its distance when the library calls it a match,
   * `Unknown (0%)` otherwise.
   */
  lemma FaceLabelIsNearest(names: seq<string>, distances: seq<real>, matches: seq<bool>,
                           confidence: real -> string, k: int)
    requires |distances| == |names| == |matches|
    requires IsFirstMinimum(distances, k)
    ensures matches[k] ==> FaceLabel(names, distances, matches, confidence)
                           == Some(DisplayLabel(names[k], confidence(distances[k])))
    ensures !matches[k] ==> FaceLabel(names, distances, matches, confidence) == Some(UnknownLabel)
  {
    FirstMinimumUnique(distances, k);
  }

  /** When the library matches no gallery entry, the face is `Unknown (0%)`, however close it is. */
  lemma NoMatchIsUnknown(names: seq<string>, distances: seq<real>, matches: seq<bool>,
                         confidence: real -> string)
    requires |distances| == |names| == |matches| && |distances| > 0
    requires forall i :: 0 <= i < |matches| ==> !matches[i]
    ensures FaceLabel(names, distances, matches, confidence) == Some(UnknownLabel)
  {
  }

  /**
   * For any match rule of the form "distance at most `tolerance`", the face is
   * named after its nearest entry exactly when some entry lies within the
   * tolerance, and is `Unknown (0%)` otherwise.
   */
  lemma ToleranceDecidesLabel(names: seq<string>, distances: seq<real>, matches: seq<bool>,
                              confidence: real -> string, tolerance: real)
    requires |distances| == |names| == |matches| && |distances| > 0
    requires forall i :: 0 <= i < |matches| ==> matches[i] == (distances[i] <= tolerance)
    ensures (exists i :: 0 <= i < |distances| && distances[i] <= tolerance) ==>
              FaceLabel(names, distances, matches, confidence)
              == Some(DisplayLabel(names[ArgMin(distances)], confidence(distances[ArgMin(distances)])))
    ensures (forall i :: 0 <= i < |distances| ==> tolerance < distances[i]) ==>
              FaceLabel(names, distances, matches, confidence) == Some(UnknownLabel)
  {
    var best := ArgMin(distances);
    if i :| 0 <= i < |distances| && distances[i] <= tolerance {
      assert distances[best] <= distances[i];
      assert matches[best];
    }
  }
}
