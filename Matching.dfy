/**
 * `match_face_to_students`: for every detected face, scan all enrolled students for the
 * highest similarity (a running best that starts at 0 and moves only on a strictly larger
 * score), and keep the face when that best score reaches the threshold.
 */
module Matching {
  import opened Wrappers
  import opened Embeddings
  import opened Detection
  import opened FaceEngine
  import opened Comparator

  /** One entry of `student_encodings`, in the dictionary's iteration order. */
  datatype Candidate = Candidate(studentId: StudentId, encoding: Option<Embedding>)

  /** One result dictionary: `student_id`, `similarity`, `bbox`, `confidence`. */
  datatype Match = Match(studentId: Option<StudentId>, similarity: real, bbox: BBox, confidence: real)

  /** The running `best_match` and `best_similarity` of the inner loop. */
  datatype Best = Best(studentId: Option<StudentId>, score: real)

  /** The similarity the scan calls (`engine.compare_faces` in the program); it may raise. */
  type Similarity = (Option<Embedding>, Option<Embedding>) -> Outcome<real>

  /** `engine.compare_faces(face, student, threshold)` as the similarity of the scan. */
  function EngineSimilarity(norm: Norm, threshold: real): Similarity
  {
    (e1: Option<Embedding>, e2: Option<Embedding>) => CompareFaces(norm, e1, e2, threshold)
  }

  /** The inner loop over the first `|cands|` candidates; the first exception aborts it. */
  function Scan(face: Embedding, cands: seq<Candidate>, sim: Similarity): Outcome<Best>
    decreases |cands|
  {
    if cands == [] then Ok(Best(None, 0.0))
    else
      match Scan(face, cands[..|cands| - 1], sim)
      case Raised => Raised
      case Ok(best) =>
        var c := cands[|cands| - 1];
        match sim(Some(face), c.encoding)
        case Raised => Raised
        case Ok(s) => Ok(if s > best.score then Best(Some(c.studentId), s) else best)
  }

  /** Every candidate's similarity to `face` is computed without raising. */
  ghost predicate AllScored(face: Embedding, cands: seq<Candidate>, sim: Similarity) {
    forall i :: 0 <= i < |cands| ==> sim(Some(face), cands[i].encoding).Ok?
  }

  /** The similarity of candidate `i`, when it does not raise. */
  function ScoreOf(face: Embedding, cands: seq<Candidate>, sim: Similarity, i: nat): real
    requires i < |cands| && sim(Some(face), cands[i].encoding).Ok?
  {
    sim(Some(face), cands[i].encoding).value
  }

  /** The scan raises exactly when some similarity raises. */
  lemma {:induction false} ScanRaises(face: Embedding, cands: seq<Candidate>, sim: Similarity)
    ensures Scan(face, cands, sim).Ok? <==> AllScored(face, cands, sim)
    decreases |cands|
  {
    if cands != [] {
      var init := cands[..|cands| - 1];
      ScanRaises(face, init, sim);
      assert forall i :: 0 <= i < |init| ==> init[i] == cands[i];
    }
  }

  /**
   * The reported score is the maximum of 0 and all candidate similarities; no candidate is
   * reported when none scores above 0, and otherwise the reported score is above 0.
   */
  lemma {:induction false} ScanMaximum(face: Embedding, cands: seq<Candidate>, sim: Similarity)
    requires AllScored(face, cands, sim)
    ensures Scan(face, cands, sim).Ok?
    ensures Scan(face, cands, sim).value.score >= 0.0
    ensures forall i :: 0 <= i < |cands| ==> ScoreOf(face, cands, sim, i) <= Scan(face, cands, sim).value.score
    ensures Scan(face, cands, sim).value.studentId.None? <==>
      forall i :: 0 <= i < |cands| ==> ScoreOf(face, cands, sim, i) <= 0.0
    ensures Scan(face, cands, sim).value.studentId.None? ==> Scan(face, cands, sim).value.score == 0.0
    ensures Scan(face, cands, sim).value.studentId.Some? ==> Scan(face, cands, sim).value.score > 0.0
    decreases |cands|
  {
    ScanRaises(face, cands, sim);
    if cands != [] {
      var init := cands[..|cands| - 1];
      assert forall i :: 0 <= i < |init| ==> init[i] == cands[i];
      ScanMaximum(face, init, sim);
      PrefixScores(face, cands, sim);
      var best := Scan(face, init, sim).value;
      if best.studentId.Some? {
        var w :| 0 <= w < |init| && ScoreOf(face, init, sim, w) > 0.0;
        assert ScoreOf(face, cands, sim, w) > 0.0;
      } else if ScoreOf(face, cands, sim, |init|) <= 0.0 {
        assert forall i :: 0 <= i < |cands| ==> ScoreOf(face, cands, sim, i) <= 0.0 by {
          forall i | 0 <= i < |cands| ensures ScoreOf(face, cands, sim, i) <= 0.0 {
            if i < |init| {
              assert ScoreOf(face, init, sim, i) <= 0.0;
            }
          }
        }
      }
    }
  }

  /** Dropping the last candidate leaves the other candidates' scores as they were. */
  lemma PrefixScores(face: Embedding, cands: seq<Candidate>, sim: Similarity)
    requires cands != [] && AllScored(face, cands, sim)
    ensures AllScored(face, cands[..|cands| - 1], sim)
    ensures forall i :: 0 <= i < |cands| - 1 ==>
      ScoreOf(face, cands[..|cands| - 1], sim, i) == ScoreOf(face, cands, sim, i)
  {
    var init := cands[..|cands| - 1];
    assert forall i :: 0 <= i < |init| ==> init[i] == cands[i];
  }

  /**
   * A reported student is the first candidate attaining the reported score: every earlier
   * candidate scores strictly less.
   */
  lemma {:induction false} ScanFirstWinner(face: Embedding, cands: seq<Candidate>, sim: Similarity) returns (j: nat)
    requires AllScored(face, cands, sim)
    requires Scan(face, cands, sim).Ok? && Scan(face, cands, sim).value.studentId.Some?
    ensures j < |cands|
    ensures cands[j].studentId == Scan(face, cands, sim).value.studentId.value
    ensures ScoreOf(face, cands, sim, j) == Scan(face, cands, sim).value.score
    ensures forall l :: 0 <= l < j ==> ScoreOf(face, cands, sim, l) < Scan(face, cands, sim).value.score
    decreases |cands|
  {
    var init := cands[..|cands| - 1];
    assert forall i :: 0 <= i < |init| ==> init[i] == cands[i];
    assert AllScored(face, init, sim);
    ScanMaximum(face, init, sim);
    PrefixScores(face, cands, sim);
    var last := |cands| - 1;
    var best := Scan(face, init, sim).value;
    if ScoreOf(face, cands, sim, last) > best.score {
      j := last;
    } else {
      j := ScanFirstWinner(face, init, sim);
    }
  }

  /** The outer loop over the first `|ds|` detections: keep a face when its best score reaches the threshold. */
  function MatchAll(ds: seq<Detection>, cands: seq<Candidate>, sim: Similarity, threshold: real): Outcome<seq<Match>>
    decreases |ds|
  {
    if ds == [] then Ok([])
    else
      match MatchAll(ds[..|ds| - 1], cands, sim, threshold)
      case Raised => Raised
      case Ok(ms) =>
        var d := ds[|ds| - 1];
        match Scan(d.embedding, cands, sim)
        case Raised => Raised
        case Ok(best) =>
          Ok(if best.score >= threshold then ms + [Match(best.studentId, best.score, d.bbox, d.confidence)] else ms)
  }

  /** The match the program reports for detection `d`, given the outcome of its scan. */
  function MatchFor(d: Detection, best: Best): Match
  {
    Match(best.studentId, best.score, d.bbox, d.confidence)
  }

  /** Matching raises exactly when the scan of some detection raises. */
  lemma {:induction false} MatchAllRaises(ds: seq<Detection>, cands: seq<Candidate>, sim: Similarity, threshold: real)
    ensures MatchAll(ds, cands, sim, threshold).Ok? <==>
      forall i :: 0 <= i < |ds| ==> Scan(ds[i].embedding, cands, sim).Ok?
    decreases |ds|
  {
    if ds != [] {
      var init := ds[..|ds| - 1];
      MatchAllRaises(init, cands, sim, threshold);
      assert forall i :: 0 <= i < |init| ==> init[i] == ds[i];
    }
  }

  /**
   * The result of a successful match, detection by detection: the kept faces are exactly
   * the detections whose best score reaches the threshold, in detection order, each
   * reported with its scan's student and score and the detection's box and confidence.
   * `idx` lists the positions of the kept detections.
   */
  lemma {:induction false} MatchAllKept(ds: seq<Detection>, cands: seq<Candidate>, sim: Similarity, threshold: real)
    returns (idx: seq<nat>)
    requires MatchAll(ds, cands, sim, threshold).Ok?
    ensures forall i :: 0 <= i < |ds| ==> Scan(ds[i].embedding, cands, sim).Ok?
    ensures |idx| == |MatchAll(ds, cands, sim, threshold).value|
    ensures forall k :: 0 <= k < |idx| ==> idx[k] < |ds|
    ensures forall k, l :: 0 <= k < l < |idx| ==> idx[k] < idx[l]
    ensures forall k :: 0 <= k < |idx| ==>
      MatchAll(ds, cands, sim, threshold).value[k] == MatchFor(ds[idx[k]], Scan(ds[idx[k]].embedding, cands, sim).value)
    ensures forall i :: 0 <= i < |ds| ==> (i in idx <==> Scan(ds[i].embedding, cands, sim).value.score >= threshold)
    decreases |ds|
  {
    MatchAllRaises(ds, cands, sim, threshold);
    if ds == [] {
      idx := [];
    } else {
      var init := ds[..|ds| - 1];
      assert forall i :: 0 <= i < |init| ==> init[i] == ds[i];
      var prev := MatchAllKept(init, cands, sim, threshold);
      var last := |ds| - 1;
      var best := Scan(ds[last].embedding, cands, sim).value;
      if best.score >= threshold {
        idx := prev + [last];
      } else {
        idx := prev;
      }
    }
  }

  /**
   * The summary facts: no detections give no matches; at most one match per detection;
   * every match reaches the threshold.
   */
  lemma MatchAllBounds(ds: seq<Detection>, cands: seq<Candidate>, sim: Similarity, threshold: real)
    requires MatchAll(ds, cands, sim, threshold).Ok?
    ensures ds == [] ==> MatchAll(ds, cands, sim, threshold).value == []
    ensures |MatchAll(ds, cands, sim, threshold).value| <= |ds|
    ensures forall k :: 0 <= k < |MatchAll(ds, cands, sim, threshold).value| ==>
      MatchAll(ds, cands, sim, threshold).value[k].similarity >= threshold
  {
    var idx := MatchAllKept(ds, cands, sim, threshold);
    StrictlyIncreasingBound(idx, |ds|);
    forall k | 0 <= k < |MatchAll(ds, cands, sim, threshold).value|
      ensures MatchAll(ds, cands, sim, threshold).value[k].similarity >= threshold
    {
      assert idx[k] in idx;
    }
  }

  /**
   * With a threshold of 0 or less every detected face is reported, including those no
   * candidate scores above 0 for, which are reported with no student and similarity 0.
   */
  lemma {:induction false} NonPositiveThresholdKeepsEveryFace(ds: seq<Detection>, cands: seq<Candidate>,
                                                              sim: Similarity, threshold: real)
    requires threshold <= 0.0
    requires MatchAll(ds, cands, sim, threshold).Ok?
    ensures |MatchAll(ds, cands, sim, threshold).value| == |ds|
    decreases |ds|
  {
    if ds != [] {
      var init := ds[..|ds| - 1];
      NonPositiveThresholdKeepsEveryFace(init, cands, sim, threshold);
      var face := ds[|ds| - 1].embedding;
      ScanRaises(face, cands, sim);
      ScanMaximum(face, cands, sim);
    }
  }

  /** A strictly increasing sequence of indices below `n` has at most `n` entries. */
  lemma {:induction false} StrictlyIncreasingBound(idx: seq<nat>, n: nat)
    requires forall k :: 0 <= k < |idx| ==> idx[k] < n
    requires forall k, l :: 0 <= k < l < |idx| ==> idx[k] < idx[l]
    ensures |idx| <= n
  {
    if |idx| > 0 {
      var init := idx[..|idx| - 1];
      StrictlyIncreasingBound(init, idx[|idx| - 1]);
    }
  }

  /** Every stored encoding is absent or has the length of `face`. */
  ghost predicate SameLengths(face: Embedding, cands: seq<Candidate>) {
    forall i :: 0 <= i < |cands| ==> cands[i].encoding.None? || |cands[i].encoding.value| == |face|
  }

  /**
   * With `compare_faces` as the similarity, the scan of a face raises exactly when some
   * stored encoding has a length different from the face's embedding.
   */
  lemma EngineScanRaises(norm: Norm, threshold: real, face: Embedding, cands: seq<Candidate>)
    ensures Scan(face, cands, EngineSimilarity(norm, threshold)).Ok? <==> SameLengths(face, cands)
  {
    var sim := EngineSimilarity(norm, threshold);
    ScanRaises(face, cands, sim);
    forall i | 0 <= i < |cands|
      ensures sim(Some(face), cands[i].encoding).Ok? <==>
        (cands[i].encoding.None? || |cands[i].encoding.value| == |face|)
    {
      assert sim(Some(face), cands[i].encoding) == CompareFaces(norm, Some(face), cands[i].encoding, threshold);
    }
  }

  /**
   * With `compare_faces` over a Euclidean norm, a scan reports a score in [0, 1): the
   * matched score can never reach 1, so a threshold of 1 or more matches nothing.
   */
  lemma EngineScanBelowOne(norm: Norm, threshold: real, face: Embedding, cands: seq<Candidate>)
    requires forall v :: IsEuclidean(norm, v)
    requires SameLengths(face, cands)
    ensures Scan(face, cands, EngineSimilarity(norm, threshold)).Ok?
    ensures 0.0 <= Scan(face, cands, EngineSimilarity(norm, threshold)).value.score < 1.0
  {
    var sim := EngineSimilarity(norm, threshold);
    EngineScanRaises(norm, threshold, face, cands);
    ScanRaises(face, cands, sim);
    ScanMaximum(face, cands, sim);
    if Scan(face, cands, sim).value.studentId.Some? {
      var j := ScanFirstWinner(face, cands, sim);
      var e := cands[j].encoding;
      assert sim(Some(face), e) == CompareFaces(norm, Some(face), e, threshold);
      if e.Some? {
        CompareBounded(norm, face, e.value, threshold);
      }
    }
  }

  /**
   * With `compare_faces` over a Euclidean norm and encodings of matching lengths, matching
   * never raises and every reported similarity lies in [threshold, 1) and is not negative.
   */
  lemma EngineMatchesBounded(norm: Norm, threshold: real, ds: seq<Detection>, cands: seq<Candidate>)
    requires forall v :: IsEuclidean(norm, v)
    requires forall i :: 0 <= i < |ds| ==> SameLengths(ds[i].embedding, cands)
    ensures MatchAll(ds, cands, EngineSimilarity(norm, threshold), threshold).Ok?
    ensures forall k :: 0 <= k < |MatchAll(ds, cands, EngineSimilarity(norm, threshold), threshold).value| ==>
      var m := MatchAll(ds, cands, EngineSimilarity(norm, threshold), threshold).value[k];
      0.0 <= m.similarity < 1.0 && threshold <= m.similarity
  {
    var sim := EngineSimilarity(norm, threshold);
    forall i | 0 <= i < |ds| ensures Scan(ds[i].embedding, cands, sim).Ok? {
      EngineScanRaises(norm, threshold, ds[i].embedding, cands);
    }
    MatchAllRaises(ds, cands, sim, threshold);
    var idx := MatchAllKept(ds, cands, sim, threshold);
    var ms := MatchAll(ds, cands, sim, threshold).value;
    forall k | 0 <= k < |ms| ensures 0.0 <= ms[k].similarity < 1.0 && threshold <= ms[k].similarity {
      EngineScanBelowOne(norm, threshold, ds[idx[k]].embedding, cands);
      assert idx[k] in idx;
    }
  }

  /**
   * Under the MediaPipe or cascade strategy, with a resize to the 128 x 128 canvas and
   * stored encodings of that strategy's length, matching the engine's detections never
   * raises and every reported similarity lies in [threshold, 1).
   */
  lemma CanvasMatchingBounded(norm: Norm, threshold: real, s: EngineState, b: Backends, image: Image,
                              cands: seq<Candidate>, c: nat)
    requires forall v :: IsEuclidean(norm, v)
    requires !s.useInsightface && ResizesToCanvas(b, image, c)
    requires forall i :: 0 <= i < |cands| ==> cands[i].encoding.None? || |cands[i].encoding.value| == 128 * 128 * c
    ensures MatchAll(DetectionsOf(s, b, image), cands, EngineSimilarity(norm, threshold), threshold).Ok?
    ensures forall k :: 0 <= k < |MatchAll(DetectionsOf(s, b, image), cands, EngineSimilarity(norm, threshold), threshold).value| ==>
      var m := MatchAll(DetectionsOf(s, b, image), cands, EngineSimilarity(norm, threshold), threshold).value[k];
      0.0 <= m.similarity < 1.0 && threshold <= m.similarity
  {
    var ds := DetectionsOf(s, b, image);
    CanvasStrategiesFixLength(s, b, image, c);
    assert forall i :: 0 <= i < |ds| ==> SameLengths(ds[i].embedding, cands);
    EngineMatchesBounded(norm, threshold, ds, cands);
  }

  /**
   * `match_face_to_students(image, student_encodings, threshold)`: detect the faces, then
   * run the nested scan. An exception from the similarity (embeddings of different lengths)
   * is not caught and propagates to the caller.
   */
  method MatchFaceToStudents(engine: FaceRecognitionEngine, b: Backends, image: Image,
                             cands: seq<Candidate>, sim: Similarity, threshold: real)
    returns (r: Outcome<seq<Match>>)
    ensures r == MatchAll(DetectionsOf(engine.State(), b, image), cands, sim, threshold)
  {
    var detections := engine.DetectFaces(b, image);
    if |detections| == 0 {
      return Ok([]);
    }
    var matches: seq<Match> := [];
    var i := 0;
    while i < |detections|
      invariant 0 <= i <= |detections|
      invariant MatchAll(detections[..i], cands, sim, threshold) == Ok(matches)
    {
      var detection := detections[i];
      var face := detection.embedding;
      var bestMatch: Option<StudentId> := None;
      var bestSimilarity: real := 0.0;
      var j := 0;
      while j < |cands|
        invariant 0 <= j <= |cands|
        invariant Scan(face, cands[..j], sim) == Ok(Best(bestMatch, bestSimilarity))
      {
        assert cands[..j + 1][..j] == cands[..j];
        match sim(Some(face), cands[j].encoding) {
          case Raised =>
            ScanRaises(face, cands[..j + 1], sim);
            ScanRaises(face, cands, sim);
            assert cands[..j + 1][j] == cands[j];
            MatchAllRaises(detections, cands, sim, threshold);
            return Raised;
          case Ok(similarity) =>
            if similarity > bestSimilarity {
              bestSimilarity := similarity;
              bestMatch := Some(cands[j].studentId);
            }
        }
        j := j + 1;
      }
      assert cands[..j] == cands;
      assert detections[..i + 1][..i] == detections[..i];
      if bestSimilarity >= threshold {
        matches := matches + [Match(bestMatch, bestSimilarity, detection.bbox, detection.confidence)];
      }
      i := i + 1;
    }
    assert detections[..i] == detections;
    r := Ok(matches);
  }
}
