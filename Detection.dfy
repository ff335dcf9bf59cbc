/**
 * Detection records and the three per-strategy detection wrappers of
 * `FaceRecognitionEngine` (`_detect_insightface`, `_detect_mediapipe`, `_detect_opencv`).
 *
 * The backends (InsightFace's `FaceAnalysis.get`, MediaPipe's `FaceDetection.process`, the
 * OpenCV cascade's `detectMultiScale`, and the crop followed by `cv2.resize`) are foreign
 * code: the model receives them as functions that either return raw results or raise.
 */
module Detection {
  import opened Wrappers
  import opened Embeddings

  /** A decoded BGR image. */
  type Image = Raster

  /** An integer pixel box: `[x_min, y_min, x_max, y_max]`. */
  datatype BBox = BBox(xMin: int, yMin: int, xMax: int, yMax: int)

  /** A pixel rectangle `(x, y, w, h)` as the cascade (and MediaPipe, after conversion) reports it. */
  datatype Rect = Rect(x: int, y: int, w: int, h: int)

  /** InsightFace's floating-point box `[x1, y1, x2, y2]`. */
  datatype RealBox = RealBox(x1: real, y1: real, x2: real, y2: real)

  /** A landmark point (InsightFace's `kps` rows). */
  type Point = (real, real)

  /** One detected face: the dictionary with keys `bbox`, `embedding`, `confidence`, `landmarks`. */
  datatype Detection = Detection(bbox: BBox, embedding: Embedding, confidence: real, landmarks: Option<seq<Point>>)

  /** A face as InsightFace returns it; `kps` is `None` when the face has no such attribute. */
  datatype InsightFace = InsightFace(box: RealBox, embedding: Embedding, detScore: real, kps: Option<seq<Point>>)

  /** A MediaPipe detection, its relative box already converted to pixels, with its first score. */
  datatype MediaPipeFace = MediaPipeFace(box: Rect, score: real)

  /** The foreign calls each strategy makes; `Raised` stands for any exception they throw. */
  datatype Backends = Backends(
    analyse: Image -> Outcome<seq<InsightFace>>,
    locate: Image -> Outcome<seq<MediaPipeFace>>,
    cascade: Image -> Outcome<seq<Rect>>,
    cropResize: (Image, Rect) -> Outcome<Raster>)

  /** The constant confidence the cascade strategy reports for every face. */
  const CascadeConfidence: real := 0.8

  /** numpy's `astype(int)` on a float: truncation toward zero. */
  function TruncateToInt(x: real): (r: int)
    ensures x >= 0.0 ==> 0 <= r && r as real <= x < r as real + 1.0
    ensures x < 0.0 ==> r <= 0 && r as real - 1.0 < x <= r as real
  {
    if x >= 0.0 then x.Floor else -((-x).Floor)
  }

  /** The record `_detect_insightface` builds from one InsightFace face. */
  function InsightRecord(f: InsightFace): Detection
  {
    Detection(
      BBox(TruncateToInt(f.box.x1), TruncateToInt(f.box.y1), TruncateToInt(f.box.x2), TruncateToInt(f.box.y2)),
      f.embedding, f.detScore, f.kps)
  }

  /**
   * The record `_detect_mediapipe` and `_detect_opencv` build from one pixel rectangle: the
   * crop is resized and flattened into the simple embedding; landmarks are never filled in.
   * Resizing may raise (for instance on an empty crop).
   */
  function CroppedRecord(b: Backends, image: Image, rect: Rect, confidence: real): Outcome<Detection>
  {
    match b.cropResize(image, rect)
    case Raised => Raised
    case Ok(face) =>
      Ok(Detection(BBox(rect.x, rect.y, rect.x + rect.w, rect.y + rect.h), SimpleEmbedding(face), confidence, None))
  }

  /**
   * The detection list a wrapper's loop appends to, one record per raw face in order; the
   * first conversion that raises aborts the whole list.
   */
  function CollectAll<R>(raws: seq<R>, convert: R -> Outcome<Detection>): Outcome<seq<Detection>>
    decreases |raws|
  {
    if raws == [] then Ok([])
    else
      match CollectAll(raws[..|raws| - 1], convert)
      case Raised => Raised
      case Ok(ds) =>
        match convert(raws[|raws| - 1])
        case Raised => Raised
        case Ok(d) => Ok(ds + [d])
  }

  /** What the `except` clause turns a raised detection into: no faces. */
  function OrNoFaces(o: Outcome<seq<Detection>>): seq<Detection>
  {
    match o
    case Ok(ds) => ds
    case Raised => []
  }

  /**
   * Collecting succeeds exactly when every conversion succeeds, and then yields one record
   * per raw face, in order.
   */
  lemma {:induction false} CollectAllSpec<R>(raws: seq<R>, convert: R -> Outcome<Detection>)
    ensures CollectAll(raws, convert).Ok? <==> forall i :: 0 <= i < |raws| ==> convert(raws[i]).Ok?
    ensures CollectAll(raws, convert).Ok? ==>
      && |CollectAll(raws, convert).value| == |raws|
      && forall i :: 0 <= i < |raws| ==> CollectAll(raws, convert).value[i] == convert(raws[i]).value
    decreases |raws|
  {
    if raws != [] {
      var init := raws[..|raws| - 1];
      CollectAllSpec(init, convert);
      assert forall i :: 0 <= i < |init| ==> init[i] == raws[i];
    }
  }

  /** The loop of a detection wrapper: convert each raw face in turn, stopping at the first exception. */
  method Collect<R>(raws: seq<R>, convert: R -> Outcome<Detection>) returns (r: Outcome<seq<Detection>>)
    ensures r == CollectAll(raws, convert)
  {
    var detections: seq<Detection> := [];
    var i := 0;
    while i < |raws|
      invariant 0 <= i <= |raws|
      invariant CollectAll(raws[..i], convert) == Ok(detections)
    {
      assert raws[..i + 1][..i] == raws[..i];
      match convert(raws[i]) {
        case Raised =>
          CollectAllSpec(raws[..i + 1], convert);
          CollectAllSpec(raws, convert);
          assert raws[..i + 1][i] == raws[i];
          return Raised;
        case Ok(d) =>
          detections := detections + [d];
      }
      i := i + 1;
    }
    assert raws[..i] == raws;
    r := Ok(detections);
  }

  /** `_detect_insightface`: `ready` says whether the prepared detector exists. */
  function InsightFaceDetections(ready: bool, b: Backends, image: Image): seq<Detection>
  {
    if !ready then []
    else
      match b.analyse(image)
      case Raised => []
      case Ok(faces) => OrNoFaces(CollectAll(faces, f => Ok(InsightRecord(f))))
  }

  /** `_detect_mediapipe`: `ready` says whether the MediaPipe detector exists. */
  function MediaPipeDetections(ready: bool, b: Backends, image: Image): seq<Detection>
  {
    if !ready then []
    else
      match b.locate(image)
      case Raised => []
      case Ok(faces) => OrNoFaces(CollectAll(faces, (m: MediaPipeFace) => CroppedRecord(b, image, m.box, m.score)))
  }

  /** `_detect_opencv`: `ready` says whether the cascade classifier exists. */
  function CascadeDetections(ready: bool, b: Backends, image: Image): seq<Detection>
  {
    if !ready then []
    else
      match b.cascade(image)
      case Raised => []
      case Ok(rects) => OrNoFaces(CollectAll(rects, (r: Rect) => CroppedRecord(b, image, r, CascadeConfidence)))
  }

  /**
   * The InsightFace path: nothing when the detector is missing or raises; otherwise one
   * record per face, in order, with the box truncated to integers and the embedding, score
   * and landmarks copied from the face.
   */
  lemma InsightFaceDetectionsSpec(ready: bool, b: Backends, image: Image)
    ensures !ready || b.analyse(image).Raised? ==> InsightFaceDetections(ready, b, image) == []
    ensures ready && b.analyse(image).Ok? ==>
      var faces, ds := b.analyse(image).value, InsightFaceDetections(ready, b, image);
      && |ds| == |faces|
      && forall i :: 0 <= i < |faces| ==>
        && ds[i].bbox == BBox(TruncateToInt(faces[i].box.x1), TruncateToInt(faces[i].box.y1),
                              TruncateToInt(faces[i].box.x2), TruncateToInt(faces[i].box.y2))
        && ds[i].embedding == faces[i].embedding
        && ds[i].confidence == faces[i].detScore
        && ds[i].landmarks == faces[i].kps
  {
    if ready && b.analyse(image).Ok? {
      CollectAllSpec(b.analyse(image).value, f => Ok(InsightRecord(f)));
    }
  }

  /**
   * The MediaPipe path: nothing when the detector is missing, raises, or any crop fails to
   * resize; otherwise one record per face, in order, with box `[x, y, x + w, y + h]`, the
   * simple embedding of the resized crop and MediaPipe's score. Landmarks are never set.
   */
  lemma MediaPipeDetectionsSpec(ready: bool, b: Backends, image: Image)
    ensures !ready || b.locate(image).Raised? ==> MediaPipeDetections(ready, b, image) == []
    ensures forall k :: 0 <= k < |MediaPipeDetections(ready, b, image)| ==>
      MediaPipeDetections(ready, b, image)[k].landmarks == None
    ensures ready && b.locate(image).Ok? ==>
      var faces, ds := b.locate(image).value, MediaPipeDetections(ready, b, image);
      && ((exists i :: 0 <= i < |faces| && b.cropResize(image, faces[i].box).Raised?) ==> ds == [])
      && ((forall i :: 0 <= i < |faces| ==> b.cropResize(image, faces[i].box).Ok?) ==>
          && |ds| == |faces|
          && forall i :: 0 <= i < |faces| ==>
            var r := faces[i].box;
            && ds[i].bbox == BBox(r.x, r.y, r.x + r.w, r.y + r.h)
            && ds[i].embedding == SimpleEmbedding(b.cropResize(image, r).value)
            && ds[i].confidence == faces[i].score)
  {
    if ready && b.locate(image).Ok? {
      var faces := b.locate(image).value;
      var convert := (m: MediaPipeFace) => CroppedRecord(b, image, m.box, m.score);
      CollectAllSpec(faces, convert);
      if CollectAll(faces, convert).Ok? {
        var ds := CollectAll(faces, convert).value;
        forall k | 0 <= k < |ds| ensures ds[k].landmarks == None {
          assert convert(faces[k]).Ok?;
        }
      }
    }
  }

  /**
   * The OpenCV path: nothing when the classifier is missing, raises, or any crop fails to
   * resize; otherwise exactly one record per cascade rectangle `(x, y, w, h)`, in order,
   * with box `[x, y, x + w, y + h]`, the simple embedding of the resized crop, confidence
   * 0.8 and no landmarks.
   */
  lemma CascadeDetectionsSpec(ready: bool, b: Backends, image: Image)
    ensures !ready || b.cascade(image).Raised? ==> CascadeDetections(ready, b, image) == []
    ensures forall k :: 0 <= k < |CascadeDetections(ready, b, image)| ==>
      && CascadeDetections(ready, b, image)[k].landmarks == None
      && CascadeDetections(ready, b, image)[k].confidence == CascadeConfidence
    ensures ready && b.cascade(image).Ok? ==>
      var rects, ds := b.cascade(image).value, CascadeDetections(ready, b, image);
      && ((exists i :: 0 <= i < |rects| && b.cropResize(image, rects[i]).Raised?) ==> ds == [])
      && ((forall i :: 0 <= i < |rects| ==> b.cropResize(image, rects[i]).Ok?) ==>
          && |ds| == |rects|
          && forall i :: 0 <= i < |rects| ==>
            var r := rects[i];
            && ds[i].bbox == BBox(r.x, r.y, r.x + r.w, r.y + r.h)
            && ds[i].embedding == SimpleEmbedding(b.cropResize(image, r).value))
  {
    if ready && b.cascade(image).Ok? {
      var rects := b.cascade(image).value;
      var convert := (r: Rect) => CroppedRecord(b, image, r, CascadeConfidence);
      CollectAllSpec(rects, convert);
      if CollectAll(rects, convert).Ok? {
        var ds := CollectAll(rects, convert).value;
        forall k | 0 <= k < |ds|
          ensures ds[k].landmarks == None && ds[k].confidence == CascadeConfidence
        {
          assert convert(rects[k]).Ok?;
        }
      }
    }
  }

  /**
   * `cv2.resize(face_image, (128, 128))` always yields the 128 x 128 canvas: every crop of
   * `image` that resizes without raising is a 128 x 128 raster with `c` channels.
   */
  ghost predicate ResizesToCanvas(b: Backends, image: Image, c: nat) {
    forall r: Rect :: b.cropResize(image, r).Ok? ==> IsRaster(b.cropResize(image, r).value, CanvasSide, CanvasSide, c)
  }

  /** A record built from a resized crop carries an embedding of `128 * 128 * c` entries. */
  lemma CroppedEmbeddingLength(b: Backends, image: Image, rect: Rect, confidence: real, c: nat)
    requires ResizesToCanvas(b, image, c)
    requires CroppedRecord(b, image, rect, confidence).Ok?
    ensures |CroppedRecord(b, image, rect, confidence).value.embedding| == 128 * 128 * c
  {
    CanvasEmbedding(b.cropResize(image, rect).value, c);
  }

  /** With a resize to the canvas, every MediaPipe detection's embedding has `128 * 128 * c` entries. */
  lemma MediaPipeCanvasEmbeddings(ready: bool, b: Backends, image: Image, c: nat)
    requires ResizesToCanvas(b, image, c)
    ensures forall k :: 0 <= k < |MediaPipeDetections(ready, b, image)| ==>
      |MediaPipeDetections(ready, b, image)[k].embedding| == 128 * 128 * c
  {
    if ready && b.locate(image).Ok? {
      var faces := b.locate(image).value;
      var convert := (m: MediaPipeFace) => CroppedRecord(b, image, m.box, m.score);
      CollectAllSpec(faces, convert);
      if CollectAll(faces, convert).Ok? {
        var ds := CollectAll(faces, convert).value;
        forall k | 0 <= k < |ds| ensures |ds[k].embedding| == 128 * 128 * c {
          CroppedEmbeddingLength(b, image, faces[k].box, faces[k].score, c);
        }
      }
    }
  }

  /** With a resize to the canvas, every cascade detection's embedding has `128 * 128 * c` entries. */
  lemma CascadeCanvasEmbeddings(ready: bool, b: Backends, image: Image, c: nat)
    requires ResizesToCanvas(b, image, c)
    ensures forall k :: 0 <= k < |CascadeDetections(ready, b, image)| ==>
      |CascadeDetections(ready, b, image)[k].embedding| == 128 * 128 * c
  {
    if ready && b.cascade(image).Ok? {
      var rects := b.cascade(image).value;
      var convert := (r: Rect) => CroppedRecord(b, image, r, CascadeConfidence);
      CollectAllSpec(rects, convert);
      if CollectAll(rects, convert).Ok? {
        var ds := CollectAll(rects, convert).value;
        forall k | 0 <= k < |ds| ensures |ds[k].embedding| == 128 * 128 * c {
          CroppedEmbeddingLength(b, image, rects[k], CascadeConfidence, c);
        }
      }
    }
  }
}
