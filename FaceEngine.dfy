/**
 * `FaceRecognitionEngine`: strategy selection at construction (InsightFace, then MediaPipe,
 * then the OpenCV Haar cascade), dispatch of `detect_faces`, `get_engine_info`, and the
 * per-student encoding files.
 */
module FaceEngine {
  import opened Wrappers
  import opened Embeddings
  import opened Detection

  const InsightFaceLabel: string := "InsightFace (SCRFD)"
  const MediaPipeLabel: string := "MediaPipe"
  const OpenCVLabel: string := "OpenCV Haar Cascade"

  /** An identity key as the callers pass it. */
  type StudentId = int

  /**
   * What the process finds at import time (`INSIGHTFACE_AVAILABLE`, `MEDIAPIPE_AVAILABLE`;
   * `mp` is `None` exactly when MediaPipe is unavailable) and whether each backend's
   * initialisation raises (`FaceAnalysis(...)` with `prepare(...)`, `FaceDetection(...)`).
   */
  datatype Environment = Environment(
    insightfaceAvailable: bool,
    mediapipeAvailable: bool,
    insightfaceInitSucceeds: bool,
    mediapipeInitSucceeds: bool)

  /**
   * The engine's fields: the two strategy flags, `engine_type`, and whether the prepared
   * InsightFace `detector`, the MediaPipe `face_detection` and the `face_cascade` exist.
   */
  datatype EngineState = EngineState(
    useInsightface: bool,
    useMediapipe: bool,
    engineType: string,
    detectorReady: bool,
    faceDetectionReady: bool,
    faceCascadeReady: bool)

  /** How the fields of a constructed engine fit together. */
  ghost predicate Consistent(s: EngineState) {
    && s.engineType in {InsightFaceLabel, MediaPipeLabel, OpenCVLabel}
    && (s.useInsightface <==> s.engineType == InsightFaceLabel)
    && (s.detectorReady <==> s.useInsightface)
    && (s.faceDetectionReady <==> s.engineType == MediaPipeLabel)
    && (s.faceCascadeReady <==> s.engineType == OpenCVLabel)
    && (!s.useInsightface && !s.useMediapipe ==> s.engineType == OpenCVLabel)
  }

  /**
   * The state `__init__` leaves behind. InsightFace is used only when requested, available
   * and initialised without error; otherwise MediaPipe is tried, and the cascade is the last
   * resort. `use_mediapipe` keeps its import-time value even when MediaPipe fails to
   * initialise.
   */
  function Initial(requested: bool, env: Environment): (s: EngineState)
    ensures Consistent(s)
    ensures s.useInsightface <==> requested && env.insightfaceAvailable && env.insightfaceInitSucceeds
    ensures s.useMediapipe == env.mediapipeAvailable
    ensures s.engineType == MediaPipeLabel <==>
      !s.useInsightface && env.mediapipeAvailable && env.mediapipeInitSucceeds
    ensures s.engineType == OpenCVLabel <==>
      !s.useInsightface && !(env.mediapipeAvailable && env.mediapipeInitSucceeds)
  {
    var insight := requested && env.insightfaceAvailable && env.insightfaceInitSucceeds;
    var mediapipe := !insight && env.mediapipeAvailable && env.mediapipeInitSucceeds;
    EngineState(
      insight, env.mediapipeAvailable,
      if insight then InsightFaceLabel else if mediapipe then MediaPipeLabel else OpenCVLabel,
      insight, mediapipe, !insight && !mediapipe)
  }

  /** `detect_faces`: dispatch on the flags, InsightFace first, then MediaPipe, then the cascade. */
  function DetectionsOf(s: EngineState, b: Backends, image: Image): seq<Detection>
  {
    if s.useInsightface then InsightFaceDetections(s.detectorReady, b, image)
    else if s.useMediapipe then MediaPipeDetections(s.faceDetectionReady, b, image)
    else CascadeDetections(s.faceCascadeReady, b, image)
  }

  /**
   * When MediaPipe is available but fails to initialise (and InsightFace is not in use), the
   * engine reports the cascade yet still routes `detect_faces` to MediaPipe, whose missing
   * detector makes every call return no faces.
   */
  lemma MediaPipeFailureDetectsNothing(requested: bool, env: Environment, b: Backends, image: Image)
    requires env.mediapipeAvailable && !env.mediapipeInitSucceeds
    requires !(requested && env.insightfaceAvailable && env.insightfaceInitSucceeds)
    ensures Initial(requested, env).engineType == OpenCVLabel
    ensures Initial(requested, env).useMediapipe
    ensures DetectionsOf(Initial(requested, env), b, image) == []
  {
  }

  /**
   * Landmarks come only from InsightFace: with any other strategy active, no detection
   * carries landmarks, and every record of the cascade strategy has confidence 0.8.
   */
  lemma LandmarksOnlyFromInsightFace(s: EngineState, b: Backends, image: Image)
    requires Consistent(s) && !s.useInsightface
    ensures forall k :: 0 <= k < |DetectionsOf(s, b, image)| ==> DetectionsOf(s, b, image)[k].landmarks == None
    ensures !s.useMediapipe ==>
      forall k :: 0 <= k < |DetectionsOf(s, b, image)| ==> DetectionsOf(s, b, image)[k].confidence == CascadeConfidence
  {
    MediaPipeDetectionsSpec(s.faceDetectionReady, b, image);
    CascadeDetectionsSpec(s.faceCascadeReady, b, image);
  }

  /**
   * The MediaPipe and cascade strategies share the simple embedding: when the resize yields
   * the 128 x 128 canvas with `c` channels, every detection of either strategy has an
   * embedding of `128 * 128 * c` entries, so their embeddings are comparable.
   */
  lemma CanvasStrategiesFixLength(s: EngineState, b: Backends, image: Image, c: nat)
    requires !s.useInsightface
    requires ResizesToCanvas(b, image, c)
    ensures forall k :: 0 <= k < |DetectionsOf(s, b, image)| ==>
      |DetectionsOf(s, b, image)[k].embedding| == 128 * 128 * c
  {
    MediaPipeCanvasEmbeddings(s.faceDetectionReady, b, image, c);
    CascadeCanvasEmbeddings(s.faceCascadeReady, b, image, c);
  }

  /** The descriptor `get_engine_info` returns. */
  datatype EngineInfo = EngineInfo(engine: string, insightfaceAvailable: bool, mediapipeAvailable: bool)

  class FaceRecognitionEngine {
    const env: Environment
    var useInsightface: bool
    var useMediapipe: bool
    var engineType: string
    var detectorReady: bool
    var faceDetectionReady: bool
    var faceCascadeReady: bool

    function State(): EngineState
      reads this
    {
      EngineState(useInsightface, useMediapipe, engineType, detectorReady, faceDetectionReady, faceCascadeReady)
    }

    /** The object invariant: consistent fields that agree with the environment. */
    ghost predicate Valid()
      reads this
    {
      && Consistent(State())
      && useMediapipe == env.mediapipeAvailable
      && (useInsightface ==> env.insightfaceAvailable && env.insightfaceInitSucceeds)
      && (faceDetectionReady ==> env.mediapipeAvailable && env.mediapipeInitSucceeds)
    }

    /** `__init__(use_insightface)`, run in the given environment. */
    constructor (requested: bool, env: Environment)
      ensures this.env == env
      ensures Valid()
      ensures State() == Initial(requested, env)
    {
      this.env := env;
      useInsightface := requested && env.insightfaceAvailable;
      useMediapipe := env.mediapipeAvailable;
      engineType := "";
      detectorReady := false;
      faceDetectionReady := false;
      faceCascadeReady := false;
      new;
      if useInsightface {
        if env.insightfaceInitSucceeds {
          detectorReady := true;
          engineType := InsightFaceLabel;
        } else {
          useInsightface := false;
          InitMediapipe();
        }
      } else if useMediapipe {
        InitMediapipe();
      } else {
        InitOpenCV();
      }
    }

    /** `_init_mediapipe`: set up MediaPipe, or fall back to the cascade when it is missing or raises. */
    method InitMediapipe()
      modifies this
      ensures useInsightface == old(useInsightface) && useMediapipe == old(useMediapipe)
      ensures detectorReady == old(detectorReady)
      ensures if env.mediapipeAvailable && env.mediapipeInitSucceeds then
          engineType == MediaPipeLabel && faceDetectionReady && faceCascadeReady == old(faceCascadeReady)
        else
          engineType == OpenCVLabel && faceCascadeReady && faceDetectionReady == old(faceDetectionReady)
    {
      if !env.mediapipeAvailable {
        InitOpenCV();
        return;
      }
      if env.mediapipeInitSucceeds {
        faceDetectionReady := true;
        engineType := MediaPipeLabel;
      } else {
        InitOpenCV();
      }
    }

    /** `_init_opencv`: load the Haar cascade. */
    method InitOpenCV()
      modifies this
      ensures useInsightface == old(useInsightface) && useMediapipe == old(useMediapipe)
      ensures detectorReady == old(detectorReady) && faceDetectionReady == old(faceDetectionReady)
      ensures faceCascadeReady && engineType == OpenCVLabel
    {
      faceCascadeReady := true;
      engineType := OpenCVLabel;
    }

    /** `detect_faces`: never raises; a failing backend yields no faces. */
    method DetectFaces(b: Backends, image: Image) returns (ds: seq<Detection>)
      ensures ds == DetectionsOf(State(), b, image)
    {
      if useInsightface {
        ds := DetectInsightface(b, image);
      } else if useMediapipe {
        ds := DetectMediapipe(b, image);
      } else {
        ds := DetectOpenCV(b, image);
      }
    }

    /** `_detect_insightface`. */
    method DetectInsightface(b: Backends, image: Image) returns (ds: seq<Detection>)
      ensures ds == InsightFaceDetections(detectorReady, b, image)
    {
      if !detectorReady {
        return [];
      }
      match b.analyse(image) {
        case Raised => ds := [];
        case Ok(faces) =>
          var collected := Collect(faces, f => Ok(InsightRecord(f)));
          ds := OrNoFaces(collected);
      }
    }

    /** `_detect_mediapipe`. */
    method DetectMediapipe(b: Backends, image: Image) returns (ds: seq<Detection>)
      ensures ds == MediaPipeDetections(faceDetectionReady, b, image)
    {
      if !faceDetectionReady {
        return [];
      }
      match b.locate(image) {
        case Raised => ds := [];
        case Ok(faces) =>
          var collected := Collect(faces, (m: MediaPipeFace) => CroppedRecord(b, image, m.box, m.score));
          ds := OrNoFaces(collected);
      }
    }

    /** `_detect_opencv`. */
    method DetectOpenCV(b: Backends, image: Image) returns (ds: seq<Detection>)
      ensures ds == CascadeDetections(faceCascadeReady, b, image)
    {
      if !faceCascadeReady {
        return [];
      }
      match b.cascade(image) {
        case Raised => ds := [];
        case Ok(rects) =>
          var collected := Collect(rects, (r: Rect) => CroppedRecord(b, image, r, CascadeConfidence));
          ds := OrNoFaces(collected);
      }
    }

    /**
     * `get_engine_info`: the active strategy's label and the two availability flags. The
     * label is InsightFace's exactly when InsightFace is in use, so an unavailable or failed
     * InsightFace is never reported.
     */
    function GetEngineInfo(): (info: EngineInfo)
      reads this
      ensures info.insightfaceAvailable == env.insightfaceAvailable
      ensures info.mediapipeAvailable == env.mediapipeAvailable
      ensures Valid() ==> info.engine in {InsightFaceLabel, MediaPipeLabel, OpenCVLabel}
      ensures Valid() ==> (info.engine == InsightFaceLabel <==> useInsightface)
      ensures Valid() && !(env.insightfaceAvailable && env.insightfaceInitSucceeds) ==>
        info.engine in {MediaPipeLabel, OpenCVLabel}
    {
      EngineInfo(engineType, env.insightfaceAvailable, env.mediapipeAvailable)
    }
  }

  /**
   * The directory of `<student_id>_encoding.pkl` files behind `save_face_encoding` and
   * `load_face_encoding`, modelled as a map from identity to embedding.
   */
  class EncodingStore {
    var encodings: map<StudentId, Embedding>

    constructor ()
      ensures encodings == map[]
    {
      encodings := map[];
    }

    /** `save_face_encoding`: the file for `studentId` is overwritten unconditionally. */
    method Save(studentId: StudentId, embedding: Embedding)
      modifies this
      ensures encodings == old(encodings)[studentId := embedding]
    {
      encodings := encodings[studentId := embedding];
    }

    /** `load_face_encoding`: the stored embedding, or `None` when no file exists. */
    method Load(studentId: StudentId) returns (r: Option<Embedding>)
      ensures r.Some? <==> studentId in encodings
      ensures r.Some? ==> r.value == encodings[studentId]
    {
      if studentId in encodings {
        r := Some(encodings[studentId]);
      } else {
        r := None;
      }
    }
  }
}
