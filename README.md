# Face matching and fallback answers of the attendance tracker

This project models, in Dafny, the face-matching decision layer of a campus attendance
tracker, together with the rule-based answer selection of its AI assistant.

- **Strategy selection** (`FaceEngine`). The engine picks InsightFace (SCRFD) when it is
  requested, importable and initialises without error. Otherwise it tries MediaPipe, and
  the OpenCV Haar cascade is the last resort.
  - The class `FaceEngine.FaceRecognitionEngine` keeps the source's fields (`use_insightface`,
    `use_mediapipe`, `engine_type` and which backend objects exist), and its constructor sets
    them step by step as `__init__`, `_init_mediapipe` and `_init_opencv` do.
  - The pure function `FaceEngine.Initial` is the constructor's specification.
  - `detect_faces` dispatches on the flags. The source quirk is kept: a MediaPipe that is
    importable but fails to initialise leaves `use_mediapipe` set, so the engine reports the
    cascade yet always detects nothing.
- **Detection wrappers** (`Detection`).
  - The InsightFace, MediaPipe and cv2 backends are function parameters that either return
    raw faces or raise; so is `cv2.resize` of a crop.
  - Each wrapper's append loop is a method (`Detection.Collect`) proved against a recursive
    specification. An exception anywhere turns into no faces.
- **Simple embedding** (`Embeddings`). The resized canvas is scaled channel by channel
  (divided by 255) and flattened row-major.
- **Comparator** (`Comparator`). The cosine similarity of the two vectors normalised by
  `norm + 1e-8`. It stands on reals and on a norm given as a parameter, so its bounds hold
  for any norm that behaves as the Euclidean one.
- **Identification scan** (`Matching`). For every face, all candidates are scanned with a
  running best that starts at 0 and moves only on a strictly larger score. A face is kept
  when its best reaches the threshold. `Matching.MatchFaceToStudents` keeps the nested
  loops and is proved equal to the recursive specification `Matching.MatchAll`, whose
  properties are lemmas.
- **Fallback answers** (`AiIntegration`).
  - `_get_fallback_response` picks one of five canned answers by the first keyword found in
    the lower-cased prompt.
  - The four prompt builders fill fixed templates.
  - `generate_response` uses the model's reply only on status 200 with a non-empty `choices`.

Comparing two present embeddings of different lengths is not caught: `np.dot` raises
(face_recognition_module.py:176), and `match_face_to_students` does not catch it either.
The model follows the code: `Comparator.CompareFaces` returns `Raised` for
mismatched lengths, and the exception propagates out of `Matching.MatchFaceToStudents`.

## Model

| member | source | states |
|---|---|---|
| `Embeddings.SimpleEmbeddingLength` | face_recognition_module.py:161-163 | an `h` x `w` x `c` raster flattens to `h * (w * c)` entries |
| `Embeddings.SimpleEmbeddingLayout` | face_recognition_module.py:161-163 | the flattened vector has `h*w*c` entries, and entry `(i*w+j)*c+k` is channel `k` of pixel `(i, j)` divided by 255 |
| `Embeddings.SimpleEmbeddingInUnitRange` | face_recognition_module.py:161-163 | every entry of the simple embedding lies in [0, 1] |
| `Embeddings.CanvasEmbedding` | face_recognition_module.py:156-164 | on the 128 x 128 canvas with `c` channels: length `128*128*c`, row-major layout, entries in [0, 1] |
| `Comparator.CompareFaces` | face_recognition_module.py:166-177 | 0.0 when either embedding is absent; raises exactly when both are present with different lengths; otherwise `dot(a,b) / ((norm(a)+1e-8) * (norm(b)+1e-8))` |
| `Comparator.DotScaled` | face_recognition_module.py:172-176 | the dot product of the two normalised vectors is the raw dot product divided by the product of the two denominators |
| `Comparator.DotSymmetric` | face_recognition_module.py:176 | the dot product does not depend on argument order |
| `Comparator.CompareSymmetric` | face_recognition_module.py:166-177 | `compare_faces(a, b) == compare_faces(b, a)` in every case, absent and mismatched included |
| `Comparator.CompareIgnoresThreshold` | face_recognition_module.py:166-177 | the `threshold` argument has no effect on the result |
| `Comparator.NormalizedSquareBelowOne` | face_recognition_module.py:172-173 | under a Euclidean norm, a normalised vector has squared length in [0, 1) |
| `Comparator.CompareBounded` | face_recognition_module.py:172-177 | under a Euclidean norm, the similarity of equal-length vectors lies strictly between -1 and 1 |
| `Comparator.CompareSelf` | face_recognition_module.py:172-177 | a vector compared with itself scores `n^2/(n+1e-8)^2`, in [0, 1), and at least `1 - 2e-8/n` when its norm `n` is positive |
| `Comparator.CompareZero` | face_recognition_module.py:172-177 | an all-zero embedding scores exactly 0.0 against any embedding of the same length |
| `Detection.TruncateToInt` | face_recognition_module.py:90 | `astype(int)` truncates toward zero: the result is within 1 of the input, on the input's side of 0 |
| `Detection.CollectAllSpec` | face_recognition_module.py:88-99 | a wrapper's loop yields a list exactly when every conversion succeeds, and then one record per raw face, in order |
| `Detection.Collect` | face_recognition_module.py:88-99 | the append loop computes the same outcome as the recursive specification |
| `Detection.InsightFaceDetectionsSpec` | face_recognition_module.py:84-102 | no faces when the detector is missing or raises; otherwise one record per face, in order, with the truncated box and the face's embedding, score and landmarks |
| `Detection.MediaPipeDetectionsSpec` | face_recognition_module.py:104-132 | no faces when the detector is missing, raises, or a crop fails; otherwise one record per face with box `[x, y, x+w, y+h]`, the crop's simple embedding and the score; landmarks never set |
| `Detection.CascadeDetectionsSpec` | face_recognition_module.py:134-154 | exactly one record per cascade rectangle, in order, with box `[x, y, x+w, y+h]`, the crop's simple embedding, confidence 0.8 and no landmarks; no faces on any exception |
| `Detection.CroppedEmbeddingLength` | face_recognition_module.py:159-163 | when the resize yields the 128 x 128 canvas, a record built from a crop has an embedding of `128*128*c` entries |
| `Detection.MediaPipeCanvasEmbeddings` | face_recognition_module.py:119-128 | when the resize yields the 128 x 128 canvas, every MediaPipe detection's embedding has `128*128*c` entries |
| `Detection.CascadeCanvasEmbeddings` | face_recognition_module.py:141-150 | when the resize yields the 128 x 128 canvas, every cascade detection's embedding has `128*128*c` entries |
| `FaceEngine.CanvasStrategiesFixLength` | face_recognition_module.py:77-82 | without InsightFace, every detection `detect_faces` returns has an embedding of the same length `128*128*c` |
| `FaceEngine.Initial` | face_recognition_module.py:30-73 | InsightFace is used iff requested, available and initialised; `use_mediapipe` is the import-time flag; the MediaPipe label iff InsightFace is unused and MediaPipe is available and initialised; the cascade label otherwise; the fields are consistent |
| `FaceEngine.MediaPipeFailureDetectsNothing` | face_recognition_module.py:32-82 | a MediaPipe that fails to initialise leaves `use_mediapipe` set and the cascade label, and `detect_faces` then returns no faces |
| `FaceEngine.LandmarksOnlyFromInsightFace` | face_recognition_module.py:104-154 | without InsightFace no detection carries landmarks, and the cascade's detections all have confidence 0.8 |
| `FaceEngine.FaceRecognitionEngine.constructor` | face_recognition_module.py:30-50 | the fields `__init__` leaves are those of `Initial`, and the object invariant holds |
| `FaceEngine.FaceRecognitionEngine.InitMediapipe` | face_recognition_module.py:52-67 | sets the MediaPipe detector and label when MediaPipe is available and initialises; otherwise falls back to the cascade; the flags are left alone |
| `FaceEngine.FaceRecognitionEngine.InitOpenCV` | face_recognition_module.py:69-73 | loads the cascade and sets its label, nothing else |
| `FaceEngine.FaceRecognitionEngine.DetectFaces` | face_recognition_module.py:75-82 | returns the detections of the strategy the flags select, InsightFace first, then MediaPipe, then the cascade |
| `FaceEngine.FaceRecognitionEngine.DetectInsightface` | face_recognition_module.py:84-102 | returns the InsightFace strategy's detections |
| `FaceEngine.FaceRecognitionEngine.DetectMediapipe` | face_recognition_module.py:104-132 | returns the MediaPipe strategy's detections |
| `FaceEngine.FaceRecognitionEngine.DetectOpenCV` | face_recognition_module.py:134-154 | returns the cascade strategy's detections |
| `FaceEngine.FaceRecognitionEngine.GetEngineInfo` | face_recognition_module.py:194-200 | reports the import-time availability flags and the active label, which is InsightFace's exactly when InsightFace is in use, and never InsightFace's when it is unavailable or failed |
| `FaceEngine.EncodingStore.Save` | face_recognition_module.py:179-184 | the stored encoding for the identity is replaced unconditionally, others unchanged |
| `FaceEngine.EncodingStore.Load` | face_recognition_module.py:186-192 | the stored encoding when one exists, otherwise absent |
| `Matching.ScanRaises` | face_recognition_module.py:238-243 | a face's scan raises exactly when some candidate's similarity raises |
| `Matching.ScanMaximum` | face_recognition_module.py:235-243 | the best score is at least 0 and at least every candidate's similarity; no student iff no candidate scores above 0, and then the score is 0 |
| `Matching.ScanFirstWinner` | face_recognition_module.py:238-242 | a reported student is the first candidate attaining the best score; every earlier candidate scores strictly less |
| `Matching.MatchAllRaises` | face_recognition_module.py:232-250 | matching raises exactly when some face's scan raises |
| `Matching.MatchAllKept` | face_recognition_module.py:232-250 | the kept faces are exactly the detections whose best score reaches the threshold, in detection order, each with its scan's student and score and the detection's box and confidence |
| `Matching.MatchAllBounds` | face_recognition_module.py:229-250 | no detections give no matches; at most one match per detection; every match's similarity reaches the threshold |
| `Matching.NonPositiveThresholdKeepsEveryFace` | face_recognition_module.py:236-244 | with a threshold of 0 or less every detection is reported |
| `Matching.EngineScanRaises` | face_recognition_module.py:239 | with `compare_faces` as the similarity, a scan raises exactly when a stored encoding's length differs from the face's |
| `Matching.EngineScanBelowOne` | face_recognition_module.py:235-246 | with `compare_faces` over a Euclidean norm and matching lengths, the best score lies in [0, 1) |
| `Matching.EngineMatchesBounded` | face_recognition_module.py:224-252 | with `compare_faces` over a Euclidean norm and matching lengths, matching never raises and every reported similarity lies in [threshold, 1) |
| `Matching.CanvasMatchingBounded` | face_recognition_module.py:224-252 | under the MediaPipe or cascade strategy, with stored encodings of the canvas length, matching the engine's detections never raises and every reported similarity lies in [threshold, 1) |
| `Matching.MatchFaceToStudents` | face_recognition_module.py:224-252 | the nested loops over detections and candidates compute exactly `MatchAll` of the engine's detections, exception included |
| `AiIntegration.ContainsOccurs` | ai_integration.py:76 | the substring scan finds `sub` exactly when it occurs at some position |
| `AiIntegration.LowerIdempotent` | ai_integration.py:74 | lower-casing twice is lower-casing once |
| `AiIntegration.FallbackResponse` | ai_integration.py:71-85 | the answer is always one of the five canned messages |
| `AiIntegration.FirstKeywordSpec` | ai_integration.py:76-85 | the reference search finds the first keyword that occurs, or reports that none occurs |
| `AiIntegration.FallbackByPriority` | ai_integration.py:74-85 | the answer is that of the first of "attendance", "face recognition", "course", "student" found in the lower-cased prompt, else the default help message |
| `AiIntegration.AnswersDistinct` | ai_integration.py:77-85 | the five canned answers are pairwise different |
| `AiIntegration.FallbackCases` | ai_integration.py:76-85 | each answer as an if-and-only-if: attendance wins over all; face recognition only without attendance; course before student; the default exactly when no keyword occurs |
| `AiIntegration.FallbackIgnoresCase` | ai_integration.py:74 | a prompt and its lower-cased form get the same answer |
| `AiIntegration.GenerateResponse` | ai_integration.py:60-69 | the first choice's content exactly when the status is 200 and a first choice with content exists; the fallback for the prompt in every other case, a raised exception included |
| `AiIntegration.AttendancePatternFallback` | ai_integration.py:89-97 | the attendance-pattern prompt's fallback is the attendance message, whatever the data |
| `AiIntegration.AttendanceReportFallback` | ai_integration.py:103-110 | the attendance-report prompt's fallback is the attendance message, whatever the data |
| `AiIntegration.StudentRecommendationsFallback` | ai_integration.py:116-123 | the student prompt's fallback is the attendance message, whatever the student's name |
| `AiIntegration.CourseSummaryFallback` | ai_integration.py:129-137 | the course prompt's fallback is the attendance, face-recognition or course message, never the student or default one |
| `AiIntegration.AnalyzeAttendancePattern` | ai_integration.py:87-99 | when the call delivers no answer, the result is the attendance message |
| `AiIntegration.GenerateAttendanceReport` | ai_integration.py:101-112 | when the call delivers no answer, the result is the attendance message |
| `AiIntegration.GetStudentRecommendations` | ai_integration.py:114-125 | when the call delivers no answer, the result is the attendance message |
| `AiIntegration.GenerateCourseSummary` | ai_integration.py:127-139 | when the call delivers no answer, the result is the attendance, face-recognition or course message |

## Left out

- The InsightFace, MediaPipe and cv2 calls, including `cvtColor`, `detectMultiScale`, `cv2.resize` of a crop and `numpy.linalg.norm`, are foreign code. They are parameters of the model: detection backends return raw faces or raise, and the norm is any function with non-negative results.
- MediaPipe's conversion of relative box coordinates to pixels (`int(bbox.xmin * w)` and the like) and the numpy slicing of the crop are left out. The MediaPipe backend parameter yields pixel rectangles directly.
- numpy's errors on malformed images (a shape that does not unpack into three dimensions, for instance) are not modelled apart from a backend that raises.
- Floating point (`float32` scaling, `float64` dot products, `:.1f` formatting) is modelled with reals. A rate's one-decimal rendering is the parameter `AiIntegration.Fixed1`.
- `Comparator.CompareBounded`: holds only when the norm parameter behaves as the Euclidean norm on the inputs, because the norm is a parameter rather than computed.
- `save_face_encoding` and `load_face_encoding` are modelled as a map from identity to embedding. Pickling, the file path that `save_face_encoding` returns, and file-system failures are left out.
- The lazily created singletons `_face_engine` and `_ai_assistant`, `get_face_engine`, `detect_and_encode_face` and `generate_ai_insight` are left out. `Matching.MatchFaceToStudents` takes the engine as an argument.
- The HTTP request, the headers, the api key, `max_tokens`, the sampling parameters and the printed error messages of `generate_response` are left out. The model receives the call's outcome as a `Reply` value.
- The crop-and-resize parameter of `Detection.Backends` may return any raster. The lemmas that give the simple embedding's length 128·128·c take `Detection.ResizesToCanvas` as a hypothesis: every crop that resizes without raising is a 128 x 128 raster.
- Reply contents in `AiIntegration.Reply` are strings. A first choice whose `message.content` is JSON `null` or not a string is returned as is by the code (`None` or another value), with no fallback. The model does not express this case.
- `str.lower()` is modelled on ASCII letters only. Other Unicode case mappings are not modelled.
- The dictionaries handed to the prompt builders are modelled as records with typed optional fields. A present value of the wrong type, which would make the f-string raise or print differently, is not modelled.
- The Streamlit application (app.py), including its `confidence >= 0.6` verification check, is not part of this model. Neither are database.py, utils.py, config.py, setup.py and cv2_wrapper.py.
