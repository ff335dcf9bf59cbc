/**
 * The AI assistant's answer selection: `generate_response` returns the model's first
 * choice when the chat-completion call answers with status 200 and at least one choice,
 * and otherwise the rule-based fallback, a case-insensitive keyword chain with a fixed
 * priority. The four prompt builders fill fixed templates; three of them mention
 * attendance, so their fallback answer is always the attendance message.
 */
module AiIntegration {
  import opened Wrappers

  // ---------------------------------------------------------------- strings

  /** Python's `str.lower()` restricted to ASCII: 'A'..'Z' become 'a'..'z', the rest stays. */
  function LowerChar(ch: char): char {
    if 'A' <= ch <= 'Z' then (ch as int + 32) as char else ch
  }

  function Lower(s: string): (r: string)
    ensures |r| == |s|
  {
    seq(|s|, i requires 0 <= i < |s| => LowerChar(s[i]))
  }

  /** Python's `sub in s`, scanning start positions from the left. */
  function Contains(s: string, sub: string): bool
    decreases |s|
  {
    if |sub| > |s| then false
    else if s[..|sub|] == sub then true
    else Contains(s[1..], sub)
  }

  /** `sub` occurs in `s` starting at position `i`. */
  ghost predicate OccursAt(s: string, sub: string, i: nat) {
    i + |sub| <= |s| && s[i..i + |sub|] == sub
  }

  /** The scan finds `sub` exactly when it occurs at some position. */
  lemma {:induction false} ContainsOccurs(s: string, sub: string)
    ensures Contains(s, sub) <==> exists i: nat :: OccursAt(s, sub, i)
    decreases |s|
  {
    if |sub| > |s| {
    } else if s[..|sub|] == sub {
      assert OccursAt(s, sub, 0);
    } else {
      ContainsOccurs(s[1..], sub);
      if exists i: nat :: OccursAt(s, sub, i) {
        var i: nat :| OccursAt(s, sub, i);
        assert i != 0;
        assert s[1..][i - 1..i - 1 + |sub|] == s[i..i + |sub|];
        assert OccursAt(s[1..], sub, i - 1);
      }
      if exists i: nat :: OccursAt(s[1..], sub, i) {
        var i: nat :| OccursAt(s[1..], sub, i);
        assert s[1..][i..i + |sub|] == s[i + 1..i + 1 + |sub|];
        assert OccursAt(s, sub, i + 1);
      }
    }
  }

  /** A string that occurs in the middle of a concatenation is found in it. */
  lemma ContainsMiddle(a: string, k: string, b: string)
    ensures Contains(a + k + b, k)
  {
    assert (a + k + b)[|a|..|a| + |k|] == k;
    assert OccursAt(a + k + b, k, |a|);
    ContainsOccurs(a + k + b, k);
  }

  /** Lower-casing works character by character, so it distributes over concatenation. */
  lemma LowerConcat(a: string, b: string)
    ensures Lower(a + b) == Lower(a) + Lower(b)
  {
  }

  /** Lower-casing twice is lower-casing once. */
  lemma LowerIdempotent(s: string)
    ensures Lower(Lower(s)) == Lower(s)
  {
    forall i | 0 <= i < |s| ensures Lower(Lower(s))[i] == Lower(s)[i] {
      assert Lower(s)[i] == LowerChar(s[i]);
    }
  }

  // ---------------------------------------------------------------- the fallback responder

  const AttendanceMessage: string := "Attendance tracking is essential for academic success. Regular attendance helps students stay engaged with course material and improves learning outcomes."
  const FaceRecognitionMessage: string := "Face recognition technology uses advanced AI to identify individuals based on facial features. It's secure, fast, and improves attendance accuracy."
  const CourseMessage: string := "Courses are structured learning programs designed to teach specific subjects. Each course has instructors, sections, and enrolled students."
  const StudentMessage: string := "Students are individuals enrolled in courses. They attend classes, participate in activities, and are tracked for attendance."
  const DefaultMessage: string := "I'm here to help with your attendance and course management questions. Please ask about attendance, courses, students, or instructors."

  /** `_get_fallback_response(prompt)`: the canned answer for the first keyword found. */
  function FallbackResponse(prompt: string): (r: string)
    ensures r in {AttendanceMessage, FaceRecognitionMessage, CourseMessage, StudentMessage, DefaultMessage}
  {
    var lower := Lower(prompt);
    if Contains(lower, "attendance") then AttendanceMessage
    else if Contains(lower, "face recognition") then FaceRecognitionMessage
    else if Contains(lower, "course") then CourseMessage
    else if Contains(lower, "student") then StudentMessage
    else DefaultMessage
  }

  /** The keywords in the order they are tried, and the answer each one selects. */
  const Keywords: seq<string> := ["attendance", "face recognition", "course", "student"]
  const Answers: seq<string> := [AttendanceMessage, FaceRecognitionMessage, CourseMessage, StudentMessage]

  /** The position of the first keyword, from position `k` on, that occurs in `s`. */
  function FirstKeyword(s: string, k: nat): (r: Option<nat>)
    decreases |Keywords| - k
  {
    if k >= |Keywords| then None
    else if Contains(s, Keywords[k]) then Some(k)
    else FirstKeyword(s, k + 1)
  }

  /** `FirstKeyword` finds the first occurring keyword at or after `k`, or reports that none occurs. */
  lemma {:induction false} FirstKeywordSpec(s: string, k: nat)
    ensures FirstKeyword(s, k).Some? ==>
      && k <= FirstKeyword(s, k).value < |Keywords|
      && Contains(s, Keywords[FirstKeyword(s, k).value])
      && forall j :: k <= j < FirstKeyword(s, k).value ==> !Contains(s, Keywords[j])
    ensures FirstKeyword(s, k).None? <==> forall j :: k <= j < |Keywords| ==> !Contains(s, Keywords[j])
    decreases |Keywords| - k
  {
    if k < |Keywords| && !Contains(s, Keywords[k]) {
      FirstKeywordSpec(s, k + 1);
    }
  }

  /**
   * The fallback is a priority list: the answer of the first keyword (in the order
   * attendance, face recognition, course, student) found in the lower-cased prompt, and
   * the default help message when none is found.
   */
  lemma FallbackByPriority(prompt: string)
    ensures FallbackResponse(prompt) ==
      match FirstKeyword(Lower(prompt), 0)
      case Some(k) => Answers[k]
      case None => DefaultMessage
  {
    var s := Lower(prompt);
    assert Keywords[0] == "attendance" && Keywords[1] == "face recognition";
    assert Keywords[2] == "course" && Keywords[3] == "student";
    assert FirstKeyword(s, 4) == None;
    if Contains(s, "attendance") {
      assert FirstKeyword(s, 0) == Some(0);
    } else if Contains(s, "face recognition") {
      assert FirstKeyword(s, 0) == Some(1);
    } else if Contains(s, "course") {
      assert FirstKeyword(s, 0) == Some(2);
    } else if Contains(s, "student") {
      assert FirstKeyword(s, 0) == Some(3);
    } else {
      assert FirstKeyword(s, 3) == None;
      assert FirstKeyword(s, 0) == None;
    }
  }

  /** The five answers are pairwise different, so each can be told apart from the others. */
  lemma AnswersDistinct()
    ensures forall i, j :: 0 <= i < j < |Answers| ==> Answers[i] != Answers[j]
    ensures forall i :: 0 <= i < |Answers| ==> Answers[i] != DefaultMessage
  {
    assert |AttendanceMessage| == 154 && |FaceRecognitionMessage| == 147 && |CourseMessage| == 139;
    assert |StudentMessage| == 125 && |DefaultMessage| == 134;
  }

  /**
   * Which answer the fallback gives, each as an if-and-only-if: "attendance" wins over
   * every other keyword, "face recognition" counts only without "attendance", "course"
   * is checked before "student", and the default message means no keyword occurs.
   */
  lemma FallbackCases(prompt: string)
    ensures Contains(Lower(prompt), "attendance") <==> FallbackResponse(prompt) == AttendanceMessage
    ensures (!Contains(Lower(prompt), "attendance") && Contains(Lower(prompt), "face recognition"))
      <==> FallbackResponse(prompt) == FaceRecognitionMessage
    ensures (!Contains(Lower(prompt), "attendance") && !Contains(Lower(prompt), "face recognition")
             && Contains(Lower(prompt), "course"))
      <==> FallbackResponse(prompt) == CourseMessage
    ensures (!Contains(Lower(prompt), "attendance") && !Contains(Lower(prompt), "face recognition")
             && !Contains(Lower(prompt), "course") && Contains(Lower(prompt), "student"))
      <==> FallbackResponse(prompt) == StudentMessage
    ensures (!Contains(Lower(prompt), "attendance") && !Contains(Lower(prompt), "face recognition")
             && !Contains(Lower(prompt), "course") && !Contains(Lower(prompt), "student"))
      <==> FallbackResponse(prompt) == DefaultMessage
  {
    AnswersDistinct();
    assert Answers[0] == AttendanceMessage && Answers[1] == FaceRecognitionMessage;
    assert Answers[2] == CourseMessage && Answers[3] == StudentMessage;
  }

  /** Matching ignores ASCII case: a prompt and its lower-cased form get the same answer. */
  lemma FallbackIgnoresCase(prompt: string)
    ensures FallbackResponse(prompt) == FallbackResponse(Lower(prompt))
  {
    LowerIdempotent(prompt);
  }

  // ---------------------------------------------------------------- generate_response

  /**
   * What the chat-completion call came back with: `Failed` when the request, the timeout
   * or the JSON decoding raised; otherwise the status code and, when the body has a
   * `choices` list, the content of each choice (`None` where a choice has no
   * `message.content`, which raises a caught `KeyError`).
   */
  datatype Reply = Failed | Answered(status: int, choices: Option<seq<Option<string>>>)

  /** The call produced a usable answer: status 200 and a first choice with content. */
  predicate Delivers(reply: Reply) {
    && reply.Answered? && reply.status == 200
    && reply.choices.Some? && |reply.choices.value| > 0 && reply.choices.value[0].Some?
  }

  /** `generate_response(prompt)` once the HTTP call has produced `reply`. */
  function GenerateResponse(prompt: string, reply: Reply): (r: string)
    ensures Delivers(reply) ==> r == reply.choices.value[0].value
    ensures !Delivers(reply) ==> r == FallbackResponse(prompt)
  {
    match reply
    case Failed => FallbackResponse(prompt)
    case Answered(status, choices) =>
      if status == 200 && choices.Some? && |choices.value| > 0 then
        match choices.value[0]
        case Some(content) => content
        case None => FallbackResponse(prompt)
      else FallbackResponse(prompt)
  }

  // ---------------------------------------------------------------- prompt builders

  /** Python's `str(n)` for an integer. */
  function IntText(n: int): string {
    if n < 0 then "-" + NatText(-n) else NatText(n)
  }

  function NatText(n: nat): (r: string)
    ensures |r| > 0
  {
    if n < 10 then [DigitChar(n)] else NatText(n / 10) + [DigitChar(n % 10)]
  }

  function DigitChar(d: nat): char
    requires d < 10
  {
    ('0' as int + d) as char
  }

  /** `dict.get(key, default)`. */
  function GetOr<T>(v: Option<T>, default: T): T {
    if v.Some? then v.value else default
  }

  /**
   * `f"{x:.1f}"`, the one-decimal rendering of a float; a parameter of every builder
   * that shows a rate.
   */
  type Fixed1 = real -> string

  /** The keys `analyze_attendance_pattern` reads. */
  datatype AttendanceData = AttendanceData(totalClasses: Option<int>, presentCount: Option<int>, attendanceRate: Option<real>)

  /** The keys `generate_attendance_report` reads. */
  datatype SectionData = SectionData(sectionName: Option<string>, courseName: Option<string>,
                                     totalStudents: Option<int>, avgAttendance: Option<real>)

  /** The keys `get_student_recommendations` reads. */
  datatype StudentData = StudentData(name: Option<string>, attendanceRate: Option<real>,
                                     courseCount: Option<int>, recentAbsences: Option<int>)

  /** The keys `generate_course_summary` reads. */
  datatype CourseData = CourseData(courseCode: Option<string>, courseName: Option<string>,
                                   instructorName: Option<string>, credits: Option<int>, sectionCount: Option<int>)

  /** The blank second line every template carries: eight spaces of source indentation. */
  const Indent: string := "        "

  /**
   * Each template is written as the text before a keyword it always holds, the keyword,
   * and the rest; the concatenation is character for character the f-string.
   */
  function AttendancePatternPrompt(data: AttendanceData, fixed1: Fixed1): string {
    "Analyze the following " + "attendance" + AttendancePatternRest(data, fixed1)
  }

  function AttendancePatternRest(data: AttendanceData, fixed1: Fixed1): string {
    var total := GetOr(data.totalClasses, 0);
    var present := GetOr(data.presentCount, 0);
    " data and provide insights:\n" + Indent + "\n"
    + "Attendance Data:\n"
    + "- Total Classes: " + IntText(total) + "\n"
    + "- Present: " + IntText(present) + "\n"
    + "- Absent: " + IntText(total - present) + "\n"
    + "- Attendance Rate: " + fixed1(GetOr(data.attendanceRate, 0.0)) + "%\n"
    + "\nProvide a brief analysis with recommendations."
  }

  function AttendanceReportPrompt(data: SectionData, fixed1: Fixed1): string {
    "Generate a brief " + "attendance" + AttendanceReportRest(data, fixed1)
  }

  function AttendanceReportRest(data: SectionData, fixed1: Fixed1): string {
    " report summary for:\n" + Indent + "\n"
    + "Section: " + GetOr(data.sectionName, "Unknown") + "\n"
    + "Course: " + GetOr(data.courseName, "Unknown") + "\n"
    + "Total Students: " + IntText(GetOr(data.totalStudents, 0)) + "\n"
    + "Average Attendance: " + fixed1(GetOr(data.avgAttendance, 0.0)) + "%\n"
    + "\nProvide actionable insights."
  }

  function StudentRecommendationsPrompt(data: StudentData, fixed1: Fixed1): string {
    StudentRecommendationsHead(data) + "Attendance" + StudentRecommendationsRest(data, fixed1)
  }

  function StudentRecommendationsHead(data: StudentData): string {
    "Based on the following student data, provide personalized recommendations:\n" + Indent + "\n"
    + "Student: " + GetOr(data.name, "Unknown") + "\n"
  }

  function StudentRecommendationsRest(data: StudentData, fixed1: Fixed1): string {
    " Rate: " + fixed1(GetOr(data.attendanceRate, 0.0)) + "%\n"
    + "Enrolled Courses: " + IntText(GetOr(data.courseCount, 0)) + "\n"
    + "Recent Absences: " + IntText(GetOr(data.recentAbsences, 0)) + "\n"
    + "\nProvide 2-3 specific recommendations."
  }

  function CourseSummaryPrompt(data: CourseData): string {
    "Create a brief summary for the following " + "course" + CourseSummaryRest(data)
  }

  function CourseSummaryRest(data: CourseData): string {
    ":\n" + Indent + "\n"
    + "Course Code: " + GetOr(data.courseCode, "Unknown") + "\n"
    + "Course Name: " + GetOr(data.courseName, "Unknown") + "\n"
    + "Instructor: " + GetOr(data.instructorName, "Unknown") + "\n"
    + "Credits: " + IntText(GetOr(data.credits, 3)) + "\n"
    + "Sections: " + IntText(GetOr(data.sectionCount, 1)) + "\n"
    + "\nProvide a concise overview."
  }

  /** `analyze_attendance_pattern(data)`, given the chat-completion reply. */
  function AnalyzeAttendancePattern(data: AttendanceData, fixed1: Fixed1, reply: Reply): (r: string)
    ensures !Delivers(reply) ==> r == AttendanceMessage
  {
    AttendancePatternFallback(data, fixed1);
    GenerateResponse(AttendancePatternPrompt(data, fixed1), reply)
  }

  /** `generate_attendance_report(data)`, given the chat-completion reply. */
  function GenerateAttendanceReport(data: SectionData, fixed1: Fixed1, reply: Reply): (r: string)
    ensures !Delivers(reply) ==> r == AttendanceMessage
  {
    AttendanceReportFallback(data, fixed1);
    GenerateResponse(AttendanceReportPrompt(data, fixed1), reply)
  }

  /** `get_student_recommendations(data)`, given the chat-completion reply. */
  function GetStudentRecommendations(data: StudentData, fixed1: Fixed1, reply: Reply): (r: string)
    ensures !Delivers(reply) ==> r == AttendanceMessage
  {
    StudentRecommendationsFallback(data, fixed1);
    GenerateResponse(StudentRecommendationsPrompt(data, fixed1), reply)
  }

  /** `generate_course_summary(data)`, given the chat-completion reply. */
  function GenerateCourseSummary(data: CourseData, reply: Reply): (r: string)
    ensures !Delivers(reply) ==> r in {AttendanceMessage, FaceRecognitionMessage, CourseMessage}
  {
    CourseSummaryFallback(data);
    GenerateResponse(CourseSummaryPrompt(data), reply)
  }

  /** A text holding `w` between `a` and `b` holds `k` once lower-cased, when `w` lower-cases to `k`. */
  lemma MentionedAfterLowering(a: string, w: string, b: string, k: string)
    requires Lower(w) == k
    ensures Contains(Lower(a + w + b), k)
  {
    LowerConcat(a + w, b);
    LowerConcat(a, w);
    ContainsMiddle(Lower(a), k, Lower(b));
  }

  /** The attendance-pattern template mentions attendance whatever the data. */
  lemma AttendancePatternFallback(data: AttendanceData, fixed1: Fixed1)
    ensures FallbackResponse(AttendancePatternPrompt(data, fixed1)) == AttendanceMessage
  {
    assert Lower("attendance") == "attendance";
    MentionedAfterLowering("Analyze the following ", "attendance", AttendancePatternRest(data, fixed1), "attendance");
  }

  /** The attendance-report template mentions attendance whatever the data. */
  lemma AttendanceReportFallback(data: SectionData, fixed1: Fixed1)
    ensures FallbackResponse(AttendanceReportPrompt(data, fixed1)) == AttendanceMessage
  {
    assert Lower("attendance") == "attendance";
    MentionedAfterLowering("Generate a brief ", "attendance", AttendanceReportRest(data, fixed1), "attendance");
  }

  /**
   * The student template mentions "Attendance Rate" after the student's name, so its
   * fallback is the attendance message whatever the name is.
   */
  lemma StudentRecommendationsFallback(data: StudentData, fixed1: Fixed1)
    ensures FallbackResponse(StudentRecommendationsPrompt(data, fixed1)) == AttendanceMessage
  {
    assert Lower("Attendance") == "attendance";
    MentionedAfterLowering(StudentRecommendationsHead(data), "Attendance", StudentRecommendationsRest(data, fixed1), "attendance");
  }

  /**
   * The course template mentions "course", so its fallback is never the student or the
   * default message; a code, name or instructor that mentions attendance or face
   * recognition can still win.
   */
  lemma CourseSummaryFallback(data: CourseData)
    ensures FallbackResponse(CourseSummaryPrompt(data)) in {AttendanceMessage, FaceRecognitionMessage, CourseMessage}
  {
    assert Lower("course") == "course";
    MentionedAfterLowering("Create a brief summary for the following ", "course", CourseSummaryRest(data), "course");
  }
}
