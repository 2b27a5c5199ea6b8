/** Countdown arithmetic, code minting and record construction
    (src/utils/attendanceUtils.js). The clock, `Math.random` and `uuidv4`
    are parameters. */
module AttendanceUtils {
  import opened JsValues

  const MsPerMinute := 60000
  const MsPerSecond := 1000

  /** What `calculateTimeRemaining` returns. */
  datatype TimeRemaining = TimeRemaining(minutes: int, seconds: int, expired: bool)

  /** `calculateTimeRemaining`, given `diffMs = expiry - now` in whole milliseconds.
      `Math.floor` of a positive quotient is integer division. */
  function CalculateTimeRemaining(diffMs: int): (t: TimeRemaining)
    ensures t.expired <==> diffMs <= 0
    ensures diffMs <= 0 ==> t == TimeRemaining(0, 0, true)
    ensures !t.expired ==> 0 <= t.minutes && 0 <= t.seconds <= 59
    ensures !t.expired ==>
      t.minutes * MsPerMinute + t.seconds * MsPerSecond <= diffMs
      < t.minutes * MsPerMinute + (t.seconds + 1) * MsPerSecond
  {
    if diffMs <= 0 then TimeRemaining(0, 0, true)
    else
      var minutes := diffMs / MsPerMinute;
      var seconds := (diffMs % MsPerMinute) / MsPerSecond;
      TimeRemaining(minutes, seconds, false)
  }

  /** The displayed time in whole seconds. */
  function ShownSeconds(t: TimeRemaining): int { t.minutes * 60 + t.seconds }

  /** Lexicographic order on (minutes, seconds). */
  predicate ShownBefore(a: TimeRemaining, b: TimeRemaining) {
    a.minutes < b.minutes || (a.minutes == b.minutes && a.seconds < b.seconds)
  }

  /** The countdown is the remaining time truncated to whole seconds. */
  lemma ShownSecondsIsTruncation(diffMs: int)
    requires diffMs > 0
    ensures ShownSeconds(CalculateTimeRemaining(diffMs)) == diffMs / MsPerSecond
  {
  }

  /** The bounds of CalculateTimeRemaining's contract determine the countdown:
      any (minutes, seconds) with 0 <= seconds <= 59 bracketing diffMs is the one returned. */
  lemma CountdownDetermined(diffMs: int, m: int, s: int)
    requires diffMs > 0 && 0 <= s <= 59
    requires m * MsPerMinute + s * MsPerSecond <= diffMs < m * MsPerMinute + (s + 1) * MsPerSecond
    ensures CalculateTimeRemaining(diffMs) == TimeRemaining(m, s, false)
  {
  }

  /** A code that has not expired may still show 0:00. */
  lemma ZeroShownButNotExpired(diffMs: int)
    requires 0 < diffMs < MsPerSecond
    ensures CalculateTimeRemaining(diffMs) == TimeRemaining(0, 0, false)
  {
  }

  /** More time left never shows a smaller countdown. */
  lemma CountdownMonotonic(d1: int, d2: int)
    requires d1 <= d2
    ensures !ShownBefore(CalculateTimeRemaining(d2), CalculateTimeRemaining(d1))
  {
  }

  /** `Math.random().toString(36)`: "0" for zero, otherwise "0." and the
      base-36 digits of the fraction. */
  function RandomToBase36(fraction: string): string {
    if fraction == [] then "0" else "0." + fraction
  }

  predicate IsLowerBase36Digit(c: char) { '0' <= c <= '9' || 'a' <= c <= 'z' }

  predicate IsCodeChar(c: char) { '0' <= c <= '9' || 'A' <= c <= 'Z' }

  /** `generateUniqueCode`, over the digits that `Math.random().toString(36)` renders. */
  function GenerateUniqueCode(fraction: string): (code: string)
    requires forall i :: 0 <= i < |fraction| ==> IsLowerBase36Digit(fraction[i])
    ensures |code| == Min(6, |fraction|)
    ensures forall i :: 0 <= i < |code| ==> IsCodeChar(code[i])
    ensures code == ToUpperCase(fraction[..Min(6, |fraction|)])
  {
    var digits := Substring(RandomToBase36(fraction), 2, 8);
    assert digits == fraction[..Min(6, |fraction|)];
    assert forall i :: 0 <= i < |digits| ==> IsLowerBase36Digit(digits[i]);
    ToUpperCase(digits)
  }

  /** The row `createAttendanceRecord` builds for the `attendance` table. */
  datatype AttendanceRecord = AttendanceRecord(
    id: string, student_id: string, course_id: string,
    code: string, session_id: string, created_at: string)

  /** `createAttendanceRecord`; `id` stands for `uuidv4()` and `createdAt`
      for `new Date().toISOString()`. */
  function CreateAttendanceRecord(id: string, studentId: string, courseId: string,
                                  code: string, sessionId: string, createdAt: string): (r: AttendanceRecord)
    ensures r.student_id == studentId && r.course_id == courseId
    ensures r.code == code && r.session_id == sessionId
    ensures r.id == id && r.created_at == createdAt
  {
    AttendanceRecord(id, studentId, courseId, code, sessionId, createdAt)
  }
}
