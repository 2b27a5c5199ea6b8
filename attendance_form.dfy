/** The student's attendance form (src/components/AttendanceForm.jsx): its four
    state fields and the submit handler that moves them through the outcomes
    of a code lookup and a record insert. The signed-in user, both database
    calls, the parent's callback, `uuidv4` and the clock are parameters. */
module AttendanceFormModel {
  import opened JsValues
  import opened AttendanceUtils

  const BlankMessage := "Please enter an attendance code"
  const InvalidCodeMessage := "Invalid or expired attendance code"
  const FailedMessage := "Failed to mark attendance"
  const SuccessMessage := "Attendance marked successfully!"

  /** The fields of an `attendance_codes` row the form reads. */
  datatype CodeRow = CodeRow(id: string, course_id: string)

  /** How `validateAttendanceCode` ends: an error, no row, or the unexpired row. */
  datatype CodeLookup = LookupError | NoRecord | Found(row: CodeRow)

  /** How the `attendance` insert ends: an error, or the inserted rows. */
  datatype InsertResult = InsertError | Inserted(data: seq<AttendanceRecord>)

  /** The `onAttendanceMarked` prop: absent, or present and possibly throwing. */
  datatype Callback = NoCallback | Notify(throws: bool)

  class AttendanceForm {
    var attendanceCode: string
    var isSubmitting: bool
    var error: string
    var success: string

    constructor ()
      ensures attendanceCode == "" && !isSubmitting && error == "" && success == ""
    {
      attendanceCode, isSubmitting, error, success := "", false, "", "";
    }

    /** The input's `onChange`. */
    method OnCodeChange(value: string)
      modifies this
      ensures attendanceCode == value
      ensures isSubmitting == old(isSubmitting) && error == old(error) && success == old(success)
    {
      attendanceCode := value;
    }

    /** `handleSubmit`. `userId` is the signed-in user's id (None when nobody
        is signed in, where reading `user.id` throws); `recordId` and `now`
        stand for `uuidv4()` and the clock. Returns the code looked up, the
        record inserted and the data passed to the callback, if any. */
    method HandleSubmit(userId: Option<string>, lookup: CodeLookup, insert: InsertResult,
                        callback: Callback, recordId: string, now: string)
      returns (lookedUp: Option<string>, inserted: Option<AttendanceRecord>,
               notified: Option<seq<AttendanceRecord>>)
      modifies this
      // A blank code: only the error changes, and nothing is looked up.
      ensures IsBlank(old(attendanceCode)) ==>
        error == BlankMessage && attendanceCode == old(attendanceCode)
        && isSubmitting == old(isSubmitting) && success == old(success)
        && lookedUp == None && inserted == None && notified == None
      // Otherwise the code as typed is looked up and the form ends idle.
      ensures !IsBlank(old(attendanceCode)) ==> lookedUp == Some(old(attendanceCode)) && !isSubmitting
      // An unknown or expired code: no insert.
      ensures !IsBlank(old(attendanceCode)) && !lookup.Found? ==>
        error == InvalidCodeMessage && success == "" && attendanceCode == old(attendanceCode)
        && inserted == None && notified == None
      // A valid code but nobody signed in: no insert.
      ensures !IsBlank(old(attendanceCode)) && lookup.Found? && userId.None? ==>
        error == FailedMessage && success == "" && attendanceCode == old(attendanceCode)
        && inserted == None && notified == None
      // The record takes course and session from the looked-up row.
      ensures !IsBlank(old(attendanceCode)) && lookup.Found? && userId.Some? ==>
        inserted == Some(CreateAttendanceRecord(recordId, userId.value, lookup.row.course_id,
                                                old(attendanceCode), lookup.row.id, now))
      // A failed insert keeps the code for another try.
      ensures !IsBlank(old(attendanceCode)) && lookup.Found? && userId.Some? && insert.InsertError? ==>
        error == FailedMessage && success == "" && attendanceCode == old(attendanceCode) && notified == None
      // A successful insert clears the code and hands the rows to the callback.
      ensures !IsBlank(old(attendanceCode)) && lookup.Found? && userId.Some? && insert.Inserted? ==>
        success == SuccessMessage && attendanceCode == ""
        && notified == (if callback.Notify? then Some(insert.data) else None)
        && error == (if callback == Notify(true) then FailedMessage else "")
    {
      lookedUp, inserted, notified := None, None, None;
      var code := attendanceCode;
      if IsBlank(code) {
        error := BlankMessage;
        return;
      }
      isSubmitting := true;
      error := "";
      success := "";
      lookedUp := Some(code);
      if !lookup.Found? {
        error := InvalidCodeMessage;
      } else if userId.None? {
        error := FailedMessage;
      } else {
        var record := CreateAttendanceRecord(recordId, userId.value, lookup.row.course_id,
                                             code, lookup.row.id, now);
        inserted := Some(record);
        match insert {
          case InsertError =>
            error := FailedMessage;
          case Inserted(data) =>
            success := SuccessMessage;
            attendanceCode := "";
            if callback.Notify? {
              notified := Some(data);
              if callback.throws {
                error := FailedMessage;
              }
            }
        }
      }
      isSubmitting := false;
    }
  }

  /** A blank submission after a successful one shows the success message and
      the blank-code error together: the blank path leaves `success` alone. */
  method SuccessThenBlankSubmission(row: CodeRow, data: seq<AttendanceRecord>)
  {
    var form := new AttendanceForm();
    form.OnCodeChange("ABC123");
    assert !IsBlank("ABC123") by { assert !IsJsWhitespace("ABC123"[0]); }
    var _, _, _ := form.HandleSubmit(Some("student-1"), Found(row), Inserted(data), NoCallback, "id-1", "t0");
    assert form.success == SuccessMessage && form.attendanceCode == "" && form.error == "";
    var lookedUp, _, _ := form.HandleSubmit(Some("student-1"), Found(row), Inserted(data), NoCallback, "id-2", "t1");
    assert lookedUp == None;
    assert form.error == BlankMessage && form.success == SuccessMessage;
  }

  /** A callback that throws after a successful insert leaves both messages shown. */
  method ThrowingCallbackShowsBothMessages(row: CodeRow, data: seq<AttendanceRecord>)
  {
    var form := new AttendanceForm();
    form.OnCodeChange("ABC123");
    assert !IsBlank("ABC123") by { assert !IsJsWhitespace("ABC123"[0]); }
    var _, _, notified := form.HandleSubmit(Some("student-1"), Found(row), Inserted(data), Notify(true), "id-1", "t0");
    assert notified == Some(data);
    assert form.success == SuccessMessage && form.error == FailedMessage && !form.isSubmitting;
  }
}
