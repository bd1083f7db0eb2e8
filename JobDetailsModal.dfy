/**
 * The details dialog of one application (src/components/JobDetailsModal.jsx):
 * the state it resets when it opens, the remarks and interview editors with
 * their save and cancel handlers, the status choices, the delete
 * confirmation and the truncated display of long remarks.
 */
module JobDetailsModal {
  import opened Text
  import opened Jobs

  /** `REMARKS_THRESHOLD`. */
  const RemarksThreshold: nat := 150

  /**
   * `displayedRemarks`, in the code units a JavaScript string holds: remarks
   * longer than the threshold are cut to that many units and marked, unless
   * expanded.
   */
  function DisplayedRemarks(remarks: string, expanded: bool): seq<CodeUnit> {
    if !expanded && JsLength(remarks) > RemarksThreshold then Utf16(remarks)[..RemarksThreshold] + Utf16("...")
    else Utf16(remarks)
  }

  /**
   * What the reader sees: short remarks, or expanded ones, in full; otherwise
   * the first 150 code units followed by an ellipsis, and nothing beyond.
   * For text in the Basic Multilingual Plane those are the first 150
   * characters.
   */
  lemma DisplayedRemarksFacts(remarks: string, expanded: bool)
    ensures JsLength(remarks) <= RemarksThreshold || expanded ==> DisplayedRemarks(remarks, expanded) == Utf16(remarks)
    ensures JsLength(remarks) > RemarksThreshold && !expanded ==>
      |DisplayedRemarks(remarks, expanded)| == RemarksThreshold + 3 &&
      DisplayedRemarks(remarks, expanded)[..RemarksThreshold] <= Utf16(remarks) &&
      DisplayedRemarks(remarks, expanded)[RemarksThreshold..] == Utf16("...")
    ensures Bmp(remarks) && |remarks| > RemarksThreshold && !expanded ==>
      DisplayedRemarks(remarks, expanded) == Utf16(remarks[..RemarksThreshold] + "...")
    ensures |DisplayedRemarks(remarks, expanded)| <= if expanded then JsLength(remarks) else RemarksThreshold + 3
  {
    if JsLength(remarks) > RemarksThreshold && !expanded {
      var shown := DisplayedRemarks(remarks, expanded);
      assert shown[..RemarksThreshold] == Utf16(remarks)[..RemarksThreshold];
    }
    if Bmp(remarks) && |remarks| > RemarksThreshold && !expanded {
      BmpTruncation(remarks);
    }
  }

  /** On the Basic Multilingual Plane the first 150 code units encode the first 150 characters. */
  lemma BmpTruncation(remarks: string)
    requires Bmp(remarks) && |remarks| > RemarksThreshold
    ensures Utf16(remarks)[..RemarksThreshold] + Utf16("...") == Utf16(remarks[..RemarksThreshold] + "...")
  {
    var head, tail := remarks[..RemarksThreshold], remarks[RemarksThreshold..];
    assert remarks == head + tail;
    Utf16Append(head, tail);
    assert Bmp(head) by {
      forall i | 0 <= i < |head| ensures head[i] as int < 0x1_0000 {
        assert head[i] == remarks[i];
      }
    }
    BmpUnits(head);
    Utf16Append(head, "...");
  }

  class JobDetailsModal {
    var job: Job
    var isDeleting: bool
    var isEditingRemarks: bool
    var remarksValue: string
    var isRemarksExpanded: bool
    var isRemarksModalOpen: bool
    var isEditingInterview: bool
    var interviewDateValue: string
    var interviewTimeValue: string

    /** No handler ever sets `isRemarksExpanded`; it only starts and is reset false. */
    predicate Valid()
      reads this
    {
      !isRemarksExpanded
    }

    /** The `useState` initial values, for the job passed in. */
    constructor (job: Job)
      ensures Valid() && this.job == job
      ensures !isDeleting && !isEditingRemarks && !isRemarksModalOpen && !isEditingInterview
      ensures remarksValue == "" && interviewDateValue == "" && interviewTimeValue == ""
    {
      this.job := job;
      isDeleting := false;
      isEditingRemarks := false;
      remarksValue := "";
      isRemarksExpanded := false;
      isRemarksModalOpen := false;
      isEditingInterview := false;
      interviewDateValue := "";
      interviewTimeValue := "";
    }

    /** The effect that runs when the dialog opens on a job: every flag down, editors loaded from it. */
    method Open(j: Job)
      modifies this
      ensures Valid() && job == j
      ensures !isDeleting && !isEditingRemarks && !isRemarksModalOpen && !isEditingInterview
      ensures remarksValue == j.remarks
      ensures interviewDateValue == j.interviewDate && interviewTimeValue == j.interviewTime
    {
      job := j;
      isDeleting := false;
      isEditingRemarks := false;
      isRemarksExpanded := false;
      isRemarksModalOpen := false;
      isEditingInterview := false;
      remarksValue := j.remarks;
      interviewDateValue := j.interviewDate;
      interviewTimeValue := j.interviewTime;
    }

    function Displayed(): seq<CodeUnit>
      reads this
    {
      DisplayedRemarks(job.remarks, isRemarksExpanded)
    }

    function Statuses(): seq<string>
      reads this
    {
      AvailableStatuses(job.status)
    }

    function StatusColour(): string
      reads this
    {
      StatusClass(job.status)
    }

    /** The pencil button: open the remarks editor. */
    method StartEditingRemarks()
      requires Valid()
      modifies this
      ensures Valid() && isEditingRemarks
      ensures job == old(job) && remarksValue == old(remarksValue) && isDeleting == old(isDeleting)
      ensures isEditingInterview == old(isEditingInterview)
      ensures interviewDateValue == old(interviewDateValue) && interviewTimeValue == old(interviewTimeValue)
    {
      isEditingRemarks := true;
    }

    /** Typing into the remarks editor. */
    method EditRemarks(value: string)
      requires Valid()
      modifies this
      ensures Valid() && remarksValue == value
      ensures job == old(job) && isEditingRemarks == old(isEditingRemarks) && isDeleting == old(isDeleting)
      ensures isEditingInterview == old(isEditingInterview)
      ensures interviewDateValue == old(interviewDateValue) && interviewTimeValue == old(interviewTimeValue)
    {
      remarksValue := value;
    }

    /** `handleSaveRemarks`: report the job with the edited remarks and close the editor. */
    method SaveRemarks() returns (calls: seq<Callback>)
      requires Valid()
      modifies this
      ensures Valid() && !isEditingRemarks
      ensures calls == [OnUpdate(old(job).(remarks := old(remarksValue)))]
      ensures job == old(job) && remarksValue == old(remarksValue) && isDeleting == old(isDeleting)
      ensures isEditingInterview == old(isEditingInterview)
      ensures interviewDateValue == old(interviewDateValue) && interviewTimeValue == old(interviewTimeValue)
    {
      calls := [OnUpdate(job.(remarks := remarksValue))];
      isEditingRemarks := false;
    }

    /** `handleCancelRemarks`: throw the edit away and close the editor. */
    method CancelRemarks()
      requires Valid()
      modifies this
      ensures Valid() && !isEditingRemarks && remarksValue == job.remarks
      ensures job == old(job) && isDeleting == old(isDeleting)
      ensures isEditingInterview == old(isEditingInterview)
      ensures interviewDateValue == old(interviewDateValue) && interviewTimeValue == old(interviewTimeValue)
    {
      remarksValue := job.remarks;
      isEditingRemarks := false;
    }

    /** The edit button of the interview field. */
    method StartEditingInterview()
      requires Valid()
      modifies this
      ensures Valid() && isEditingInterview
      ensures job == old(job) && isEditingRemarks == old(isEditingRemarks) && remarksValue == old(remarksValue)
      ensures isDeleting == old(isDeleting)
      ensures interviewDateValue == old(interviewDateValue) && interviewTimeValue == old(interviewTimeValue)
    {
      isEditingInterview := true;
    }

    /** Typing into the date and time inputs. */
    method EditInterview(date: string, time: string)
      requires Valid()
      modifies this
      ensures Valid() && interviewDateValue == date && interviewTimeValue == time
      ensures job == old(job) && isEditingRemarks == old(isEditingRemarks) && remarksValue == old(remarksValue)
      ensures isDeleting == old(isDeleting) && isEditingInterview == old(isEditingInterview)
    {
      interviewDateValue := date;
      interviewTimeValue := time;
    }

    /** `handleSaveInterview`: report the job with the edited date and time and close the editor. */
    method SaveInterview() returns (calls: seq<Callback>)
      requires Valid()
      modifies this
      ensures Valid() && !isEditingInterview
      ensures calls == [OnUpdate(old(job).(interviewDate := old(interviewDateValue), interviewTime := old(interviewTimeValue)))]
      ensures job == old(job) && isEditingRemarks == old(isEditingRemarks) && remarksValue == old(remarksValue)
      ensures isDeleting == old(isDeleting)
      ensures interviewDateValue == old(interviewDateValue) && interviewTimeValue == old(interviewTimeValue)
    {
      calls := [OnUpdate(job.(interviewDate := interviewDateValue, interviewTime := interviewTimeValue))];
      isEditingInterview := false;
    }

    /** `handleCancelInterview`: restore both inputs from the job and close the editor. */
    method CancelInterview()
      requires Valid()
      modifies this
      ensures Valid() && !isEditingInterview
      ensures interviewDateValue == job.interviewDate && interviewTimeValue == job.interviewTime
      ensures job == old(job) && isEditingRemarks == old(isEditingRemarks) && remarksValue == old(remarksValue)
      ensures isDeleting == old(isDeleting)
    {
      interviewDateValue := job.interviewDate;
      interviewTimeValue := job.interviewTime;
      isEditingInterview := false;
    }

    /** `handleStatusChange`: report the job with the chosen status. */
    method StatusChange(newStatus: string) returns (calls: seq<Callback>)
      ensures calls == [OnUpdate(WithStatus(job, newStatus))]
    {
      calls := [OnUpdate(job.(status := newStatus))];
    }

    /** `handleDeleteClick`: show the confirmation. */
    method DeleteClick()
      requires Valid()
      modifies this
      ensures Valid() && isDeleting
      ensures job == old(job) && isEditingRemarks == old(isEditingRemarks) && remarksValue == old(remarksValue)
      ensures isEditingInterview == old(isEditingInterview)
      ensures interviewDateValue == old(interviewDateValue) && interviewTimeValue == old(interviewTimeValue)
    {
      isDeleting := true;
    }

    /** `confirmDelete`: delete this job, then close the dialog; the dialog's own state is left as it was. */
    method ConfirmDelete() returns (calls: seq<Callback>)
      ensures calls == [OnDelete(job.id), OnClose]
    {
      calls := [OnDelete(job.id), OnClose];
    }

    /** `cancelDelete`: back to the details. */
    method CancelDelete()
      requires Valid()
      modifies this
      ensures Valid() && !isDeleting
      ensures job == old(job) && isEditingRemarks == old(isEditingRemarks) && remarksValue == old(remarksValue)
      ensures isEditingInterview == old(isEditingInterview)
      ensures interviewDateValue == old(interviewDateValue) && interviewTimeValue == old(interviewTimeValue)
    {
      isDeleting := false;
    }
  }

  /**
   * Because the dialog never expands remarks, remarks over 150 code units
   * always show cut to their first 150 units and marked.
   */
  lemma LongRemarksAlwaysTruncated(m: JobDetailsModal)
    requires m.Valid() && JsLength(m.job.remarks) > RemarksThreshold
    ensures m.Displayed() == Utf16(m.job.remarks)[..RemarksThreshold] + Utf16("...")
    ensures Bmp(m.job.remarks) && |m.job.remarks| > RemarksThreshold ==>
      m.Displayed() == Utf16(m.job.remarks[..RemarksThreshold] + "...")
  {
    if Bmp(m.job.remarks) {
      BmpUnits(m.job.remarks);
      BmpTruncation(m.job.remarks);
    }
  }

  /** After saving edited remarks, reopening the dialog on the updated job loads the saved text. */
  method SaveThenReopenShowsSaved(j: Job, newRemarks: string) returns (saved: Job, shown: string)
    ensures saved == j.(remarks := newRemarks) && shown == newRemarks
  {
    var m := new JobDetailsModal(j);
    m.Open(j);
    m.StartEditingRemarks();
    m.EditRemarks(newRemarks);
    var calls := m.SaveRemarks();
    saved := calls[0].updated;
    m.Open(saved);
    shown := m.remarksValue;
  }
}
