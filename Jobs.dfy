/**
 * The job-application record of the tracker and the status rules shared by
 * the job card and the details dialog (src/components/JobCard.jsx and
 * src/components/JobDetailsModal.jsx declare the same status order and
 * colours).
 */
module Jobs {

  /**
   * A tracked application. Optional text fields the dialog reads with
   * `job.field || ''` are "" when absent.
   */
  datatype Job = Job(
    id: int,
    position: string,
    company: string,
    status: string,
    country: string,
    createdAt: int,
    remarks: string,
    interviewDate: string,
    interviewTime: string)

  /** The calls a component makes to the callbacks its parent passed in, in the order it makes them. */
  datatype Callback = OnUpdate(updated: Job) | OnDelete(id: int) | OnClose

  /** `STATUS_ORDER`: the order an application moves through. */
  const StatusOrder: seq<string> := ["Applied", "Pending Response", "Interview Scheduled", "Rejected", "Accepted"]

  /** No status appears twice in the order. */
  lemma StatusOrderDistinct()
    ensures forall i, j :: 0 <= i < j < |StatusOrder| ==> StatusOrder[i] != StatusOrder[j]
  {
    assert StatusOrder[3][0] == 'R' && StatusOrder[4][0] == 'A';
  }

  /** `STATUS_COLORS[status] || 'bg-gray'`. */
  function StatusClass(status: string): (c: string)
    ensures status !in StatusOrder ==> c == "bg-gray"
  {
    if status == "Applied" then "bg-gray"
    else if status == "Pending Response" then "bg-blue"
    else if status == "Interview Scheduled" then "bg-yellow"
    else if status == "Rejected" then "bg-red"
    else if status == "Accepted" then "bg-green"
    else "bg-gray"
  }

  /** JavaScript's `xs.indexOf(x)`: the first position of `x`, or -1. */
  function IndexOf(xs: seq<string>, x: string): (k: int)
    ensures -1 <= k < |xs|
    ensures k == -1 <==> x !in xs
    ensures 0 <= k ==> xs[k] == x && x !in xs[..k]
    decreases |xs|
  {
    if xs == [] then -1
    else if xs[0] == x then 0
    else
      var k := IndexOf(xs[1..], x);
      assert forall i :: 1 <= i < |xs| ==> xs[i] == xs[1..][i - 1];
      if k == -1 then -1
      else
        assert xs[..k + 1] == [xs[0]] + xs[1..][..k];
        k + 1
  }

  /** `availableStatuses`: the order from the current status on, or all of it for an unknown status. */
  function AvailableStatuses(status: string): seq<string> {
    var k := IndexOf(StatusOrder, status);
    if k == -1 then StatusOrder else StatusOrder[k..]
  }

  /**
   * The choices only move forward: the current status is always offered
   * first, no earlier status is ever offered, and an unknown status offers
   * the whole order.
   */
  lemma AvailableStatusesForwardOnly(status: string)
    ensures status !in StatusOrder ==> AvailableStatuses(status) == StatusOrder
    ensures status in StatusOrder ==> AvailableStatuses(status)[0] == status
    ensures forall s :: s in AvailableStatuses(status) ==> s in StatusOrder
    ensures status in StatusOrder ==>
      forall i :: 0 <= i < IndexOf(StatusOrder, status) ==> StatusOrder[i] !in AvailableStatuses(status)
  {
    StatusOrderDistinct();
  }

  /** `{...job, status: newStatus}`: a copy with only the status replaced. */
  function WithStatus(job: Job, newStatus: string): (r: Job)
    ensures r.status == newStatus
    ensures r.(status := job.status) == job
  {
    job.(status := newStatus)
  }
}
