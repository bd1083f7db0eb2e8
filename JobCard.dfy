/**
 * One row of the job list (src/components/JobCard.jsx): its status colour,
 * the forward-only status choices, the status change it reports, and the
 * two-click delete button whose `isConfirmingDelete` flag is the card's own
 * state.
 */
module JobCard {
  import opened Jobs

  /** What the delete button reacts to: a click, losing focus, the mouse leaving. */
  datatype ButtonEvent = Click | Blur | MouseLeave

  /**
   * One event's effect on the flag: a click while armed leaves it armed (and
   * deletes), a click while disarmed arms it, blur and mouse-leave disarm it.
   */
  function Step(armed: bool, e: ButtonEvent): bool {
    match e
    case Click => if armed then armed else true
    case Blur => false
    case MouseLeave => false
  }

  /** The flag after a run of button events from the initial, disarmed state. */
  function ArmedAfter(events: seq<ButtonEvent>): bool
    decreases |events|
  {
    if events == [] then false
    else Step(ArmedAfter(events[..|events| - 1]), events[|events| - 1])
  }

  /** The event at `i` deletes the job: a click while the button is armed. */
  predicate DeletesAt(events: seq<ButtonEvent>, i: nat)
    requires i < |events|
  {
    events[i] == Click && ArmedAfter(events[..i])
  }

  /** The flag is up exactly when the last event was a click. */
  lemma {:induction false} ArmedIffLastClick(events: seq<ButtonEvent>)
    ensures ArmedAfter(events) <==> events != [] && events[|events| - 1] == Click
  {
    if events != [] && events[|events| - 1] == Click {
      if ArmedAfter(events[..|events| - 1]) {
      }
    }
  }

  /**
   * A click deletes exactly when it directly follows another click: the
   * first click only arms, and a blur or mouse-leave in between disarms.
   */
  lemma DeletesOnSecondClick(events: seq<ButtonEvent>, i: nat)
    requires i < |events|
    ensures DeletesAt(events, i) <==> 0 < i && events[i - 1] == Click && events[i] == Click
  {
    var before := events[..i];
    ArmedIffLastClick(before);
    if 0 < i {
      assert before[|before| - 1] == events[i - 1];
    }
  }

  class JobCard {
    var job: Job
    var isConfirmingDelete: bool
    /** The button events so far. */
    ghost var history: seq<ButtonEvent>

    /** The flag is the one the event history leads to. */
    ghost predicate Valid()
      reads this
    {
      isConfirmingDelete == ArmedAfter(history)
    }

    constructor (job: Job)
      ensures Valid() && this.job == job && !isConfirmingDelete && history == []
    {
      this.job := job;
      isConfirmingDelete := false;
      history := [];
    }

    /** `handleStatusChange`: report the job with the chosen status; the card itself does not change. */
    method StatusChange(newStatus: string) returns (calls: seq<Callback>)
      ensures calls == [OnUpdate(WithStatus(job, newStatus))]
    {
      calls := [OnUpdate(job.(status := newStatus))];
    }

    /** `handleDeleteClick`: delete when armed, arm otherwise. */
    method DeleteClick() returns (calls: seq<Callback>)
      requires Valid()
      modifies this
      ensures Valid() && history == old(history) + [Click]
      ensures calls == (if old(isConfirmingDelete) then [OnDelete(job.id)] else [])
      ensures isConfirmingDelete && job == old(job)
    {
      history := history + [Click];
      if isConfirmingDelete {
        calls := [OnDelete(job.id)];
      } else {
        isConfirmingDelete := true;
        calls := [];
      }
      assert history[..|history| - 1] == old(history);
    }

    /** The `onBlur` and `onMouseLeave` handlers: disarm. */
    method Disarm(e: ButtonEvent)
      requires Valid() && e != Click
      modifies this
      ensures Valid() && history == old(history) + [e]
      ensures !isConfirmingDelete && job == old(job)
    {
      history := history + [e];
      isConfirmingDelete := false;
      assert history[..|history| - 1] == old(history);
    }
  }

  /** A fresh card deletes on its second click and not on its first. */
  method TwoClicksDelete(job: Job) returns (first: seq<Callback>, second: seq<Callback>)
    ensures first == [] && second == [OnDelete(job.id)]
  {
    var card := new JobCard(job);
    first := card.DeleteClick();
    second := card.DeleteClick();
  }

  /** A blur between two clicks means the second click only arms again. */
  method BlurCancelsDelete(job: Job) returns (calls: seq<Callback>)
    ensures calls == []
  {
    var card := new JobCard(job);
    var first := card.DeleteClick();
    card.Disarm(Blur);
    calls := card.DeleteClick();
  }
}
