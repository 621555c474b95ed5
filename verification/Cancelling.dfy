/** How a call to cancel ends, tied over whole histories to the row it read and to what it left behind. */
module Cancelling {
  import opened Dispatch
  import Q = JobQueue

  /** The job's row, in this state, if there is one. */
  predicate HasStatus(s: Farm, job: string, status: Q.Status) {
    job in s.rows && s.rows[job] == status
  }

  /** In state s the row read as it must have for the call to be where it is. */
  predicate Says(at: At, s: Farm, job: string) {
    match at
    case Reading => HasStatus(s, job, Q.Queued)
    case SawQueued => HasStatus(s, job, Q.Queued)
    case SawRunning => HasStatus(s, job, Q.Running)
    case Ended(Won) => HasStatus(s, job, Q.Queued)
    case Ended(Asked) => HasStatus(s, job, Q.Running)
    case Ended(Refused) => job in s.rows && s.rows[job] != Q.Queued && s.rows[job] != Q.Running
    case Ended(Unknown) => job !in s.rows
  }

  /** The t-th event is call n reading its row. */
  predicate Looks(h: History, t: nat, n: nat) {
    t < |h.events| && h.events[t] == ReadRow(n)
  }

  /** Before moment t, call n last read its row at the u-th event. */
  ghost predicate LastLook(h: History, t: nat, n: nat, u: nat) {
    u < t && u < |h.states| && Looks(h, u, n) && forall v: nat :: u < v < t ==> !Looks(h, v, n)
  }

  /** Call n has not read yet, or it is where what it read last leaves it. */
  ghost predicate CallSays(h: History, t: nat, n: nat)
    requires t < |h.states| && n in h.states[t].calls
  {
    var call := h.states[t].calls[n];
    if call.looks == 0 then call.at == Reading
    else exists u: nat :: LastLook(h, t, n, u) && Says(call.at, h.states[u], call.job)
  }

  lemma LookSays(h: History, t: nat, n: nat, setup: Setup)
    requires IsHistory(h, setup) && Looks(h, t, n) && n in h.states[t].calls
    ensures n in h.states[t + 1].calls && h.states[t + 1].calls[n].job == h.states[t].calls[n].job
    ensures Says(h.states[t + 1].calls[n].at, h.states[t], h.states[t].calls[n].job)
    ensures h.states[t + 1].calls[n].looks > 0 && LastLook(h, t + 1, n, t)
  {
    assert Happens(h, t, setup);
  }

  /** Between two looks a call goes on only from what it saw. */
  lemma NoLookSays(h: History, t: nat, n: nat, setup: Setup)
    requires IsHistory(h, setup) && t < |h.events| && !Looks(h, t, n) && n in h.states[t + 1].calls
    ensures n in h.states[t].calls ==>
      && h.states[t + 1].calls[n].job == h.states[t].calls[n].job
      && h.states[t + 1].calls[n].looks == h.states[t].calls[n].looks
      && (h.states[t].calls[n].looks == 0 && h.states[t].calls[n].at == Reading ==>
            h.states[t + 1].calls[n].at == Reading)
      && forall s :: Says(h.states[t].calls[n].at, s, h.states[t].calls[n].job) ==>
           Says(h.states[t + 1].calls[n].at, s, h.states[t].calls[n].job)
    ensures n !in h.states[t].calls ==> h.states[t + 1].calls[n].looks == 0 && h.states[t + 1].calls[n].at == Reading
  {
    assert Happens(h, t, setup);
  }

  /** Wherever a call to cancel is, it is there by the row it read last. */
  lemma {:induction false} CallsSayWhatTheyRead(h: History, t: nat, n: nat, setup: Setup)
    requires IsHistory(h, setup) && t < |h.states| && n in h.states[t].calls
    ensures CallSays(h, t, n)
  {
    if t > 0 {
      assert Happens(h, t - 1, setup);
      if Looks(h, t - 1, n) {
        LookSays(h, t - 1, n, setup);
      } else {
        NoLookSays(h, t - 1, n, setup);
        if n in h.states[t - 1].calls {
          CallsSayWhatTheyRead(h, t - 1, n, setup);
          if h.states[t].calls[n].looks > 0 { LookStays(h, t - 1, n); }
        }
      }
    }
  }

  lemma LookStays(h: History, t: nat, n: nat)
    requires t + 1 < |h.states| && n in h.states[t].calls && n in h.states[t + 1].calls && CallSays(h, t, n)
    requires h.states[t].calls[n].looks > 0 && !Looks(h, t, n)
    requires h.states[t + 1].calls[n].looks == h.states[t].calls[n].looks
    requires h.states[t + 1].calls[n].job == h.states[t].calls[n].job
    requires forall s :: Says(h.states[t].calls[n].at, s, h.states[t].calls[n].job) ==>
      Says(h.states[t + 1].calls[n].at, s, h.states[t].calls[n].job)
    ensures CallSays(h, t + 1, n)
  {
    var u: nat :| LastLook(h, t, n, u) && Says(h.states[t].calls[n].at, h.states[u], h.states[t].calls[n].job);
    assert LastLook(h, t + 1, n, u);
  }

  /**
   What an ending means. A cancel that is refused read, the last time it looked, a row that was neither
   queued nor running; one that knows no such job read no row; one that asked the run to stop read it
   running; one that won read it queued.
  */
  lemma EndingsAreTrue(h: History, t: nat, n: nat, setup: Setup) returns (u: nat)
    requires IsHistory(h, setup) && t < |h.states| && n in h.states[t].calls && h.states[t].calls[n].at.Ended?
    ensures LastLook(h, t, n, u)
    ensures var s, job := h.states[u], h.states[t].calls[n].job;
      match h.states[t].calls[n].at.end
      case Refused => job in s.rows && s.rows[job] in {Q.Passed, Q.Failed, Q.Cancelled}
      case Unknown => job !in s.rows
      case Asked => HasStatus(s, job, Q.Running)
      case Won => HasStatus(s, job, Q.Queued)
  {
    CallsSayWhatTheyRead(h, t, n, setup);
    u :| LastLook(h, t, n, u) && Says(h.states[t].calls[n].at, h.states[u], h.states[t].calls[n].job);
  }

  /** A cancel that finds its job running never looks again and ends in no other way than having asked it to stop. */
  lemma {:induction false} RunningEndsAsked(h: History, u: nat, t: nat, n: nat, setup: Setup)
    requires IsHistory(h, setup) && u < t < |h.states| && Looks(h, u, n) && n in h.states[u].calls
    requires HasStatus(h.states[u], h.states[u].calls[n].job, Q.Running)
    ensures n in h.states[t].calls && h.states[t].calls[n].at in {SawRunning, Ended(Asked)}
    ensures h.states[t].calls[n].job == h.states[u].calls[n].job
    ensures h.states[t].calls[n].looks == h.states[u].calls[n].looks + 1
    decreases t
  {
    assert Happens(h, t - 1, setup);
    if t > u + 1 { RunningEndsAsked(h, u, t - 1, n, setup); }
  }

  /** The t-th event is call n asking its job's run to stop. */
  ghost predicate Asks(h: History, t: nat, n: nat) {
    t < |h.events| && t < |h.states| && h.events[t] == Ask(n) && n in h.states[t].calls
  }

  ghost predicate NotForgotten(h: History, a: nat, t: nat, job: string) {
    t <= |h.events| && forall v :: a < v < t ==> h.events[v] != Forget(job)
  }

  /** From then on the job is asked to stop, until that is forgotten. */
  lemma {:induction false} AskedStays(h: History, a: nat, t: nat, n: nat, setup: Setup)
    requires IsHistory(h, setup) && a < t < |h.states| && Asks(h, a, n)
    requires NotForgotten(h, a, t, h.states[a].calls[n].job)
    ensures h.states[a].calls[n].job in h.states[t].requests
    decreases t
  {
    assert Happens(h, t - 1, setup);
    if t > a + 1 { AskedStays(h, a, t - 1, n, setup); }
  }

  /** A cancel that ended having asked did ask. */
  lemma {:induction false} AskedDidAsk(h: History, t: nat, n: nat, setup: Setup) returns (a: nat)
    requires IsHistory(h, setup) && t < |h.states| && n in h.states[t].calls && h.states[t].calls[n].at == Ended(Asked)
    ensures a < t && Asks(h, a, n) && h.states[a].calls[n].job == h.states[t].calls[n].job
  {
    assert t > 0;
    assert Happens(h, t - 1, setup);
    if h.events[t - 1] == Ask(n) {
      a := t - 1;
    } else {
      a := AskedDidAsk(h, t - 1, n, setup);
    }
  }

  /** Rows are never removed: a job unknown to a cancel had no row before either. */
  lemma {:induction false} RowsStay(h: History, a: nat, b: nat, job: string, setup: Setup)
    requires IsHistory(h, setup) && a <= b < |h.states| && job in h.states[a].rows
    ensures job in h.states[b].rows
    decreases b
  {
    if a < b {
      RowsStay(h, a, b - 1, job, setup);
      assert Happens(h, b - 1, setup);
    }
  }

  /** A request is made by a cancel that read the job running. */
  lemma {:induction false} RequestsAreAsked(h: History, t: nat, job: string, setup: Setup) returns (a: nat, n: nat)
    requires IsHistory(h, setup) && t < |h.states| && job in h.states[t].requests && job !in h.states[0].requests
    ensures a < t && Asks(h, a, n) && h.states[a].calls[n].job == job
  {
    assert Happens(h, t - 1, setup);
    if job in h.states[t - 1].requests {
      a, n := RequestsAreAsked(h, t - 1, job, setup);
    } else {
      a, n := t - 1, h.events[t - 1].n;
    }
  }

  /** A request that is forgotten is gone, and no other. */
  lemma ForgottenIsGone(h: History, t: nat, job: string, setup: Setup)
    requires IsHistory(h, setup) && t < |h.events| && h.events[t] == Forget(job)
    ensures h.states[t + 1].requests == h.states[t].requests - {job}
  {
    assert Happens(h, t, setup);
  }
}
