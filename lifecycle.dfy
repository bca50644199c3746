/**
 * The producer thread's control flags `sysevent_thread_loop` and
 * `sysevent_thread_error`, and what `start_thread`, `stop_thread`, a
 * receive failure and the restart in `sysevent_read` do to them. The
 * outcome of creating, joining or cancelling the thread is an input.
 */
module Lifecycle {

  /** `loop`: the thread is meant to run; `error`: it stopped on a receive failure. */
  datatype Flags = Flags(loop: bool, error: bool)

  datatype Outcome = Outcome(status: int, flags: Flags)

  /**
   * `start_thread`: a no-op returning 0 when the loop flag is already set;
   * otherwise both flags are reset for a new thread, and the loop flag is
   * cleared again with status -1 when the thread cannot be created.
   */
  function Start(f: Flags, created: bool): (r: Outcome)
    ensures f.loop ==> r == Outcome(0, f)
    ensures !f.loop ==> r.flags == Flags(created, false)
    ensures !f.loop ==> (r.status == 0 <==> created) && (r.status != 0 ==> r.status == -1)
  {
    if f.loop then Outcome(0, f)
    else if created then Outcome(0, Flags(true, false))
    else Outcome(-1, Flags(false, false))
  }

  /**
   * `stop_thread`: returns -1 and changes nothing when the thread is not
   * running; otherwise clears both flags and returns 0 exactly when the join
   * (or, on shutdown, the cancel) succeeded.
   */
  function Stop(f: Flags, stopped: bool): (r: Outcome)
    ensures !f.loop ==> r == Outcome(-1, f)
    ensures f.loop ==> r.flags == Flags(false, false)
    ensures f.loop ==> (r.status == 0 <==> stopped) && (r.status != 0 ==> r.status == -1)
  {
    if !f.loop then Outcome(-1, f)
    else Outcome(if stopped then 0 else -1, Flags(false, false))
  }

  /** The producer's receive failure: the error flag is raised; the loop flag stays set. */
  function Fault(f: Flags): (r: Flags)
    ensures r.error && r.loop == f.loop
  {
    f.(error := true)
  }

  /**
   * The restart that a read performs when it finds the error flag set.
   * Self-healing: whatever the flags and whatever the join outcome, it
   * clears the error flag, and the thread is marked running exactly when the
   * new thread was created.
   */
  function Restart(f: Flags, stopped: bool, created: bool): (r: Flags)
    ensures r == Flags(created, false)
  {
    Start(Stop(f, stopped).flags, created).flags
  }

  /** The error flag is only ever raised on a thread that is marked running. */
  predicate Consistent(f: Flags) {
    f.error ==> f.loop
  }

  lemma TransitionsKeepConsistent(f: Flags, stopped: bool, created: bool)
    requires Consistent(f)
    ensures Consistent(Start(f, created).flags)
    ensures Consistent(Stop(f, stopped).flags)
    ensures f.loop ==> Consistent(Fault(f))
  {
  }

  /**
   * Under that invariant, the restart's `stop_thread(0)` always finds a
   * running thread to join, so its result is the join's result.
   */
  lemma RestartStopsRunningThread(f: Flags, stopped: bool)
    requires Consistent(f) && f.error
    ensures Stop(f, stopped).status == if stopped then 0 else -1
  {
  }

  /** A second start right after a successful one changes nothing. */
  lemma StartIdempotent(f: Flags, created: bool, again: bool)
    requires Start(f, created).status == 0
    ensures Start(Start(f, created).flags, again) == Outcome(0, Start(f, created).flags)
  {
  }
}
