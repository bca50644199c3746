/**
 * The plugin state of src/sysevent.c as one object: the ring shared by the
 * producer thread and the read callback, the event counter, and the thread
 * control flags. Every method is one step that the source performs while
 * holding `sysevent_lock` (or that touches no shared state), so the steps
 * are modelled as atomic and sequential.
 */
module Sysevent {
  import opened Wrappers
  import opened RingBuffer
  import opened Lifecycle
  import opened Payload
  import opened Collector
  import Config

  /**
   * The text `strncpy` copies out of a NUL-padded receive buffer: everything
   * before the first NUL character.
   */
  function CString(s: string): (r: string)
    ensures r <= s
    ensures forall i :: 0 <= i < |r| ==> r[i] != '\0'
    ensures |r| < |s| ==> s[|r|] == '\0'
    decreases |s|
  {
    if s == [] || s[0] == '\0' then "" else [s[0]] + CString(s[1..])
  }

  /** What one `recvfrom` call returns: an error, or a datagram's bytes as characters. */
  datatype Received = RecvFailed | Datagram(data: string)

  /** Every stored text fits in a slot of `size` bytes with its terminating NUL. */
  ghost predicate SlotsFit(q: seq<Entry>, size: int) {
    forall i :: 0 <= i < |q| ==> |q[i].text| < size
  }

  lemma PushedFits(q: seq<Entry>, e: Entry, n: int, size: int)
    requires SlotsFit(q, size) && |e.text| < size
    ensures SlotsFit(Pushed(q, e, n), size)
  {
  }

  class Plugin {
    /** `listen_buffer_size`: the receive buffer and every slot hold this many bytes. */
    const bufferSize: int
    /** `monitor_all_messages`: no `RegexFilter` pattern was configured. */
    const monitorAll: bool
    /** `ring` */
    const ring: Ring
    /** `event_id` */
    var eventId: int
    /** `sysevent_thread_loop != 0` */
    var threadLoop: bool
    /** `sysevent_thread_error != 0` */
    var threadError: bool

    function FlagsNow(): Flags
      reads this
    {
      Flags(threadLoop, threadError)
    }

    ghost predicate Valid()
      reads this, ring, ring.buffer, ring.timestamp
    {
      && ring.Valid()
      && 1 <= bufferSize
      && Consistent(FlagsNow())
      && SlotsFit(ring.Contents(), bufferSize)
    }

    /**
     * The plugin's static state together with the ring set-up of
     * `sysevent_init`, from accepted settings.
     */
    constructor (cfg: Config.Config)
      requires Config.Valid(cfg)
      ensures Valid() && fresh(ring) && fresh(ring.buffer) && fresh(ring.timestamp)
      ensures bufferSize == cfg.bufferSize && monitorAll == cfg.monitorAll
      ensures ring.maxLen == cfg.bufferLength && ring.head == 0 && ring.tail == 0 && ring.Contents() == []
      ensures eventId == 0 && FlagsNow() == Flags(false, false)
    {
      bufferSize := cfg.bufferSize;
      monitorAll := cfg.monitorAll;
      ring := new Ring(cfg.bufferLength);
      eventId := 0;
      threadLoop, threadError := false, false;
    }

    /**
     * The rest of `sysevent_init`: `socketReady` tells whether the socket
     * could be resolved, opened and bound; if not, -1 without starting the
     * thread, otherwise the result of `start_thread`.
     */
    method Init(socketReady: bool, created: bool) returns (status: int)
      requires Valid()
      modifies this`threadLoop, this`threadError
      ensures Valid()
      ensures !socketReady ==> status == -1 && FlagsNow() == old(FlagsNow())
      ensures socketReady ==> Outcome(status, FlagsNow()) == Start(old(FlagsNow()), created)
    {
      if !socketReady {
        return -1;
      }
      status := StartThread(created);
    }

    /** `start_thread`; `created` is the outcome of creating the thread. */
    method StartThread(created: bool) returns (status: int)
      requires Valid()
      modifies this`threadLoop, this`threadError
      ensures Valid()
      ensures Outcome(status, FlagsNow()) == Start(old(FlagsNow()), created)
    {
      if threadLoop {
        return 0;
      }
      threadLoop := true;
      threadError := false;
      if !created {
        threadLoop := false;
        return -1;
      }
      status := 0;
    }

    /**
     * `stop_thread`; `stopped` is whether cancelling or joining the thread
     * succeeded. `shutdown`, which chooses between the two, is kept only to
     * mirror `stop_thread(int shutdown)`: the choice reaches the flags and
     * the status only through `stopped`.
     */
    method StopThread(shutdown: bool, stopped: bool) returns (status: int)
      requires Valid()
      modifies this`threadLoop, this`threadError
      ensures Valid()
      ensures Outcome(status, FlagsNow()) == Stop(old(FlagsNow()), stopped)
    {
      if !threadLoop {
        return -1;
      }
      threadLoop := false;
      status := if stopped then 0 else -1;
      threadError := false;
    }

    /**
     * One pass of the producer loop in `sysevent_thread`, received at time
     * `now`. The loop ends when its flag is clear. A receive error raises the
     * error flag and ends the loop. A datagram that fills the whole receive
     * buffer is dropped; any other is pushed (up to its first NUL), and is
     * lost if the ring is full. `keepGoing` says whether the loop goes on.
     * The thread runs only while the error flag is clear: `start_thread`
     * clears it before creating the thread, and the thread exits as soon as
     * it raises it.
     */
    method ProducerIteration(recv: Received, now: int) returns (keepGoing: bool)
      requires Valid() && !threadError
      modifies ring`head, ring.buffer, ring.timestamp, this`threadError
      ensures Valid()
      ensures threadLoop == old(threadLoop)
      ensures !old(threadLoop) ==> !keepGoing && !threadError && ring.Contents() == old(ring.Contents())
      ensures old(threadLoop) && recv.RecvFailed? ==>
                !keepGoing && FlagsNow() == Fault(old(FlagsNow())) && ring.Contents() == old(ring.Contents())
      ensures old(threadLoop) && recv.Datagram? ==>
                keepGoing && !threadError
                && ring.Contents() == if |recv.data| < bufferSize
                                      then Pushed(old(ring.Contents()), Entry(CString(recv.data), now), ring.maxLen)
                                      else old(ring.Contents())
    {
      if !threadLoop {
        return false;
      }
      var failed := false;
      match recv {
        case RecvFailed =>
          failed := true;
        case Datagram(d) =>
          var count := if |d| < bufferSize then |d| else bufferSize;
          if count < bufferSize {
            var text := CString(d);
            PushedFits(ring.Contents(), Entry(text, now), ring.maxLen, bufferSize);
            var accepted := ring.Push(text, now);
          }
      }
      if failed {
        threadError := true;
        return false;
      }
      keepGoing := threadLoop;
    }

    /**
     * `gen_metadata_payload`: build the payload with the counter's next
     * value; the counter keeps that value exactly when the payload took it.
     */
    method GenMetadataPayload(a: Args, fails: set<Step>) returns (m: Meta)
      modifies this`eventId
      ensures m == Build(a, old(eventId) + 1, fails)
      ensures eventId == if m.eventId.Some? then old(eventId) + 1 else old(eventId)
    {
      m := Build(a, eventId + 1, fails);
      if m.eventId.Some? {
        eventId := eventId + 1;
      }
    }

    /**
     * `sysevent_dispatch_notification` for the `k`-th drained entry. The
     * notification is dispatched whatever the payload's outcome.
     */
    method DispatchNotification(route: Route, e: Entry, env: Env, k: nat) returns (n: Notification)
      requires route != Skip
      modifies this`eventId
      ensures n == Notification(SeverityOfRoute(route, env), env.hostname,
                                Build(ArgsOf(route, e, env), old(eventId) + 1, env.metaFails(k)))
      ensures eventId == if n.meta.eventId.Some? then old(eventId) + 1 else old(eventId)
    {
      var severity := SeverityOfRoute(route, env);
      var m := GenMetadataPayload(ArgsOf(route, e, env), env.metaFails(k));
      n := Notification(severity, env.hostname, m);
    }

    /**
     * One pass of the loop of `sysevent_read`, for the `k`-th drained entry:
     * the entry is filtered, and dispatched if it passes.
     */
    method HandleEntry(e: Entry, k: nat, env: Env) returns (n: Option<Notification>)
      modifies this`eventId
      ensures (n, eventId) == Handle(e, k, monitorAll, env, old(eventId))
    {
      var route := RouteOf(e.text, env.parse(e.text), monitorAll, env.ignored);
      if route == Skip {
        return None;
      }
      var note := DispatchNotification(route, e, env, k);
      n := Some(note);
    }

    /** The loop of `sysevent_read` over a whole drained batch, in order. */
    method HandleBatch(entries: seq<Entry>, env: Env) returns (notes: seq<Notification>)
      modifies this`eventId
      ensures notes == Collect(entries, monitorAll, env, old(eventId)).0
      ensures eventId == Collect(entries, monitorAll, env, old(eventId)).1
    {
      notes := [];
      var k := 0;
      while k < |entries|
        invariant 0 <= k <= |entries|
        invariant notes == Collect(entries[..k], monitorAll, env, old(eventId)).0
        invariant eventId == Collect(entries[..k], monitorAll, env, old(eventId)).1
      {
        ghost var before := eventId;
        var n := HandleEntry(entries[k], k, env);
        CollectSnoc(entries, k, monitorAll, env, old(eventId), notes, before, n, eventId);
        notes := notes + if n.Some? then [n.value] else [];
        k := k + 1;
      }
      assert entries[..k] == entries;
    }

    /**
     * `sysevent_read`. With the error flag set it restarts the thread
     * (`stopped` and `created` are the join and create outcomes), returns -1
     * and leaves the ring alone. Otherwise it drains the whole ring and
     * returns the notifications of the batch, in order.
     */
    method Read(env: Env, stopped: bool, created: bool) returns (status: int, notes: seq<Notification>)
      requires Valid()
      modifies this`eventId, this`threadLoop, this`threadError, ring`tail
      ensures Valid()
      ensures old(threadError) ==>
                status == -1 && notes == [] && FlagsNow() == Restart(old(FlagsNow()), stopped, created)
                && ring.Contents() == old(ring.Contents()) && eventId == old(eventId)
      ensures !old(threadError) ==>
                status == 0 && FlagsNow() == old(FlagsNow()) && ring.Contents() == []
                && notes == Collect(old(ring.Contents()), monitorAll, env, old(eventId)).0
                && eventId == Collect(old(ring.Contents()), monitorAll, env, old(eventId)).1
    {
      if threadError {
        var stopStatus := StopThread(false, stopped);
        var startStatus := StartThread(created);
        return -1, [];
      }
      var entries := ring.DrainAll();
      notes := HandleBatch(entries, env);
      status := 0;
    }
  }

  /**
   * Three slots, five datagrams and no read in between: the first two are
   * kept, the other three are reported full, and a drain returns the two
   * kept in the order they arrived.
   */
  method ThreeSlotScenario(m: seq<Entry>) returns (accepted: seq<bool>, drained: seq<Entry>)
    requires |m| == 5
    ensures accepted == [true, true, false, false, false]
    ensures drained == m[..2]
  {
    var r := new Ring(3);
    accepted := [];
    for i := 0 to 5
      invariant fresh(r) && fresh(r.buffer) && fresh(r.timestamp)
      invariant r.Valid() && r.maxLen == 3 && |accepted| == i
      invariant forall j :: 0 <= j < i ==> accepted[j] == (j < 2)
      invariant r.Contents() == m[..if i < 2 then i else 2]
    {
      var ok := r.Push(m[i].text, m[i].timestamp);
      assert ok == (i < 2);
      assert m[i] == Entry(m[i].text, m[i].timestamp);
      if i < 2 {
        assert m[..i + 1] == m[..i] + [m[i]];
      }
      accepted := accepted + [ok];
    }
    drained := r.DrainAll();
    assert accepted == [true, true, false, false, false];
  }
}
