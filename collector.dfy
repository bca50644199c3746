/**
 * What `sysevent_read` and `sysevent_dispatch_notification` decide for each
 * drained entry: the text the filter looks at, whether the entry is
 * dispatched and by which path, the arguments of the payload, and the
 * notification that results. JSON decoding, the regular-expression filter
 * and `atoi` are inputs.
 */
module Collector {
  import opened Wrappers
  import opened Classify
  import opened Payload
  import opened RingBuffer

  /**
   * A successfully parsed JSON entry, reduced to the strings read from it:
   * "@message", "@fields"/"severity", "@fields"/"severity-num",
   * "@fields"/"program" and "@source_host"; `None` when absent.
   */
  datatype JsonNode = JsonNode(message: Option<string>, severity: Option<string>,
                               severityNum: Option<string>, program: Option<string>,
                               sourceHost: Option<string>)

  /**
   * The collaborators of a read: the JSON parser, the regular-expression
   * filter (`ignored(s)` is `ignorelist_match` returning non-zero), `atoi`,
   * the local host name, and which metadata calls fail for the `k`-th entry.
   */
  datatype Env = Env(parse: string -> Option<JsonNode>, ignored: string -> bool,
                     atoi: string -> int, hostname: string, metaFails: nat -> set<Step>)

  /**
   * The text matched against the filter: none when every message is
   * monitored; otherwise "@message" of a parsed entry and the raw text of
   * one that is not JSON.
   */
  function FilterSubject(raw: string, node: Option<JsonNode>, monitorAll: bool): (r: Option<string>)
    ensures r.None? <==> monitorAll
    ensures !monitorAll && node.None? ==> r == Some(raw)
    ensures !monitorAll && node.Some? ==> r == Some(node.value.message.GetOr(""))
  {
    if monitorAll then None
    else if node.Some? then Some(node.value.message.GetOr(""))
    else Some(raw)
  }

  /** How an entry leaves the drain loop. */
  datatype Route = Skip | Parsed(node: JsonNode) | Raw

  /**
   * `is_match` and the choice of dispatch path: an entry is dispatched when
   * there is no subject or the filter does not ignore it; a dispatched entry
   * that parsed as JSON goes by the parsed path, any other by the raw path.
   */
  function RouteOf(raw: string, node: Option<JsonNode>, monitorAll: bool, ignored: string -> bool): (r: Route)
    ensures r == Skip <==> FilterSubject(raw, node, monitorAll).Some? && ignored(FilterSubject(raw, node, monitorAll).value)
    ensures r.Parsed? ==> node == Some(r.node)
    ensures r.Raw? ==> node.None?
  {
    var subject := FilterSubject(raw, node, monitorAll);
    if subject.Some? && ignored(subject.value) then Skip
    else if node.Some? then Parsed(node.value)
    else Raw
  }

  /**
   * The filter decision: with no pattern configured every entry is
   * dispatched; otherwise an entry is dropped exactly when the filter ignores
   * its subject. The parsed path is taken exactly for dispatched JSON.
   */
  lemma RouteDecision(raw: string, node: Option<JsonNode>, monitorAll: bool, ignored: string -> bool)
    ensures monitorAll ==> RouteOf(raw, node, monitorAll, ignored) != Skip
    ensures !monitorAll && node.None? ==> (RouteOf(raw, node, monitorAll, ignored) == Skip <==> ignored(raw))
    ensures !monitorAll && node.Some? ==>
              (RouteOf(raw, node, monitorAll, ignored) == Skip <==> ignored(node.value.message.GetOr("")))
    ensures RouteOf(raw, node, monitorAll, ignored).Parsed? <==>
              node.Some? && RouteOf(raw, node, monitorAll, ignored) != Skip
    ensures RouteOf(raw, node, monitorAll, ignored).Parsed? ==> RouteOf(raw, node, monitorAll, ignored).node == node.value
  {
  }

  /**
   * The arguments `sysevent_dispatch_notification` hands to the payload: for
   * a parsed entry the fields it found, -1 for a missing severity number,
   * and "@source_host" or else the local host name; for a raw entry its
   * whole text as the message and nothing else.
   */
  function ArgsOf(route: Route, e: Entry, env: Env): (a: Args)
    requires route != Skip
    ensures a.timestamp == e.timestamp
    ensures route.Raw? ==> a == Args(Some(e.text), None, -1, None, env.hostname, e.timestamp)
    ensures route.Parsed? ==> a.host == route.node.sourceHost.GetOr(env.hostname)
    ensures route.Parsed? ==> a.msg == route.node.message && a.process == route.node.program
    ensures route.Parsed? ==> a.sev == route.node.severity
    ensures route.Parsed? ==> a.sevNum == SeverityNumber(route.node.severityNum, env.atoi)
  {
    match route
    case Parsed(n) =>
      Args(n.message, n.severity, SeverityNumber(n.severityNum, env.atoi), n.program,
           n.sourceHost.GetOr(env.hostname), e.timestamp)
    case Raw => Args(Some(e.text), None, -1, None, env.hostname, e.timestamp)
  }

  /**
   * A dispatched notification: its severity, its host (always the local
   * host name) and its metadata.
   */
  datatype Notification = Notification(severity: NotifSeverity, host: string, meta: Meta)

  /** The notification severity of a dispatched entry. */
  function SeverityOfRoute(route: Route, env: Env): (r: NotifSeverity)
    requires route != Skip
    ensures route.Raw? ==> r == Okay
    ensures r == Failure <==> route.Parsed? && route.node.severityNum.Some? && env.atoi(route.node.severityNum.value) < 4
  {
    if route.Parsed? then NotificationSeverity(route.node.severityNum, env.atoi) else Okay
  }

  /**
   * Raw entries carry the unknown priority and an OKAY severity; a FAILURE
   * notification always has the unknown priority.
   */
  lemma SeverityAndPriority(route: Route, e: Entry, env: Env)
    requires route != Skip
    ensures route.Raw? ==> SeverityOfRoute(route, env) == Okay && PriorityOf(ArgsOf(route, e, env).sevNum) == Unknown
    ensures SeverityOfRoute(route, env) == Failure ==> PriorityOf(ArgsOf(route, e, env).sevNum) == Unknown
  {
    if route.Parsed? {
      FailureIsUnknownPriority(route.node.severityNum, env.atoi);
    }
  }

  /**
   * One entry of the drain loop, the `k`-th, with the event counter at `id`:
   * the notification dispatched for it, if any, and the counter afterwards.
   */
  function Handle(e: Entry, k: nat, monitorAll: bool, env: Env, id: int): (r: (Option<Notification>, int))
    ensures r.0.None? <==> RouteOf(e.text, env.parse(e.text), monitorAll, env.ignored) == Skip
    ensures r.0.Some? ==> r.0.value.host == env.hostname
    ensures r.1 == if r.0.Some? && r.0.value.meta.eventId.Some? then id + 1 else id
  {
    var route := RouteOf(e.text, env.parse(e.text), monitorAll, env.ignored);
    if route == Skip then (None, id)
    else
      var m := Build(ArgsOf(route, e, env), id + 1, env.metaFails(k));
      (Some(Notification(SeverityOfRoute(route, env), env.hostname, m)),
       if m.eventId.Some? then id + 1 else id)
  }

  /**
   * The notifications of a whole drained batch, in order, and the event
   * counter afterwards: at most one notification per entry, and the counter
   * grows by at most one per notification.
   */
  function Collect(entries: seq<Entry>, monitorAll: bool, env: Env, id: int): (r: (seq<Notification>, int))
    ensures |r.0| <= |entries|
    ensures id <= r.1 <= id + |r.0|
    decreases |entries|
  {
    if entries == [] then ([], id)
    else
      var k := |entries| - 1;
      var prev := Collect(entries[..k], monitorAll, env, id);
      var h := Handle(entries[k], k, monitorAll, env, prev.1);
      (prev.0 + (if h.0.Some? then [h.0.value] else []), h.1)
  }

  /** Handling one more drained entry extends the batch by that entry's outcome. */
  lemma CollectSnoc(entries: seq<Entry>, k: nat, monitorAll: bool, env: Env, id: int,
                    notes: seq<Notification>, count: int, n: Option<Notification>, count': int)
    requires k < |entries|
    requires notes == Collect(entries[..k], monitorAll, env, id).0
    requires count == Collect(entries[..k], monitorAll, env, id).1
    requires (n, count') == Handle(entries[k], k, monitorAll, env, count)
    ensures Collect(entries[..k + 1], monitorAll, env, id).0 == notes + if n.Some? then [n.value] else []
    ensures Collect(entries[..k + 1], monitorAll, env, id).1 == count'
  {
    assert entries[..k + 1][..k] == entries[..k];
  }

  /** With no pattern configured, every drained entry is dispatched. */
  lemma {:induction false} CollectMonitorAll(entries: seq<Entry>, env: Env, id: int)
    ensures |Collect(entries, true, env, id).0| == |entries|
    decreases |entries|
  {
    if entries != [] {
      var k := |entries| - 1;
      CollectMonitorAll(entries[..k], env, id);
      RouteDecision(entries[k].text, env.parse(entries[k].text), true, env.ignored);
    }
  }

  /** The event ids taken by a sequence of notifications, in order. */
  function IdsOf(notes: seq<Notification>): seq<int>
    decreases |notes|
  {
    if notes == [] then []
    else
      var n := notes[|notes| - 1];
      IdsOf(notes[..|notes| - 1]) + (if n.meta.eventId.Some? then [n.meta.eventId.value] else [])
  }

  lemma {:induction false} IdsOfAppend(notes: seq<Notification>, n: Notification)
    ensures IdsOf(notes + [n]) == IdsOf(notes) + (if n.meta.eventId.Some? then [n.meta.eventId.value] else [])
  {
    assert (notes + [n])[..|notes|] == notes;
  }

  /**
   * One entry takes at most the next id: the counter moves exactly when the
   * entry's notification took id `id + 1`.
   */
  lemma HandleTakesNextId(e: Entry, k: nat, monitorAll: bool, env: Env, id: int)
    ensures Handle(e, k, monitorAll, env, id).0.None? ==> Handle(e, k, monitorAll, env, id).1 == id
    ensures Handle(e, k, monitorAll, env, id).0.Some? ==>
              var n := Handle(e, k, monitorAll, env, id).0.value;
              (n.meta.eventId.Some? ==> n.meta.eventId.value == id + 1 && Handle(e, k, monitorAll, env, id).1 == id + 1)
              && (n.meta.eventId.None? ==> Handle(e, k, monitorAll, env, id).1 == id)
  {
    var route := RouteOf(e.text, env.parse(e.text), monitorAll, env.ignored);
    if route != Skip {
      BuildSpec(ArgsOf(route, e, env), id + 1, env.metaFails(k));
    }
  }

  /**
   * Ids `id + 1` up to `count` in order stay consecutive when a notification
   * that takes the next id, or none, is added.
   */
  lemma IdsExtend(notes: seq<Notification>, count: int, id: int, n: Option<Notification>,
                  notes': seq<Notification>, count': int)
    requires notes' == notes + if n.Some? then [n.value] else []
    requires |IdsOf(notes)| == count - id
    requires forall j :: 0 <= j < |IdsOf(notes)| ==> IdsOf(notes)[j] == id + 1 + j
    requires n.None? || n.value.meta.eventId.None? ==> count' == count
    requires n.Some? && n.value.meta.eventId.Some? ==> n.value.meta.eventId.value == count + 1 && count' == count + 1
    ensures |IdsOf(notes')| == count' - id
    ensures forall j :: 0 <= j < |IdsOf(notes')| ==> IdsOf(notes')[j] == id + 1 + j
  {
    if n.Some? {
      IdsOfAppend(notes, n.value);
    } else {
      assert notes + [] == notes;
    }
  }

  /**
   * Event ids are never reused: across a batch, the ids taken are exactly
   * `id + 1`, `id + 2`, ... up to the final counter, in order.
   */
  lemma {:induction false} CollectIdsConsecutive(entries: seq<Entry>, monitorAll: bool, env: Env, id: int)
    ensures |IdsOf(Collect(entries, monitorAll, env, id).0)| == Collect(entries, monitorAll, env, id).1 - id
    ensures forall j :: 0 <= j < |IdsOf(Collect(entries, monitorAll, env, id).0)| ==>
              IdsOf(Collect(entries, monitorAll, env, id).0)[j] == id + 1 + j
    decreases |entries|
  {
    if entries != [] {
      var k := |entries| - 1;
      var prev := Collect(entries[..k], monitorAll, env, id);
      CollectIdsConsecutive(entries[..k], monitorAll, env, id);
      var h := Handle(entries[k], k, monitorAll, env, prev.1);
      HandleTakesNextId(entries[k], k, monitorAll, env, prev.1);
      IdsExtend(prev.0, prev.1, id, h.0, Collect(entries, monitorAll, env, id).0, h.1);
    }
  }

  /**
   * A JSON entry with "@message" "disk full" and "severity-num" "4" gives one
   * OKAY notification from the local host whose payload, when complete,
   * carries the medium priority and the message.
   */
  lemma DiskFullScenario(text: string, t: int, env: Env, id: int)
    requires env.parse(text) == Some(JsonNode(Some("disk full"), None, Some("4"), None, None))
    requires env.atoi("4") == 4
    requires env.metaFails(0) == {}
    ensures |Collect([Entry(text, t)], true, env, id).0| == 1
    ensures Collect([Entry(text, t)], true, env, id).0[0].severity == Okay
    ensures Collect([Entry(text, t)], true, env, id).0[0].host == env.hostname
    ensures MetaEntry("priority", Str("medium")) in Collect([Entry(text, t)], true, env, id).0[0].meta.header
    ensures MetaEntry("syslogMsg", Str("disk full")) in Collect([Entry(text, t)], true, env, id).0[0].meta.fields
  {
    var e := Entry(text, t);
    assert [e][..0] == [];
    var route := RouteOf(text, env.parse(text), true, env.ignored);
    var a := ArgsOf(route, e, env);
    BuildSpec(a, id + 1, {});
    assert FullHeader(a, id + 1)[4] == MetaEntry("priority", Str("medium"));
    assert FullFields(a)[3] == MetaEntry("syslogMsg", Str("disk full"));
  }

  /**
   * A non-JSON entry with no filter gives one notification whose message is
   * the raw text verbatim and whose optional fields are absent.
   */
  lemma RawTextScenario(text: string, t: int, env: Env, id: int)
    requires env.parse(text) == None
    requires env.metaFails(0) == {}
    ensures |Collect([Entry(text, t)], true, env, id).0| == 1
    ensures Collect([Entry(text, t)], true, env, id).0[0].severity == Okay
    ensures Collect([Entry(text, t)], true, env, id).0[0].meta.fields == [
              MetaEntry("eventSourceHost", Str(env.hostname)),
              MetaEntry("eventSourceType", Str("host")),
              MetaEntry("syslogFieldsVersion", Dbl(1.0)),
              MetaEntry("syslogMsg", Str(text)),
              MetaEntry("syslogProc", NullStr),
              MetaEntry("syslogTag", Str("NILVALUE")) ]
  {
    var e := Entry(text, t);
    assert [e][..0] == [];
    var route := RouteOf(text, env.parse(text), true, env.ignored);
    BuildSpec(ArgsOf(route, e, env), id + 1, {});
  }
}
