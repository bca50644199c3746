/**
 * `gen_metadata_payload`: the chain of metadata calls that builds the event
 * header ("ves") and its nested "syslogFields" object. The chain is a list of
 * calls into the host's notification API, run in order; any call may fail,
 * and which ones fail is an input. A failure jumps to `err`, which ends the
 * chain.
 */
module Payload {
  import opened Wrappers
  import opened Classify

  /** A metadata value; `NullStr` is a string argument that is a NULL pointer. */
  datatype MetaValue = Str(s: string) | NullStr | UInt(n: int) | Dbl(r: real) | Clock | Nested

  datatype MetaEntry = MetaEntry(key: string, value: MetaValue)

  /** The calls of the chain that can fail, in the order they are made. */
  datatype Step =
    | AddVes | GetHeader | Domain | EventId | EventName | LastEpoch | PriorityField
    | ReportingEntity | Sequence | SourceName | StartEpoch | Version
    | SyslogFields | GetDomain | SourceHost | SourceType | FieldsVersion
    | SyslogMsg | SyslogProc | SyslogSev | SyslogTag

  /** The arguments of `gen_metadata_payload`; `None` is a NULL pointer. */
  datatype Args = Args(msg: Option<string>, sev: Option<string>, sevNum: int,
                       process: Option<string>, host: string, timestamp: int)

  /**
   * The metadata built so far: `ok` while no call has failed, the event id
   * taken from the counter (if the chain got that far), the header entries
   * and the entries of the nested "syslogFields" object.
   */
  datatype Meta = Meta(ok: bool, eventId: Option<int>, header: seq<MetaEntry>, fields: seq<MetaEntry>)

  function Text(s: Option<string>): MetaValue {
    if s.Some? then Str(s.value) else NullStr
  }

  function EventNameOf(host: string): string {
    "host " + host + " rsyslog message"
  }

  /** Every entry of a complete header, in order. */
  function FullHeader(a: Args, id: int): seq<MetaEntry> {
    [ MetaEntry("domain", Str("syslog")),
      MetaEntry("eventId", UInt(id)),
      MetaEntry("eventName", Str(EventNameOf(a.host))),
      MetaEntry("lastEpochMicrosec", Clock),
      MetaEntry("priority", Str(PriorityLabel(PriorityOf(a.sevNum)))),
      MetaEntry("reportingEntityName", Str("collectd sysevent plugin")),
      MetaEntry("sequence", UInt(0)),
      MetaEntry("sourceName", Text(a.process)),
      MetaEntry("startEpochMicrosec", UInt(a.timestamp)),
      MetaEntry("version", Dbl(1.0)),
      MetaEntry("syslogFields", Nested) ]
  }

  /** Every entry of a complete "syslogFields" object, in order; "syslogSev" only when known. */
  function FullFields(a: Args): seq<MetaEntry> {
    [ MetaEntry("eventSourceHost", Str(a.host)),
      MetaEntry("eventSourceType", Str("host")),
      MetaEntry("syslogFieldsVersion", Dbl(1.0)),
      MetaEntry("syslogMsg", Text(a.msg)),
      MetaEntry("syslogProc", Text(a.process)) ]
    + (if a.sev.Some? then [MetaEntry("syslogSev", Str(a.sev.value))] else [])
    + [ MetaEntry("syslogTag", Str("NILVALUE")) ]
  }

  /** The header entries' calls, in order: one per entry of `FullHeader`. */
  const HeaderSteps: seq<Step> :=
    [ Domain, EventId, EventName, LastEpoch, PriorityField, ReportingEntity,
      Sequence, SourceName, StartEpoch, Version, SyslogFields ]

  /** The "syslogFields" entries' calls, in order: one per entry of `FullFields(a)`. */
  function FieldSteps(a: Args): seq<Step> {
    [SourceHost, SourceType, FieldsVersion, SyslogMsg, SyslogProc]
    + (if a.sev.Some? then [SyslogSev] else [])
    + [SyslogTag]
  }

  /** Every call that can fail in a complete chain for `a`, in order. */
  function AttemptedSteps(a: Args): seq<Step> {
    [AddVes, GetHeader] + HeaderSteps + [GetDomain] + FieldSteps(a)
  }

  /** Where an append puts its entry. */
  datatype Target = Header | Fields

  /** One call of the chain. */
  datatype Call =
      /** Creating or looking up a nested object: appends nothing. */
    | Nest(step: Step)
      /** An append; on failure, `goto err`. */
    | Append(step: Step, target: Target, entry: MetaEntry)
      /** `event_id = event_id + 1`, which cannot fail; `id` is the new value. */
    | TakeEventId(id: int)
      /**
       * `if (append(first) != 0) if (append(second) != 0) goto err;`: a header
       * append whose own `goto err` is missing, so that the second entry is
       * tried only when the first append failed.
       */
    | Fallback(first: Step, firstEntry: MetaEntry, second: Step, secondEntry: MetaEntry)

  /** One call on the metadata built so far; nothing runs after a failure. */
  function Apply(c: Call, m: Meta, fails: set<Step>): Meta {
    if !m.ok then m
    else match c
      case Nest(s) => if s in fails then m.(ok := false) else m
      case Append(s, t, e) =>
        if s in fails then m.(ok := false)
        else if t == Header then m.(header := m.header + [e])
        else m.(fields := m.fields + [e])
      case TakeEventId(id) => m.(eventId := Some(id))
      case Fallback(s1, e1, s2, e2) =>
        if s1 !in fails then m.(header := m.header + [e1])
        else if s2 in fails then m.(ok := false)
        else m.(header := m.header + [e2])
  }

  /** The calls `cs`, run in order from `m`. */
  function Run(cs: seq<Call>, m: Meta, fails: set<Step>): Meta
    decreases |cs|
  {
    if cs == [] then m else Run(cs[1..], Apply(cs[0], m, fails), fails)
  }

  /** One append per step, each with its entry, all to `t`. */
  function Appends(t: Target, steps: seq<Step>, entries: seq<MetaEntry>): seq<Call>
    requires |steps| == |entries|
    decreases |steps|
  {
    if steps == [] then [] else [Append(steps[0], t, entries[0])] + Appends(t, steps[1..], entries[1..])
  }

  /** The metadata before the first call: nothing built, nothing failed. */
  const Empty: Meta := Meta(true, None, [], [])

  /** Creating and acquiring the header, "domain", and taking the event id. */
  function Opening(a: Args, id: int): seq<Call> {
    [Nest(AddVes), Nest(GetHeader), Append(Domain, Header, FullHeader(a, id)[0]), TakeEventId(id)]
  }

  /** "version", "syslogFields", acquiring it, and all of its entries. */
  function Closing(a: Args, id: int): seq<Call> {
    Appends(Header, HeaderSteps[9..], FullHeader(a, id)[9..])
    + [Nest(GetDomain)]
    + Appends(Fields, FieldSteps(a), FullFields(a))
  }

  /** The calls of the chain as it is evidently meant to run: every entry in order. */
  function Calls(a: Args, id: int): seq<Call> {
    var h := FullHeader(a, id);
    Opening(a, id)
    + Appends(Header, HeaderSteps[1..5], h[1..5])
    + Appends(Header, HeaderSteps[5..9], h[5..9])
    + Closing(a, id)
  }

  /**
   * The header entries src/sysevent.c means to write, with "priority" as it
   * is actually written: its label loses the last character.
   */
  function HeaderAsWritten(a: Args, id: int): seq<MetaEntry> {
    FullHeader(a, id)[4 := MetaEntry("priority", Str(PriorityLabelAsWritten(PriorityOf(a.sevNum))))]
  }

  /** The calls as written up to and including "priority": each one ends the chain on failure. */
  function HeadAsWritten(a: Args, id: int): seq<Call> {
    Opening(a, id) + Appends(Header, HeaderSteps[1..5], HeaderAsWritten(a, id)[1..5])
  }

  /**
   * "reportingEntityName", "sequence", "sourceName" and
   * "startEpochMicrosec" as written: two appends without `goto err`.
   */
  function FallbacksAsWritten(a: Args, id: int): seq<Call> {
    var h := HeaderAsWritten(a, id);
    [Fallback(ReportingEntity, h[5], Sequence, h[6]), Fallback(SourceName, h[7], StartEpoch, h[8])]
  }

  /** The calls of the chain as src/sysevent.c makes them. */
  function CallsAsWritten(a: Args, id: int): seq<Call> {
    HeadAsWritten(a, id) + FallbacksAsWritten(a, id) + Closing(a, id)
  }

  /** The payload as the chain is evidently meant to run. */
  function Build(a: Args, id: int, fails: set<Step>): Meta {
    Run(Calls(a, id), Empty, fails)
  }

  /** The payload as src/sysevent.c builds it. */
  function BuildAsWritten(a: Args, id: int, fails: set<Step>): Meta {
    Run(CallsAsWritten(a, id), Empty, fails)
  }

  /** Running two lists of calls one after the other is running them joined. */
  lemma {:induction false} RunConcat(x: seq<Call>, y: seq<Call>, m: Meta, fails: set<Step>)
    ensures Run(x + y, m, fails) == Run(y, Run(x, m, fails), fails)
    decreases |x|
  {
    if x == [] {
      assert x + y == y;
    } else {
      assert (x + y)[1..] == x[1..] + y;
      RunConcat(x[1..], y, Apply(x[0], m, fails), fails);
    }
  }

  /** None of the calls `s` fails. */
  predicate NoneFail(s: seq<Step>, fails: set<Step>) {
    forall st :: st in s ==> st !in fails
  }

  /**
   * The chain so far has made the calls `s`, meant to produce header `h` and
   * fields `f`: it produced a prefix of them, it is still ok exactly when
   * none of those calls failed, and then it produced all of them.
   */
  predicate Track(m: Meta, h: seq<MetaEntry>, f: seq<MetaEntry>, s: seq<Step>, fails: set<Step>) {
    && m.header <= h && m.fields <= f
    && (m.ok <==> NoneFail(s, fails))
    && (m.ok ==> m.header == h && m.fields == f)
  }

  /**
   * A run of appends extends what is tracked by its entries and its calls,
   * whatever fails, and leaves the event id alone.
   */
  lemma {:induction false} AppendsTrack(t: Target, steps: seq<Step>, entries: seq<MetaEntry>,
                                        m: Meta, h: seq<MetaEntry>, f: seq<MetaEntry>, s: seq<Step>, fails: set<Step>)
    requires |steps| == |entries|
    requires Track(m, h, f, s, fails)
    ensures t == Header ==> Track(Run(Appends(t, steps, entries), m, fails), h + entries, f, s + steps, fails)
    ensures t == Fields ==> Track(Run(Appends(t, steps, entries), m, fails), h, f + entries, s + steps, fails)
    ensures Run(Appends(t, steps, entries), m, fails).eventId == m.eventId
    decreases |steps|
  {
    if steps == [] {
      assert h + entries == h && f + entries == f && s + steps == s;
    } else {
      var e := entries[0];
      var m1 := Apply(Append(steps[0], t, e), m, fails);
      assert Run(Appends(t, steps, entries), m, fails) == Run(Appends(t, steps[1..], entries[1..]), m1, fails);
      assert s + steps == s + [steps[0]] + steps[1..];
      if t == Header {
        AppendsTrack(t, steps[1..], entries[1..], m1, h + [e], f, s + [steps[0]], fails);
        assert h + entries == h + [e] + entries[1..];
      } else {
        AppendsTrack(t, steps[1..], entries[1..], m1, h, f + [e], s + [steps[0]], fails);
        assert f + entries == f + [e] + entries[1..];
      }
    }
  }

  /**
   * The opening calls track "domain" and their three calls that can fail,
   * and take the event id exactly when those three succeed.
   */
  lemma {:induction false} OpeningTracks(a: Args, id: int, fails: set<Step>)
    ensures Track(Run(Opening(a, id), Empty, fails), FullHeader(a, id)[..1], [], [AddVes, GetHeader] + HeaderSteps[..1], fails)
    ensures Run(Opening(a, id), Empty, fails).eventId
         == if AddVes !in fails && GetHeader !in fails && Domain !in fails then Some(id) else None
  {
    var o := Opening(a, id);
    var m1 := Apply(o[0], Empty, fails);
    var m2 := Apply(o[1], m1, fails);
    var m3 := Apply(o[2], m2, fails);
    assert Run(o, Empty, fails) == Run(o[1..], m1, fails);
    assert Run(o[1..], m1, fails) == Run(o[2..], m2, fails);
    assert Run(o[2..], m2, fails) == Run(o[3..], m3, fails);
    assert Run(o[3..], m3, fails) == Run([], Apply(o[3], m3, fails), fails);
    assert [AddVes, GetHeader] + HeaderSteps[..1] == [AddVes, GetHeader, Domain];
    assert FullHeader(a, id)[..1] == [FullHeader(a, id)[0]];
  }

  /** The closing calls extend what is tracked by "version", "syslogFields" and all fields. */
  lemma {:induction false} ClosingTracks(a: Args, id: int, m: Meta, hp: seq<MetaEntry>, s: seq<Step>, fails: set<Step>)
    requires Track(m, hp, [], s, fails)
    ensures Track(Run(Closing(a, id), m, fails), hp + FullHeader(a, id)[9..], FullFields(a),
                  s + HeaderSteps[9..] + [GetDomain] + FieldSteps(a), fails)
    ensures Run(Closing(a, id), m, fails).eventId == m.eventId
  {
    var h := FullHeader(a, id);
    var x := Appends(Header, HeaderSteps[9..], h[9..]);
    var u := Appends(Fields, FieldSteps(a), FullFields(a));
    RunConcat(x + [Nest(GetDomain)], u, m, fails);
    RunConcat(x, [Nest(GetDomain)], m, fails);
    AppendsTrack(Header, HeaderSteps[9..], h[9..], m, hp, [], s, fails);
    var m1 := Run(x, m, fails);
    var m2 := Run([Nest(GetDomain)], m1, fails);
    assert m2 == Apply(Nest(GetDomain), m1, fails);
    var s2 := s + HeaderSteps[9..] + [GetDomain];
    assert Track(m2, hp + h[9..], [], s2, fails);
    AppendsTrack(Fields, FieldSteps(a), FullFields(a), m2, hp + h[9..], [], s2, fails);
  }

  /** Cutting a sequence at three points and joining the pieces gives it back. */
  lemma {:induction false} JoinPieces<T>(p: seq<T>, x: seq<T>, i: int, j: int, k: int)
    requires 0 <= i <= j <= k <= |x|
    ensures p + x[..i] + x[i..j] + x[j..k] + x[k..] == p + x
  {
    assert x[..i] + x[i..j] + x[j..k] + x[k..] == x;
    calc {
      p + x[..i] + x[i..j] + x[j..k] + x[k..];
      p + (x[..i] + x[i..j] + x[j..k] + x[k..]);
    }
  }

  /**
   * The payload as the chain is meant to run always holds a prefix of the
   * complete metadata; it is complete exactly when none of the calls made
   * for `a` failed; and the event id `id` is taken exactly when the header
   * and its "domain" entry were created.
   */
  lemma BuildSpec(a: Args, id: int, fails: set<Step>)
    ensures Build(a, id, fails).header <= FullHeader(a, id)
    ensures Build(a, id, fails).fields <= FullFields(a)
    ensures Build(a, id, fails).ok <==> forall st :: st in AttemptedSteps(a) ==> st !in fails
    ensures Build(a, id, fails).ok ==>
              Build(a, id, fails).header == FullHeader(a, id) && Build(a, id, fails).fields == FullFields(a)
    ensures Build(a, id, fails).eventId
         == if AddVes !in fails && GetHeader !in fails && Domain !in fails then Some(id) else None
  {
    BuildTracks(a, id, fails);
  }

  /** The whole intended chain tracks the complete metadata and every call it makes. */
  lemma {:induction false} BuildTracks(a: Args, id: int, fails: set<Step>)
    ensures Track(Build(a, id, fails), FullHeader(a, id), FullFields(a), AttemptedSteps(a), fails)
    ensures Build(a, id, fails).eventId
         == if AddVes !in fails && GetHeader !in fails && Domain !in fails then Some(id) else None
  {
    var h := FullHeader(a, id);
    var o := Opening(a, id);
    var p := Appends(Header, HeaderSteps[1..5], h[1..5]);
    var q := Appends(Header, HeaderSteps[5..9], h[5..9]);
    RunConcat(o + p + q, Closing(a, id), Empty, fails);
    RunConcat(o + p, q, Empty, fails);
    RunConcat(o, p, Empty, fails);
    OpeningTracks(a, id, fails);
    var s0 := [AddVes, GetHeader] + HeaderSteps[..1];
    var m0 := Run(o, Empty, fails);
    AppendsTrack(Header, HeaderSteps[1..5], h[1..5], m0, h[..1], [], s0, fails);
    var m1 := Run(p, m0, fails);
    AppendsTrack(Header, HeaderSteps[5..9], h[5..9], m1, h[..1] + h[1..5], [], s0 + HeaderSteps[1..5], fails);
    var m2 := Run(q, m1, fails);
    ClosingTracks(a, id, m2, h[..1] + h[1..5] + h[5..9], s0 + HeaderSteps[1..5] + HeaderSteps[5..9], fails);
    JoinPieces([], h, 1, 5, 9);
    JoinPieces([AddVes, GetHeader], HeaderSteps, 1, 5, 9);
  }

  /** Running two calls is applying one after the other. */
  lemma RunTwo(c1: Call, c2: Call, m: Meta, fails: set<Step>)
    ensures Run([c1, c2], m, fails) == Apply(c2, Apply(c1, m, fails), fails)
  {
    var w := [c1, c2];
    var m1 := Apply(c1, m, fails);
    assert Run(w, m, fails) == Run(w[1..], m1, fails);
    assert w[1..][0] == c2 && w[1..][1..] == [];
    assert Run(w[1..], m1, fails) == Run([], Apply(c2, m1, fails), fails);
  }

  /** The calls as written up to "priority" track its five header entries and their seven calls. */
  lemma HeadAsWrittenTracks(a: Args, id: int, fails: set<Step>)
    ensures Track(Run(HeadAsWritten(a, id), Empty, fails), HeaderAsWritten(a, id)[..5], [],
                  [AddVes, GetHeader, Domain, EventId, EventName, LastEpoch, PriorityField], fails)
  {
    var h := FullHeader(a, id);
    var hw := HeaderAsWritten(a, id);
    var o := Opening(a, id);
    RunConcat(o, Appends(Header, HeaderSteps[1..5], hw[1..5]), Empty, fails);
    OpeningTracks(a, id, fails);
    var s0 := [AddVes, GetHeader] + HeaderSteps[..1];
    AppendsTrack(Header, HeaderSteps[1..5], hw[1..5], Run(o, Empty, fails), h[..1], [], s0, fails);
    assert HeaderSteps[..1] == [Domain] && HeaderSteps[1..5] == [EventId, EventName, LastEpoch, PriorityField];
    assert h[..1] + hw[1..5] == hw[..5];
  }

  /**
   * When every call succeeds, the chain as written leaves "sequence" and
   * "startEpochMicrosec" out of the header, which the intended chain holds,
   * and its "priority" carries the truncated label.
   */
  lemma BuildAsWrittenDropsFields(a: Args, id: int)
    ensures BuildAsWritten(a, id, {}).ok
    ensures BuildAsWritten(a, id, {}).header
         == HeaderAsWritten(a, id)[..6] + [HeaderAsWritten(a, id)[7]] + HeaderAsWritten(a, id)[9..]
    ensures BuildAsWritten(a, id, {}).header[4]
         == MetaEntry("priority", Str(PriorityLabelAsWritten(PriorityOf(a.sevNum))))
    ensures BuildAsWritten(a, id, {}).header != Build(a, id, {}).header
  {
    var hw := HeaderAsWritten(a, id);
    var x := HeadAsWritten(a, id);
    var w := FallbacksAsWritten(a, id);
    RunConcat(x + w, Closing(a, id), Empty, {});
    RunConcat(x, w, Empty, {});
    HeadAsWrittenTracks(a, id, {});
    var m1 := Run(x, Empty, {});
    RunTwo(w[0], w[1], m1, {});
    var m2 := Run(w, m1, {});
    assert m2.ok && m2.header == hw[..5] + [hw[5]] + [hw[7]] && m2.fields == [];
    assert hw[..5] + [hw[5]] + [hw[7]] == hw[..6] + [hw[7]];
    ClosingTracks(a, id, m2, hw[..6] + [hw[7]], [], {});
    assert FullHeader(a, id)[9..] == hw[9..];
    BuildSpec(a, id, {});
    assert |hw[..6] + [hw[7]] + hw[9..]| == 9;
  }

  /** The chain as written stays ok past a failing "reportingEntityName" append. */
  lemma AsWrittenSkipsReportingEntity(a: Args, id: int)
    ensures BuildAsWritten(a, id, {ReportingEntity}).ok
  {
    var fails := {ReportingEntity};
    var x := HeadAsWritten(a, id);
    var w := FallbacksAsWritten(a, id);
    RunConcat(x + w, Closing(a, id), Empty, fails);
    RunConcat(x, w, Empty, fails);
    HeadAsWrittenTracks(a, id, fails);
    var m1 := Run(x, Empty, fails);
    RunTwo(w[0], w[1], m1, fails);
    var m2 := Run(w, m1, fails);
    ClosingTracks(a, id, m2, m2.header, [], fails);
  }

  /**
   * A failing "reportingEntityName" append is not reported by the chain as
   * written, while the intended chain fails there.
   */
  lemma {:induction false} BuildAsWrittenHidesFailure(a: Args, id: int)
    ensures BuildAsWritten(a, id, {ReportingEntity}).ok
    ensures !Build(a, id, {ReportingEntity}).ok
  {
    AsWrittenSkipsReportingEntity(a, id);
    BuildSpec(a, id, {ReportingEntity});
    assert AttemptedSteps(a)[7] == ReportingEntity;
  }
}
