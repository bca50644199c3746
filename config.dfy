/**
 * The numeric configuration options `BufferSize` and `BufferLength`, and the
 * effect of `RegexFilter` on the filtering mode. Each option handler returns
 * a status and leaves the setting unchanged when it rejects the value.
 */
module Config {
  import opened Wrappers

  /**
   * The configured settings: per-datagram buffer size, number of ring slots,
   * the filter patterns added so far, and `monitor_all_messages`.
   */
  datatype Config = Config(bufferSize: int, bufferLength: int, patterns: seq<string>, monitorAll: bool)

  /** The static initial values of the plugin's settings. */
  const Default: Config := Config(4096, 10, [], true)

  /** A handler's return value together with the settings it leaves. */
  datatype Outcome = Outcome(status: int, config: Config)

  predicate BufferSizeInRange(v: int) {
    1024 <= v <= 65535
  }

  predicate BufferLengthInRange(v: int) {
    3 <= v <= 4096
  }

  /**
   * Both sizes are in range, and every message is monitored exactly when no
   * pattern has been added.
   */
  predicate Valid(c: Config) {
    && BufferSizeInRange(c.bufferSize)
    && BufferLengthInRange(c.bufferLength)
    && (c.monitorAll <==> c.patterns == [])
  }

  /**
   * `BufferSize`: `v` is the integer read from the option, `None` when it
   * could not be read as one. Accepted only inside [1024, 65535].
   */
  function AddBufferSize(c: Config, v: Option<int>): (r: Outcome)
    ensures r.status == 0 <==> v.Some? && BufferSizeInRange(v.value)
    ensures r.status != 0 ==> r.status == -1 && r.config == c
    ensures r.status == 0 ==> r.config == c.(bufferSize := v.value)
  {
    if v.None? then Outcome(-1, c)
    else if 1024 <= v.value && v.value <= 65535 then Outcome(0, c.(bufferSize := v.value))
    else Outcome(-1, c)
  }

  /** `BufferLength`: accepted only inside [3, 4096]. */
  function AddBufferLength(c: Config, v: Option<int>): (r: Outcome)
    ensures r.status == 0 <==> v.Some? && BufferLengthInRange(v.value)
    ensures r.status != 0 ==> r.status == -1 && r.config == c
    ensures r.status == 0 ==> r.config == c.(bufferLength := v.value)
  {
    if v.None? then Outcome(-1, c)
    else if 3 <= v.value && v.value <= 4096 then Outcome(0, c.(bufferLength := v.value))
    else Outcome(-1, c)
  }

  /**
   * `RegexFilter`: `pattern` is the option's single string value, `None`
   * when the option does not carry exactly one string, which is rejected
   * with -1. `compiles` tells whether the pattern is a valid regular
   * expression: a valid one is added and turns off monitoring of all
   * messages; an invalid one is reported with status 1. A rejected option
   * changes nothing.
   */
  function AddRegexFilter(c: Config, pattern: Option<string>, compiles: bool): (r: Outcome)
    ensures r.status == 0 <==> pattern.Some? && compiles
    ensures pattern.None? ==> r.status == -1
    ensures pattern.Some? && !compiles ==> r.status == 1
    ensures r.status != 0 ==> r.config == c
    ensures r.status == 0 ==> r.config == c.(patterns := c.patterns + [pattern.value], monitorAll := false)
  {
    if pattern.None? then Outcome(-1, c)
    else if !compiles then Outcome(1, c)
    else Outcome(0, c.(patterns := c.patterns + [pattern.value], monitorAll := false))
  }

  lemma DefaultValid()
    ensures Valid(Default)
  {
  }

  /** No option handler can take the settings out of range or out of step. */
  lemma HandlersPreserveValid(c: Config, v: Option<int>, pattern: Option<string>, compiles: bool)
    requires Valid(c)
    ensures Valid(AddBufferSize(c, v).config)
    ensures Valid(AddBufferLength(c, v).config)
    ensures Valid(AddRegexFilter(c, pattern, compiles).config)
  {
  }

  /**
   * One child of the plugin's configuration block, with its value as the
   * handler reads it. `Other` stands for `Listen` and for unknown keys,
   * neither of which touches these settings.
   */
  datatype Item =
    | BufferSize(size: Option<int>)
    | BufferLength(length: Option<int>)
    | RegexFilter(pattern: Option<string>, compiles: bool)
    | Other

  /** The settings one child leaves, whatever its handler returns. */
  function ApplyItem(c: Config, it: Item): Config {
    match it
    case BufferSize(v) => AddBufferSize(c, v).config
    case BufferLength(v) => AddBufferLength(c, v).config
    case RegexFilter(p, ok) => AddRegexFilter(c, p, ok).config
    case Other => c
  }

  /** The settings after handing every child of `items` to its handler in order, from `c`. */
  function ApplyItems(c: Config, items: seq<Item>): Config
    decreases |items|
  {
    if items == [] then c else ApplyItem(ApplyItems(c, items[..|items| - 1]), items[|items| - 1])
  }

  /** A child that its handler accepts. */
  predicate AcceptsSize(it: Item) {
    it.BufferSize? && it.size.Some? && BufferSizeInRange(it.size.value)
  }

  predicate AcceptsLength(it: Item) {
    it.BufferLength? && it.length.Some? && BufferLengthInRange(it.length.value)
  }

  predicate AcceptsPattern(it: Item) {
    it.RegexFilter? && it.pattern.Some? && it.compiles
  }

  /**
   * Whatever the options, the settings stay in range, and every message is
   * monitored exactly when it was before and no pattern was accepted.
   */
  lemma {:induction false} ApplyItemsValid(c: Config, items: seq<Item>)
    requires Valid(c)
    ensures Valid(ApplyItems(c, items))
    ensures ApplyItems(c, items).monitorAll <==>
              c.monitorAll && forall j :: 0 <= j < |items| ==> !AcceptsPattern(items[j])
    decreases |items|
  {
    if items != [] {
      var n := |items| - 1;
      ApplyItemsValid(c, items[..n]);
      assert forall j :: 0 <= j < n ==> items[..n][j] == items[j];
    }
  }

  /**
   * The last accepted `BufferLength` decides the number of slots; with none
   * accepted, the number is the one before.
   */
  lemma {:induction false} ApplyItemsLength(c: Config, items: seq<Item>)
    ensures (forall j :: 0 <= j < |items| ==> !AcceptsLength(items[j])) ==>
              ApplyItems(c, items).bufferLength == c.bufferLength
    ensures forall j :: 0 <= j < |items| && AcceptsLength(items[j])
                        && (forall k :: j < k < |items| ==> !AcceptsLength(items[k])) ==>
              ApplyItems(c, items).bufferLength == items[j].length.value
    decreases |items|
  {
    if items != [] {
      var n := |items| - 1;
      var pre := items[..n];
      ApplyItemsLength(c, pre);
      LengthStep(ApplyItems(c, pre), items[n]);
      forall j | 0 <= j < |items| && AcceptsLength(items[j]) && (forall k :: j < k < |items| ==> !AcceptsLength(items[k]))
        ensures ApplyItems(c, items).bufferLength == items[j].length.value
      {
        if j < n {
          assert pre[j] == items[j];
          assert forall k :: j < k < n ==> pre[k] == items[k];
        }
      }
      if forall j :: 0 <= j < |items| ==> !AcceptsLength(items[j]) {
        assert forall j :: 0 <= j < n ==> pre[j] == items[j];
      }
    }
  }

  lemma LengthStep(c: Config, it: Item)
    ensures ApplyItem(c, it).bufferLength == if AcceptsLength(it) then it.length.value else c.bufferLength
  {
  }


  /**
   * The last accepted `BufferSize` decides the buffer size; with none
   * accepted, the size is the one before.
   */
  lemma {:induction false} ApplyItemsSize(c: Config, items: seq<Item>)
    ensures (forall j :: 0 <= j < |items| ==> !AcceptsSize(items[j])) ==>
              ApplyItems(c, items).bufferSize == c.bufferSize
    ensures forall j :: 0 <= j < |items| && AcceptsSize(items[j])
                        && (forall k :: j < k < |items| ==> !AcceptsSize(items[k])) ==>
              ApplyItems(c, items).bufferSize == items[j].size.value
    decreases |items|
  {
    if items != [] {
      var n := |items| - 1;
      var pre := items[..n];
      ApplyItemsSize(c, pre);
      SizeStep(ApplyItems(c, pre), items[n]);
      forall j | 0 <= j < |items| && AcceptsSize(items[j]) && (forall k :: j < k < |items| ==> !AcceptsSize(items[k]))
        ensures ApplyItems(c, items).bufferSize == items[j].size.value
      {
        if j < n {
          assert pre[j] == items[j];
          assert forall k :: j < k < n ==> pre[k] == items[k];
        }
      }
      if forall j :: 0 <= j < |items| ==> !AcceptsSize(items[j]) {
        assert forall j :: 0 <= j < n ==> pre[j] == items[j];
      }
    }
  }

  lemma SizeStep(c: Config, it: Item)
    ensures ApplyItem(c, it).bufferSize == if AcceptsSize(it) then it.size.value else c.bufferSize
  {
  }


  /** The patterns are those there before followed by every accepted pattern, in order. */
  lemma {:induction false} ApplyItemsPatterns(c: Config, items: seq<Item>)
    ensures forall p :: p in ApplyItems(c, items).patterns <==>
              p in c.patterns || exists j :: 0 <= j < |items| && AcceptsPattern(items[j]) && items[j].pattern.value == p
    ensures c.patterns <= ApplyItems(c, items).patterns
    decreases |items|
  {
    if items != [] {
      var n := |items| - 1;
      ApplyItemsPatterns(c, items[..n]);
      assert forall j :: 0 <= j < n ==> items[..n][j] == items[j];
    }
  }

  /**
   * `BufferLength 5`, then an invalid pattern, then an out-of-range
   * `BufferLength 2`: the ring gets 5 slots and every message stays
   * monitored.
   */
  lemma ConfigureScenario()
    ensures ApplyItems(Default, [BufferLength(Some(5)), RegexFilter(Some("("), false), BufferLength(Some(2))])
         == Config(4096, 5, [], true)
  {
    var items := [BufferLength(Some(5)), RegexFilter(Some("("), false), BufferLength(Some(2))];
    var one := [BufferLength(Some(5))];
    assert items[..2][..1] == one && one[..0] == [];
    assert ApplyItems(Default, one) == Default.(bufferLength := 5);
    assert ApplyItems(Default, items[..2]) == Default.(bufferLength := 5);
  }

  /**
   * `sysevent_config`: hand every child to its handler in order, ignoring
   * the handlers' statuses. Whatever the options, the resulting settings are
   * in range, and filtering is on exactly when some pattern was accepted.
   */
  method Configure(items: seq<Item>) returns (c: Config)
    ensures c == ApplyItems(Default, items)
    ensures Valid(c)
    ensures c.monitorAll <==> forall i :: 0 <= i < |items| ==> !AcceptsPattern(items[i])
  {
    c := Default;
    for i := 0 to |items|
      invariant c == ApplyItems(Default, items[..i])
    {
      assert items[..i + 1][..i] == items[..i];
      match items[i] {
        case BufferSize(v) =>
          c := AddBufferSize(c, v).config;
        case BufferLength(v) =>
          c := AddBufferLength(c, v).config;
        case RegexFilter(p, ok) =>
          c := AddRegexFilter(c, p, ok).config;
        case Other =>
      }
    }
    assert items[..|items|] == items;
    DefaultValid();
    ApplyItemsValid(Default, items);
  }
}
