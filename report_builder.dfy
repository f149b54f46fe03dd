/**
 * The fluent report builder: it accumulates a template name, a data model and
 * the page geometry, and hands the name and the data model to the engine once
 * the template name has been checked.
 *
 * Besides the class itself the module gives the effect of each configuration
 * call as a pure function `Step` on a `Config` value, and proves what any
 * sequence of calls leaves behind: every entry of the data model is the last
 * value written under its key (the two page-geometry keys included), and
 * every field is the last value set or its default.
 */
module ReportBuilders {
  import opened Wrappers
  import opened JavaStrings
  import PageSizes
  import PageOrientations
  import opened ReportEngines

  /** The reserved data-model key the orientation setters write. */
  const OrientationKey := "pageOrientation"

  /** The reserved data-model key the page-size setter writes. */
  const PageSizeKey := "pageSize"

  /** The message of the `IllegalStateException` a terminal throws when the template name is missing or blank. */
  const MissingTemplateMessage := "Template name must be set before generating report"

  /** A builder's state: the template name (`None` for `null`), its own data model, the orientation and the page size. */
  datatype Config = Config(
    templateName: Option<string>,
    data: DataModel,
    orientation: PageOrientations.PageOrientation,
    pageSize: PageSizes.PageSize)

  /** The state of a new builder: no template, an empty data model, portrait A4. */
  function InitialConfig(): Config {
    Config(None, map[], PageOrientations.Portrait, PageSizes.A4)
  }

  /** The configuration calls: `withTemplate`, both `withData`, `clearData`, `withOrientation` and `withPageSize`. */
  datatype Op =
    | SetTemplate(name: Option<string>)
    | PutEntry(key: string, value: Value)
    | PutAll(entries: DataModel)
    | Clear
    | SetOrientation(orientation: PageOrientations.PageOrientation)
    | SetPageSize(size: PageSizes.PageSize)

  /** The state after one configuration call. */
  function Step(c: Config, op: Op): (r: Config)
    ensures !op.SetTemplate? ==> r.templateName == c.templateName
    ensures !op.SetOrientation? ==> r.orientation == c.orientation
    ensures !op.SetPageSize? ==> r.pageSize == c.pageSize
    ensures op.SetOrientation? ==>
      OrientationKey in r.data && r.data[OrientationKey] == Text(PageOrientations.Value(r.orientation))
    ensures op.SetPageSize? ==>
      PageSizeKey in r.data && r.data[PageSizeKey] == Text(PageSizes.Value(r.pageSize))
    ensures !op.Clear? ==> c.data.Keys <= r.data.Keys
  {
    match op
    case SetTemplate(name) => c.(templateName := name)
    case PutEntry(key, value) => c.(data := c.data[key := value])
    case PutAll(entries) => c.(data := c.data + entries)
    case Clear => c.(data := map[])
    case SetOrientation(o) =>
      c.(orientation := o, data := c.data[OrientationKey := Text(PageOrientations.Value(o))])
    case SetPageSize(s) =>
      c.(pageSize := s, data := c.data[PageSizeKey := Text(PageSizes.Value(s))])
  }

  /** The state of a new builder after the calls `ops`, in order. */
  function Run(ops: seq<Op>): (r: Config)
    ensures forall key :: key in r.data ==> exists i :: 0 <= i < |ops| && Effect(ops[i], key).Written?
    decreases |ops|
  {
    if ops == [] then InitialConfig()
    else
      var prefix := ops[..|ops| - 1];
      var r := Step(Run(prefix), ops[|ops| - 1]);
      assert forall key :: key in r.data ==> exists i :: 0 <= i < |ops| && Effect(ops[i], key).Written? by {
        forall key | key in r.data
          ensures exists i :: 0 <= i < |ops| && Effect(ops[i], key).Written?
        {
          StepEntry(Run(prefix), ops[|ops| - 1], key);
          if !Effect(ops[|ops| - 1], key).Written? {
            var i :| 0 <= i < |prefix| && Effect(prefix[i], key).Written?;
            assert ops[i] == prefix[i];
          }
        }
      }
      r
  }

  /** What one call does to the entry under one key of the data model. */
  datatype KeyEffect = Untouched | Written(value: Value) | Erased

  /** The effect of `op` on the entry under `key`, read off the call alone. */
  function Effect(op: Op, key: string): KeyEffect {
    match op
    case SetTemplate(_) => Untouched
    case PutEntry(k, v) => if k == key then Written(v) else Untouched
    case PutAll(entries) => if key in entries then Written(entries[key]) else Untouched
    case Clear => Erased
    case SetOrientation(o) =>
      if key == OrientationKey then Written(Text(PageOrientations.Value(o))) else Untouched
    case SetPageSize(s) =>
      if key == PageSizeKey then Written(Text(PageSizes.Value(s))) else Untouched
  }

  /** The value the last call that wrote or erased `key` left there; `None` if it erased it or no call touched it. */
  function LastWrite(ops: seq<Op>, key: string): Option<Value>
    decreases |ops|
  {
    if ops == [] then None
    else match Effect(ops[|ops| - 1], key)
      case Written(v) => Some(v)
      case Erased => None
      case Untouched => LastWrite(ops[..|ops| - 1], key)
  }

  /** One call changes the entry under `key` exactly as its effect says. */
  lemma StepEntry(c: Config, op: Op, key: string)
    ensures Effect(op, key).Untouched? ==>
      (key in Step(c, op).data <==> key in c.data) && (key in c.data ==> Step(c, op).data[key] == c.data[key])
    ensures Effect(op, key).Written? ==> key in Step(c, op).data && Step(c, op).data[key] == Effect(op, key).value
    ensures Effect(op, key).Erased? ==> key !in Step(c, op).data
  {
  }

  /**
   * Last write wins: after any sequence of calls on a new builder, the data
   * model holds an entry under `key` exactly when the last call that touched
   * `key` wrote it, and the entry is the value that call wrote. This covers
   * the collision of caller data with the two reserved keys in both orders.
   */
  lemma {:induction false} EntryIsLastWrite(ops: seq<Op>, key: string)
    ensures key in Run(ops).data <==> LastWrite(ops, key).Some?
    ensures key in Run(ops).data ==> Run(ops).data[key] == LastWrite(ops, key).value
    decreases |ops|
  {
    if ops != [] {
      EntryIsLastWrite(ops[..|ops| - 1], key);
      StepEntry(Run(ops[..|ops| - 1]), ops[|ops| - 1], key);
    }
  }

  /** A key no call writes stays out of the data model: a new builder's defaults are not in it. */
  lemma {:induction false} UntouchedKeyAbsent(ops: seq<Op>, key: string)
    requires forall i :: 0 <= i < |ops| ==> Effect(ops[i], key).Untouched?
    ensures key !in Run(ops).data
    decreases |ops|
  {
    if ops != [] {
      UntouchedKeyAbsent(ops[..|ops| - 1], key);
      StepEntry(Run(ops[..|ops| - 1]), ops[|ops| - 1], key);
    }
  }

  /** If call `i` writes `key` and no later call touches it, what call `i` wrote is what `LastWrite` finds. */
  lemma {:induction false} LastWriteAt(ops: seq<Op>, i: nat, key: string)
    requires i < |ops| && Effect(ops[i], key).Written?
    requires forall j :: i < j < |ops| ==> Effect(ops[j], key).Untouched?
    ensures LastWrite(ops, key) == Some(Effect(ops[i], key).value)
    decreases |ops|
  {
    if i < |ops| - 1 {
      LastWriteAt(ops[..|ops| - 1], i, key);
    }
  }

  /** After `clearData` at position `i`, a key that no later call touches, a reserved key included, has no entry. */
  lemma {:induction false} ClearedKeyAbsent(ops: seq<Op>, i: nat, key: string)
    requires i < |ops| && ops[i] == Clear
    requires forall j :: i < j < |ops| ==> Effect(ops[j], key).Untouched?
    ensures key !in Run(ops).data
    decreases |ops|
  {
    if i < |ops| - 1 {
      ClearedKeyAbsent(ops[..|ops| - 1], i, key);
      StepEntry(Run(ops[..|ops| - 1]), ops[|ops| - 1], key);
    }
  }

  /**
   * The fields keep their defaults until set: without `withOrientation` the
   * orientation stays portrait, without `withPageSize` the size stays A4, and
   * without `withTemplate` the template name stays unset.
   */
  lemma {:induction false} DefaultsPersist(ops: seq<Op>)
    ensures (forall i :: 0 <= i < |ops| ==> !ops[i].SetOrientation?) ==> Run(ops).orientation == PageOrientations.Portrait
    ensures (forall i :: 0 <= i < |ops| ==> !ops[i].SetPageSize?) ==> Run(ops).pageSize == PageSizes.A4
    ensures (forall i :: 0 <= i < |ops| ==> !ops[i].SetTemplate?) ==> Run(ops).templateName == None
    decreases |ops|
  {
    if ops != [] {
      DefaultsPersist(ops[..|ops| - 1]);
    }
  }

  /** The orientation is the one the last `withOrientation` (or shorthand) set. */
  lemma {:induction false} LastOrientationWins(ops: seq<Op>, i: nat)
    requires i < |ops| && ops[i].SetOrientation?
    requires forall j :: i < j < |ops| ==> !ops[j].SetOrientation?
    ensures Run(ops).orientation == ops[i].orientation
    decreases |ops|
  {
    if i < |ops| - 1 {
      LastOrientationWins(ops[..|ops| - 1], i);
    }
  }

  /** The page size is the one the last `withPageSize` set. */
  lemma {:induction false} LastPageSizeWins(ops: seq<Op>, i: nat)
    requires i < |ops| && ops[i].SetPageSize?
    requires forall j :: i < j < |ops| ==> !ops[j].SetPageSize?
    ensures Run(ops).pageSize == ops[i].size
    decreases |ops|
  {
    if i < |ops| - 1 {
      LastPageSizeWins(ops[..|ops| - 1], i);
    }
  }

  /**
   * Unless a later call cleared or overwrote it, the reserved orientation
   * entry names the orientation the builder holds, so a template reading it
   * sees the configured orientation.
   */
  lemma ReservedOrientationMatchesField(ops: seq<Op>, i: nat)
    requires i < |ops| && ops[i].SetOrientation?
    requires forall k :: i < k < |ops| ==> Effect(ops[k], OrientationKey).Untouched?
    ensures OrientationKey in Run(ops).data
    ensures Run(ops).data[OrientationKey] == Text(PageOrientations.Value(Run(ops).orientation))
  {
    forall k | i < k < |ops|
      ensures !ops[k].SetOrientation?
    {
      assert Effect(ops[k], OrientationKey).Untouched?;
    }
    LastOrientationWins(ops, i);
    LastWriteAt(ops, i, OrientationKey);
    EntryIsLastWrite(ops, OrientationKey);
  }

  /**
   * Unless a later call cleared or overwrote it, the reserved page-size entry
   * names the page size the builder holds.
   */
  lemma ReservedPageSizeMatchesField(ops: seq<Op>, j: nat)
    requires j < |ops| && ops[j].SetPageSize?
    requires forall k :: j < k < |ops| ==> Effect(ops[k], PageSizeKey).Untouched?
    ensures PageSizeKey in Run(ops).data
    ensures Run(ops).data[PageSizeKey] == Text(PageSizes.Value(Run(ops).pageSize))
  {
    forall k | j < k < |ops|
      ensures !ops[k].SetPageSize?
    {
      assert Effect(ops[k], PageSizeKey).Untouched?;
    }
    LastPageSizeWins(ops, j);
    LastWriteAt(ops, j, PageSizeKey);
    EntryIsLastWrite(ops, PageSizeKey);
  }

  /**
   * `validateState`: a terminal may go ahead exactly when the template name
   * is set and `trim` leaves something of it, that is, when it holds a
   * character above the space; otherwise it throws `IllegalStateException`.
   */
  function ValidateState(templateName: Option<string>): (r: Result<string, Error>)
    ensures r.Ok? <==> templateName.Some? && !AllTrimmable(templateName.value)
    ensures r.Ok? ==> r.value == templateName.value
    ensures r.Err? ==> r.error == IllegalState(MissingTemplateMessage)
  {
    match templateName
    case None => Err(IllegalState(MissingTemplateMessage))
    case Some(name) =>
      TrimEmptyIffAllTrimmable(name);
      if |Trim(name)| == 0 then Err(IllegalState(MissingTemplateMessage)) else Ok(name)
  }

  /** The `void` result of `generateTo`: success or the exception, without the bytes that went to the sink. */
  function Completion(r: Result<seq<byte>, Error>): (c: Result<(), Error>)
    ensures c.Ok? <==> r.Ok?
    ensures r.Err? ==> c.error == r.error
  {
    match r
    case Ok(_) => Ok(())
    case Err(e) => Err(e)
  }

  class ReportBuilder {
    const engine: ReportEngine
    var templateName: Option<string>
    var data: DataModel
    var orientation: PageOrientations.PageOrientation
    var pageSize: PageSizes.PageSize

    /** The builder's state as a value. */
    function Snapshot(): Config
      reads this
    {
      Config(templateName, data, orientation, pageSize)
    }

    /** A builder bound to `engine`, with no template, an empty data model of its own, portrait A4. */
    constructor (engine: ReportEngine)
      ensures this.engine == engine
      ensures templateName == None && data == map[]
      ensures orientation == PageOrientations.Portrait && pageSize == PageSizes.A4
      ensures Snapshot() == InitialConfig()
    {
      this.engine := engine;
      templateName := None;
      data := map[];
      orientation := PageOrientations.Portrait;
      pageSize := PageSizes.A4;
    }

    /** `withTemplate`: record the name as given, with no check. */
    method WithTemplate(name: Option<string>) returns (self: ReportBuilder)
      modifies this
      ensures self == this
      ensures templateName == name
      ensures data == old(data) && orientation == old(orientation) && pageSize == old(pageSize)
      ensures Snapshot() == Step(old(Snapshot()), SetTemplate(name))
    {
      templateName := name;
      self := this;
    }

    /** `withData(key, value)`: put one entry, replacing any entry under the same key. */
    method WithData(key: string, value: Value) returns (self: ReportBuilder)
      modifies this
      ensures self == this
      ensures data == old(data)[key := value]
      ensures templateName == old(templateName) && orientation == old(orientation) && pageSize == old(pageSize)
      ensures Snapshot() == Step(old(Snapshot()), PutEntry(key, value))
    {
      data := data[key := value];
      self := this;
    }

    /**
     * `withData(map)`: copy every entry of `entries` into the builder's own
     * data model, its entries replacing those under the same keys. `entries`
     * is a value, so nothing the builder does later reaches the caller's map.
     */
    method WithAllData(entries: DataModel) returns (self: ReportBuilder)
      modifies this
      ensures self == this
      ensures data.Keys == old(data).Keys + entries.Keys
      ensures forall k :: k in entries ==> data[k] == entries[k]
      ensures forall k :: k in old(data) && k !in entries ==> data[k] == old(data)[k]
      ensures templateName == old(templateName) && orientation == old(orientation) && pageSize == old(pageSize)
      ensures Snapshot() == Step(old(Snapshot()), PutAll(entries))
    {
      data := data + entries;
      self := this;
    }

    /** `clearData`: empty the data model, reserved entries included; the fields stay as they are. */
    method ClearData() returns (self: ReportBuilder)
      modifies this
      ensures self == this
      ensures data == map[]
      ensures templateName == old(templateName) && orientation == old(orientation) && pageSize == old(pageSize)
      ensures Snapshot() == Step(old(Snapshot()), Clear)
    {
      data := map[];
      self := this;
    }

    /** `withOrientation`: set the orientation and write its name under the reserved orientation key. */
    method WithOrientation(o: PageOrientations.PageOrientation) returns (self: ReportBuilder)
      modifies this
      ensures self == this
      ensures orientation == o
      ensures data == old(data)[OrientationKey := Text(PageOrientations.Value(o))]
      ensures templateName == old(templateName) && pageSize == old(pageSize)
      ensures Snapshot() == Step(old(Snapshot()), SetOrientation(o))
    {
      orientation := o;
      data := data[OrientationKey := Text(PageOrientations.Value(o))];
      self := this;
    }

    /** `withPageSize`: set the page size and write its name under the reserved size key. */
    method WithPageSize(s: PageSizes.PageSize) returns (self: ReportBuilder)
      modifies this
      ensures self == this
      ensures pageSize == s
      ensures data == old(data)[PageSizeKey := Text(PageSizes.Value(s))]
      ensures templateName == old(templateName) && orientation == old(orientation)
      ensures Snapshot() == Step(old(Snapshot()), SetPageSize(s))
    {
      pageSize := s;
      data := data[PageSizeKey := Text(PageSizes.Value(s))];
      self := this;
    }

    /** `landscape()`: the same as `withOrientation(LANDSCAPE)`. */
    method Landscape() returns (self: ReportBuilder)
      modifies this
      ensures self == this
      ensures orientation == PageOrientations.Landscape
      ensures data == old(data)[OrientationKey := Text("landscape")]
      ensures templateName == old(templateName) && pageSize == old(pageSize)
      ensures Snapshot() == Step(old(Snapshot()), SetOrientation(PageOrientations.Landscape))
    {
      self := WithOrientation(PageOrientations.Landscape);
    }

    /** `portrait()`: the same as `withOrientation(PORTRAIT)`. */
    method Portrait() returns (self: ReportBuilder)
      modifies this
      ensures self == this
      ensures orientation == PageOrientations.Portrait
      ensures data == old(data)[OrientationKey := Text("portrait")]
      ensures templateName == old(templateName) && pageSize == old(pageSize)
      ensures Snapshot() == Step(old(Snapshot()), SetOrientation(PageOrientations.Portrait))
    {
      self := WithOrientation(PageOrientations.Portrait);
    }

    /**
     * `generateTo(OutputStream)`: with a blank or missing template name, throw
     * `IllegalStateException` before the engine is reached; otherwise send the
     * engine exactly one request carrying the current template name and data
     * model, and pass its outcome on. The builder itself is left as it was.
     */
    method GenerateToStream(stream: nat) returns (r: Result<(), Error>)
      modifies engine
      ensures unchanged(this)
      ensures ValidateState(templateName).Err? ==>
        && r == Err(IllegalState(MissingTemplateMessage))
        && engine.requests == old(engine.requests)
      ensures ValidateState(templateName).Ok? ==>
        var request := Request(templateName.value, data, Stream(stream));
        && engine.requests == old(engine.requests) + [request]
        && r == Completion(Wrap(engine.pipeline(request)))
    {
      var name :- ValidateState(templateName);
      var written := engine.GenerateReport(name, data, Stream(stream));
      r := Completion(written);
    }

    /** `generateTo(File)`: as `GenerateToStream`, with the file as the destination. */
    method GenerateToFile(path: string) returns (r: Result<(), Error>)
      modifies engine
      ensures unchanged(this)
      ensures ValidateState(templateName).Err? ==>
        && r == Err(IllegalState(MissingTemplateMessage))
        && engine.requests == old(engine.requests)
      ensures ValidateState(templateName).Ok? ==>
        var request := Request(templateName.value, data, File(path));
        && engine.requests == old(engine.requests) + [request]
        && r == Completion(Wrap(engine.pipeline(request)))
    {
      var name :- ValidateState(templateName);
      var written := engine.GenerateReport(name, data, File(path));
      r := Completion(written);
    }

    /** `generateAsBytes`: as `GenerateToStream`, into a buffer whose bytes are returned. */
    method GenerateAsBytes() returns (r: Result<seq<byte>, Error>)
      modifies engine
      ensures unchanged(this)
      ensures ValidateState(templateName).Err? ==>
        && r == Err(IllegalState(MissingTemplateMessage))
        && engine.requests == old(engine.requests)
      ensures ValidateState(templateName).Ok? ==>
        var request := Request(templateName.value, data, Buffer);
        && engine.requests == old(engine.requests) + [request]
        && r == Wrap(engine.pipeline(request))
    {
      var name :- ValidateState(templateName);
      r := engine.GenerateReport(name, data, Buffer);
    }
  }
}
