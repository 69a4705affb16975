/**
 * Extension configuration: nine independent flags, all off by default, and
 * an operation that switches all of them on.
 */
module Configuration {

  /** The optional commonmark extensions, named after their extension classes. */
  datatype Extension =
    | AutolinkExtension | StrikethroughExtension | TablesExtension
    | FootnotesExtension | HeadingAnchorExtension | InsExtension
    | YamlFrontMatterExtension | ImageAttributesExtension | TaskListItemsExtension

  /** The value of a `Config`: its nine flags, in declaration order. */
  datatype Flags = Flags(
    autolink: bool,
    strikethrough: bool,
    tables: bool,
    footnotes: bool,
    headingAnchors: bool,
    ins: bool,
    yamlFrontMatter: bool,
    imageAttributes: bool,
    taskList: bool)
  {
    /** The flag that switches extension `e` on. */
    predicate Enabled(e: Extension) {
      match e
      case AutolinkExtension => autolink
      case StrikethroughExtension => strikethrough
      case TablesExtension => tables
      case FootnotesExtension => footnotes
      case HeadingAnchorExtension => headingAnchors
      case InsExtension => ins
      case YamlFrontMatterExtension => yamlFrontMatter
      case ImageAttributesExtension => imageAttributes
      case TaskListItemsExtension => taskList
    }

    /** These flags with the one for `e` set to `value`, as a property setter does. */
    function With(e: Extension, value: bool): Flags {
      Flags(
        if e.AutolinkExtension? then value else autolink,
        if e.StrikethroughExtension? then value else strikethrough,
        if e.TablesExtension? then value else tables,
        if e.FootnotesExtension? then value else footnotes,
        if e.HeadingAnchorExtension? then value else headingAnchors,
        if e.InsExtension? then value else ins,
        if e.YamlFrontMatterExtension? then value else yamlFrontMatter,
        if e.ImageAttributesExtension? then value else imageAttributes,
        if e.TaskListItemsExtension? then value else taskList)
    }

    /** `With` sets the flag for `e` to `value` and leaves every other flag as it was. */
    lemma WithSpec(e: Extension, value: bool)
      ensures With(e, value).Enabled(e) == value
      ensures forall other :: other != e ==> With(e, value).Enabled(other) == Enabled(other)
    {
    }

    /** The number of flags that are set. */
    function Count(): (n: nat)
      ensures n <= 9
    {
      (if autolink then 1 else 0) + (if strikethrough then 1 else 0)
      + (if tables then 1 else 0) + (if footnotes then 1 else 0)
      + (if headingAnchors then 1 else 0) + (if ins then 1 else 0)
      + (if yamlFrontMatter then 1 else 0) + (if imageAttributes then 1 else 0)
      + (if taskList then 1 else 0)
    }

    /** The state a configuration block leaves the flags in. */
    function Run(ops: seq<ConfigOp>): Flags
      decreases |ops|
    {
      if ops == [] then this else Step(ops[0]).Run(ops[1..])
    }

    function Step(op: ConfigOp): (r: Flags)
      ensures op.EnableAll? ==> r == AllEnabled
    {
      match op
      case SetFlag(e, value) => With(e, value)
      case EnableAll => AllEnabled
    }
  }

  /** A statement of a configuration block: assign one flag, or `enableAllExtensions()`. */
  datatype ConfigOp = SetFlag(e: Extension, value: bool) | EnableAll

  /** A fresh `Config()`: every parameter at its default. */
  const Default := Flags(false, false, false, false, false, false, false, false, false)

  /** The state `enableAllExtensions()` leaves behind. */
  const AllEnabled := Flags(true, true, true, true, true, true, true, true, true)

  lemma DefaultDisablesAll(e: Extension)
    ensures !Default.Enabled(e) && Default.Count() == 0
  {
  }

  lemma AllEnabledEnablesAll(e: Extension)
    ensures AllEnabled.Enabled(e) && AllEnabled.Count() == 9
  {
  }

  /** Running a block one more statement longer is one more step. */
  lemma {:induction false} RunSnoc(f: Flags, ops: seq<ConfigOp>, op: ConfigOp)
    ensures f.Run(ops + [op]) == f.Run(ops).Step(op)
    decreases |ops|
  {
    if ops == [] {
      assert [op][1..] == [];
    } else {
      assert (ops + [op])[1..] == ops[1..] + [op];
      RunSnoc(f.Step(ops[0]), ops[1..], op);
    }
  }

  /** `enableAllExtensions()` twice is the same as once, and its outcome ignores the prior state. */
  lemma EnableAllIdempotent(f: Flags, g: Flags)
    ensures f.Step(EnableAll).Step(EnableAll) == f.Step(EnableAll) == g.Step(EnableAll)
  {
  }

  /** A block that ends by enabling everything leaves every flag on, whatever came before. */
  lemma {:induction false} RunEndingInEnableAll(f: Flags, ops: seq<ConfigOp>)
    ensures f.Run(ops + [EnableAll]) == AllEnabled
  {
    RunSnoc(f, ops, EnableAll);
  }

  /** The mutable extension configuration. */
  class Config {
    var enableAutolink: bool
    var enableStrikethrough: bool
    var enableTables: bool
    var enableFootnotes: bool
    var enableHeadingAnchors: bool
    var enableIns: bool
    var enableYamlFrontMatter: bool
    var enableImageAttributes: bool
    var enableTaskList: bool

    function Snapshot(): Flags
      reads this
    {
      Flags(enableAutolink, enableStrikethrough, enableTables, enableFootnotes,
            enableHeadingAnchors, enableIns, enableYamlFrontMatter,
            enableImageAttributes, enableTaskList)
    }

    /** The primary constructor; every combination of flags is accepted. */
    constructor (flags: Flags)
      ensures Snapshot() == flags
    {
      enableAutolink := flags.autolink;
      enableStrikethrough := flags.strikethrough;
      enableTables := flags.tables;
      enableFootnotes := flags.footnotes;
      enableHeadingAnchors := flags.headingAnchors;
      enableIns := flags.ins;
      enableYamlFrontMatter := flags.yamlFrontMatter;
      enableImageAttributes := flags.imageAttributes;
      enableTaskList := flags.taskList;
    }

    method EnableAllExtensions()
      modifies this
      ensures Snapshot() == AllEnabled
    {
      enableAutolink := true;
      enableStrikethrough := true;
      enableTables := true;
      enableFootnotes := true;
      enableHeadingAnchors := true;
      enableIns := true;
      enableYamlFrontMatter := true;
      enableImageAttributes := true;
      enableTaskList := true;
    }

    /** An assignment `enable… = value` to the property for extension `e`. */
    method Set(e: Extension, value: bool)
      modifies this
      ensures Snapshot() == old(Snapshot()).With(e, value)
    {
      match e
      case AutolinkExtension => SetAutolink(value);
      case StrikethroughExtension => SetStrikethrough(value);
      case TablesExtension => SetTables(value);
      case FootnotesExtension => SetFootnotes(value);
      case HeadingAnchorExtension => SetHeadingAnchors(value);
      case InsExtension => SetIns(value);
      case YamlFrontMatterExtension => SetYamlFrontMatter(value);
      case ImageAttributesExtension => SetImageAttributes(value);
      case TaskListItemsExtension => SetTaskList(value);
    }

    /** The setter of `enableAutolink`; no other property changes. */
    method SetAutolink(value: bool)
      modifies this
      ensures Snapshot() == old(Snapshot()).(autolink := value)
    {
      enableAutolink := value;
    }

    /** The setter of `enableStrikethrough`; no other property changes. */
    method SetStrikethrough(value: bool)
      modifies this
      ensures Snapshot() == old(Snapshot()).(strikethrough := value)
    {
      enableStrikethrough := value;
    }

    /** The setter of `enableTables`; no other property changes. */
    method SetTables(value: bool)
      modifies this
      ensures Snapshot() == old(Snapshot()).(tables := value)
    {
      enableTables := value;
    }

    /** The setter of `enableFootnotes`; no other property changes. */
    method SetFootnotes(value: bool)
      modifies this
      ensures Snapshot() == old(Snapshot()).(footnotes := value)
    {
      enableFootnotes := value;
    }

    /** The setter of `enableHeadingAnchors`; no other property changes. */
    method SetHeadingAnchors(value: bool)
      modifies this
      ensures Snapshot() == old(Snapshot()).(headingAnchors := value)
    {
      enableHeadingAnchors := value;
    }

    /** The setter of `enableIns`; no other property changes. */
    method SetIns(value: bool)
      modifies this
      ensures Snapshot() == old(Snapshot()).(ins := value)
    {
      enableIns := value;
    }

    /** The setter of `enableYamlFrontMatter`; no other property changes. */
    method SetYamlFrontMatter(value: bool)
      modifies this
      ensures Snapshot() == old(Snapshot()).(yamlFrontMatter := value)
    {
      enableYamlFrontMatter := value;
    }

    /** The setter of `enableImageAttributes`; no other property changes. */
    method SetImageAttributes(value: bool)
      modifies this
      ensures Snapshot() == old(Snapshot()).(imageAttributes := value)
    {
      enableImageAttributes := value;
    }

    /** The setter of `enableTaskList`; no other property changes. */
    method SetTaskList(value: bool)
      modifies this
      ensures Snapshot() == old(Snapshot()).(taskList := value)
    {
      enableTaskList := value;
    }

    /** Runs the statements of a configuration block on this configuration, in order. */
    method Apply(ops: seq<ConfigOp>)
      modifies this
      ensures Snapshot() == old(Snapshot()).Run(ops)
    {
      for i := 0 to |ops|
        invariant Snapshot() == old(Snapshot()).Run(ops[..i])
      {
        RunSnoc(old(Snapshot()), ops[..i], ops[i]);
        assert ops[..i + 1] == ops[..i] + [ops[i]];
        match ops[i]
        case SetFlag(e, value) => Set(e, value);
        case EnableAll => EnableAllExtensions();
      }
      assert ops[..|ops|] == ops;
    }
  }
}
