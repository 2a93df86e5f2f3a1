/**
 * One calculator field: a fluent, mutable descriptor holding a name, an
 * arithmetic role and display metadata (src/CalcField.php).
 */
module Field {

  /** The three role strings the field accepts: 'add', 'subtract' and 'result'. */
  datatype Role = Add | Subtract | Result

  /** A column span is an integer or a string such as "full". */
  datatype Span = Columns(count: int) | Named(text: string)

  /** The record a computed default is evaluated against; `NoRecord` is PHP's null. */
  datatype Record = NoRecord | Row(attributes: map<string, string>)

  /** A field's default: unset, a literal number, or a closure over the record. */
  datatype DefaultValue = NoDefault | Literal(value: real) | Computed(fn: Record -> real)

  /** What `resolveDefault` yields for a stored default: 0 when unset, the
      literal itself, or the closure applied to the record on this call. */
  function Resolve(d: DefaultValue, record: Record): real
  {
    match d
    case NoDefault => 0.0
    case Literal(v) => v
    case Computed(g) => g(record)
  }

  /** The state of one `CalcField` at one moment, as a value. */
  datatype FieldSpec = FieldSpec(
    name: string,
    role: Role,
    labelText: string,
    prefix: string,
    required: bool,
    columnSpan: Span,
    helperText: string,
    default: DefaultValue)

  /** The state a freshly made field has: role add, label = name, no prefix,
      not required, one column, no helper text, no default. */
  function Made(name: string): FieldSpec
  {
    FieldSpec(name, Add, name, "", false, Columns(1), "", NoDefault)
  }

  class CalcField {
    var name: string
    var role: Role
    var labelText: string
    var prefix: string
    var required: bool
    var columnSpan: Span
    var helperText: string
    var default: DefaultValue

    /** The field's whole state as a value. */
    function Snapshot(): FieldSpec
      reads this
    {
      FieldSpec(name, role, labelText, prefix, required, columnSpan, helperText, default)
    }

    constructor (name: string)
      ensures Snapshot() == Made(name)
      ensures forall record :: ResolveDefault(record) == 0.0
    {
      this.name := name;
      role := Add;
      labelText := name;
      prefix := "";
      required := false;
      columnSpan := Columns(1);
      helperText := "";
      default := NoDefault;
    }

    static method Make(name: string) returns (f: CalcField)
      ensures fresh(f)
      ensures f.Snapshot() == Made(name)
    {
      f := new CalcField(name);
    }

    method Adds() returns (self: CalcField)
      modifies this
      ensures self == this
      ensures Snapshot() == old(Snapshot()).(role := Add)
      ensures !IsResult()
    {
      role := Add;
      self := this;
    }

    method Subtracts() returns (self: CalcField)
      modifies this
      ensures self == this
      ensures Snapshot() == old(Snapshot()).(role := Subtract)
      ensures !IsResult()
    {
      role := Subtract;
      self := this;
    }

    method Result() returns (self: CalcField)
      modifies this
      ensures self == this
      ensures Snapshot() == old(Snapshot()).(role := Role.Result)
      ensures IsResult()
    {
      role := Role.Result;
      self := this;
    }

    /** The source's parameter type (float|Closure) admits no null. */
    method Default(value: DefaultValue) returns (self: CalcField)
      requires !value.NoDefault?
      modifies this
      ensures self == this
      ensures Snapshot() == old(Snapshot()).(default := value)
      ensures GetDefault() == value
      ensures value.Literal? ==> forall record :: ResolveDefault(record) == value.value
      ensures value.Computed? ==> forall record :: ResolveDefault(record) == value.fn(record)
    {
      default := value;
      self := this;
    }

    method Label(text: string) returns (self: CalcField)
      modifies this
      ensures self == this
      ensures Snapshot() == old(Snapshot()).(labelText := text)
      ensures GetLabel() == text
    {
      labelText := text;
      self := this;
    }

    method Prefix(prefix: string) returns (self: CalcField)
      modifies this
      ensures self == this
      ensures Snapshot() == old(Snapshot()).(prefix := prefix)
      ensures GetPrefix() == prefix
    {
      this.prefix := prefix;
      self := this;
    }

    method Required(required: bool := true) returns (self: CalcField)
      modifies this
      ensures self == this
      ensures Snapshot() == old(Snapshot()).(required := required)
      ensures IsRequired() == required
    {
      this.required := required;
      self := this;
    }

    method ColumnSpan(span: Span) returns (self: CalcField)
      modifies this
      ensures self == this
      ensures Snapshot() == old(Snapshot()).(columnSpan := span)
      ensures GetColumnSpan() == span
    {
      columnSpan := span;
      self := this;
    }

    method HelperText(text: string) returns (self: CalcField)
      modifies this
      ensures self == this
      ensures Snapshot() == old(Snapshot()).(helperText := text)
      ensures GetHelperText() == text
    {
      helperText := text;
      self := this;
    }

    function GetName(): string reads this { name }

    function GetRole(): Role reads this { role }

    function GetLabel(): string reads this { labelText }

    function GetPrefix(): string reads this { prefix }

    function IsRequired(): bool reads this { required }

    function GetColumnSpan(): Span reads this { columnSpan }

    function GetHelperText(): string reads this { helperText }

    function GetDefault(): DefaultValue reads this { default }

    function IsResult(): bool reads this { role == Role.Result }

    /** Evaluated afresh on every call: nothing is cached between calls. */
    function ResolveDefault(record: Record := NoRecord): real
      reads this
    {
      Resolve(default, record)
    }
  }

  /** The states of a list of fields, in order. */
  function Snapshots(fs: seq<CalcField>): (r: seq<FieldSpec>)
    reads fs
    ensures |r| == |fs|
    ensures forall i :: 0 <= i < |fs| ==> r[i] == fs[i].Snapshot()
  {
    if fs == [] then [] else Snapshots(fs[..|fs| - 1]) + [fs[|fs| - 1].Snapshot()]
  }
}
