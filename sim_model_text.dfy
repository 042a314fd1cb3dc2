/**
 * The text ToBasicHdlSimModel writes for one module definition, as functions
 * of the AST. The output stream is a sequence of chunks: each chunk is the
 * text of one emitted item (a declaration, a port binding, a tuple entry, the
 * registration of one process, one process body) or one fixed line of the
 * generated class. Indentation is not modelled.
 */
module SimModelText {
  import opened Wrappers
  import opened HdlAst
  import opened SimErrors
  import opened ModuleObjs

  /**
   * The printers the serialiser inherits from its parent classes or imports,
   * which are not part of this model: `expr` writes an expression, `none` is
   * what the expression printer writes for a missing value, `typ` writes a
   * type, `process` writes a process body (None when it raises) and
   * `sensitivityByOp` names the sensitivity kind of an operator (None when
   * it has none).
   */
  datatype Printer = Printer(
    expr: Expr -> string,
    none: string,
    typ: Expr -> string,
    process: Statement -> Option<string>,
    sensitivityByOp: BuiltinFn -> Option<string>)

  /** The output signals of each process, once the caller has supplied them. */
  type Outputs = Option<map<Statement, seq<Expr>>>

  const DefaultImports: string :=
    "from pyMathBitPrecise.array3t import Array3t, Array3val\n" +
    "from pyMathBitPrecise.bits3t import Bits3t, Bits3val\n" +
    "from pyMathBitPrecise.enum3t import define_Enum3t\n" +
    "\n" +
    "from pycocotb.basic_hdl_simulator.model import BasicRtlSimModel\n" +
    "from pycocotb.basic_hdl_simulator.model_utils import sensitivity, connectSimPort\n" +
    "from pycocotb.basic_hdl_simulator.proxy import BasicRtlSimProxy\n" +
    "from pycocotb.basic_hdl_simulator.sim_utils import sim_eval_cond\n"

  const Preamble: string := DefaultImports + "\n"
  const SuperInit: string := "BasicRtlSimModel.__init__(self, sim, name=name)\n"
  const PortsComment: string := "# ports\n"
  const SignalsComment: string := "# internal signals\n"
  const InstancesComment: string := "# component instances\n"
  const InitBodyHeader: string := "def _init_body(self):\n"
  const InterfacesOpen: string := "self._interfaces = (\n"
  const ProcessesOpen: string := "self._processes = (\n"
  const UnitsOpen: string := "self._units = ("
  const TupleClose: string := ")\n"
  const UnitsInitBody: string := "for u in self._units:\n    u._init_body()\n\n"

  function ClassLine(name: string): string
  {
    "class " + name + "(BasicRtlSimModel):\n"
  }

  function InitHeader(name: string): string
  {
    "def __init__(self, sim: \"BasicRtlSimulator\", name=\"" + name + "\"):\n"
  }

  /** An entry `self.io.<name>,` of a signal tuple. */
  function IoEntry(name: string): string
  {
    "self.io." + name + ",\n"
  }

  /** An entry `self.<name>,` of a process or unit tuple. */
  function SelfEntry(name: string): string
  {
    "self." + name + ",\n"
  }

  /** Chunks already written, followed by what the rest of a section gives. */
  function Prefixed<T>(done: seq<T>, rest: Result<seq<T>, Error>): Result<seq<T>, Error>
  {
    match rest
    case Ok(t) => Ok(done + t)
    case Err(e) => Err(e)
  }

  /** The items with `sep` between neighbours and none after the last. */
  function Join(items: seq<string>, sep: string): string
  {
    if |items| == 0 then ""
    else if |items| == 1 then items[0]
    else items[0] + sep + Join(items[1..], sep)
  }

  // ---------------------------------------------------------------- imports

  function ImportLine(prefix: string, c: ComponentInst): string
  {
    "from " + prefix + "." + c.moduleName + " import " + c.moduleName + "\n"
  }

  /** One import per component when a module path prefix is set, none otherwise. */
  function ImportLines(prefix: Option<string>, comps: seq<ComponentInst>): seq<string>
  {
    if prefix.None? || comps == [] then []
    else [ImportLine(prefix.value, comps[0])] + ImportLines(prefix, comps[1..])
  }

  // ------------------------------------------------------ type declarations

  function EnumMemberText(m: EnumMember): Result<string, Error>
  {
    if m.value.Some? then Err(EnumValueUnsupported(m.key)) else Ok("\"" + m.key + "\"")
  }

  function EnumMemberTexts(ms: seq<EnumMember>): Result<seq<string>, Error>
  {
    if ms == [] then Ok([])
    else
      var first :- EnumMemberText(ms[0]);
      var rest :- EnumMemberTexts(ms[1..]);
      Ok([first] + rest)
  }

  /** The declaration of one object of the types bucket. */
  function TypeDecl(p: Printer, t: BodyObj): Result<string, Error>
  {
    if !t.VarDefObj? then Err(NoValueAttribute)
    else
      var v := t.v;
      match v.value
      case Some(EnumType(e)) =>
        var keys :- EnumMemberTexts(e.values);
        Ok(v.name + " = define_Enum3t(\"" + v.name + "\", [" + Join(keys, ", ") + "])()\n")
      case Some(Call(Index, _)) => Ok(v.name + " = " + p.expr(v.value.value) + "\n")
      case _ => Err(UnsupportedTypeValue)
  }

  function TypeDecls(p: Printer, ts: seq<BodyObj>): Result<seq<string>, Error>
  {
    if ts == [] then Ok([])
    else
      var first :- TypeDecl(p, ts[0]);
      var rest :- TypeDecls(p, ts[1..]);
      Ok([first] + rest)
  }

  // ------------------------------------------------------------ constructor

  function ValueText(p: Printer, e: Option<Expr>): string
  {
    if e.None? then p.none else p.expr(e.value)
  }

  /** A constant binds a plain value; any other variable a simulation proxy. */
  function VarDecl(p: Printer, v: VarDef): string
  {
    if v.isConst then "self." + v.name + " = " + ValueText(p, v.value) + "\n"
    else
      "self.io." + v.name + " = BasicRtlSimProxy(\n" + "sim, self, \"" + v.name + "\",\n"
      + p.typ(v.typ) + ", " + (if v.value.None? then "None)\n" else p.expr(v.value.value) + ")\n")
  }

  function VarDecls(p: Printer, vs: seq<VarDef>): seq<string>
  {
    if vs == [] then [] else [VarDecl(p, vs[0])] + VarDecls(p, vs[1..])
  }

  function InstanceLine(c: ComponentInst): string
  {
    "self." + c.name + " = " + c.moduleName + "(sim, \"" + c.name + "\")\n"
  }

  function Instances(cs: seq<ComponentInst>): seq<string>
  {
    if cs == [] then [] else [InstanceLine(cs[0])] + Instances(cs[1..])
  }

  // ------------------------------------------------------------- _init_body

  /** The binding of one port-map entry of instance `inst`: signal first, then port. */
  function ConnectLine(p: Printer, inst: string, pm: Expr): Result<string, Error>
  {
    if !(pm.Call? && pm.fn == MapAssociation) then Err(PortMapNotAssociation)
    else if |pm.ops| != 2 then Err(PortMapArity(|pm.ops|))
    else if !pm.ops[1].Name? || !pm.ops[0].Name? then Err(PortMapOperandNotName)
    else Ok("connectSimPort(self, self." + inst + ", \"" + p.expr(pm.ops[1]) + "\", \""
            + p.expr(pm.ops[0]) + "\")\n")
  }

  function PortMapLines(p: Printer, inst: string, pms: seq<Expr>): Result<seq<string>, Error>
  {
    if pms == [] then Ok([])
    else
      var first :- ConnectLine(p, inst, pms[0]);
      var rest :- PortMapLines(p, inst, pms[1..]);
      Ok([first] + rest)
  }

  function Connections(p: Printer, comps: seq<ComponentInst>): Result<seq<string>, Error>
  {
    if comps == [] then Ok([])
    else
      var first :- PortMapLines(p, comps[0].name, comps[0].portMap);
      var rest :- Connections(p, comps[1..]);
      Ok(first + rest)
  }

  /** The `_interfaces` entries: every non-constant variable, in order. */
  function Interfaces(vs: seq<VarDef>): seq<string>
  {
    if vs == [] then []
    else (if vs[0].isConst then [] else [IoEntry(vs[0].name)]) + Interfaces(vs[1..])
  }

  function ProcessName(s: Statement): Result<string, Error>
  {
    if s.labels == [] then Err(ProcessWithoutLabel) else Ok(SelfEntry(s.labels[0]))
  }

  function ProcessNames(ss: seq<Statement>): Result<seq<string>, Error>
  {
    if ss == [] then Ok([])
    else
      var first :- ProcessName(ss[0]);
      var rest :- ProcessNames(ss[1..]);
      Ok([first] + rest)
  }

  function Units(cs: seq<ComponentInst>): seq<string>
  {
    if cs == [] then [] else [SelfEntry(cs[0].name)] + Units(cs[1..])
  }

  /** A call is an edge-tagged pair; anything else a plain reference to a signal proxy. */
  function SensitivityEntry(p: Printer, e: Expr): Result<string, Error>
  {
    if e.Call? then
      match p.sensitivityByOp(e.fn)
      case None => Err(UnknownSensitivityOp(e.fn))
      case Some(tag) =>
        if |e.ops| == 0 then Err(EdgeWithoutOperand)
        else Ok("(" + tag + ", self.io." + p.expr(e.ops[0]) + ")")
    else Ok("self.io." + p.expr(e))
  }

  function SensitivityEntries(p: Printer, es: seq<Expr>): Result<seq<string>, Error>
  {
    if es == [] then Ok([])
    else
      var first :- SensitivityEntry(p, es[0]);
      var rest :- SensitivityEntries(p, es[1..]);
      Ok([first] + rest)
  }

  function SensitivityLine(name: string, entries: seq<string>): string
  {
    "sensitivity(self." + name + ", " + Join(entries, ", ") + ")\n"
  }

  function OutputsHeader(name: string): string
  {
    "self._outputs[self." + name + "] = (\n"
  }

  function OutputEntry(o: Expr): Result<string, Error>
  {
    if o.Name? then Ok(IoEntry(o.val)) else Err(OutputNotName)
  }

  function OutputsText(os: seq<Expr>): Result<string, Error>
  {
    if os == [] then Ok("")
    else
      var first :- OutputEntry(os[0]);
      var rest :- OutputsText(os[1..]);
      Ok(first + rest)
  }

  /** The registration of one process: its sensitivity line, then its `_outputs` entry. */
  function Registration(p: Printer, outputs: Outputs, s: Statement): Result<string, Error>
  {
    if s.labels == [] then Err(ProcessWithoutLabel)
    else if s.sensitivity.None? then Err(NoSensitivityList)
    else
      var entries :- SensitivityEntries(p, s.sensitivity.value);
      if outputs.None? then Err(OutputsNotSet)
      else if s !in outputs.value then Err(MissingOutputs(s.labels[0]))
      else
        var outs :- OutputsText(outputs.value[s]);
        Ok(SensitivityLine(s.labels[0], entries) + OutputsHeader(s.labels[0]) + outs + TupleClose)
  }

  function Registrations(p: Printer, outputs: Outputs, ss: seq<Statement>): Result<seq<string>, Error>
  {
    if ss == [] then Ok([])
    else
      var first :- Registration(p, outputs, ss[0]);
      var rest :- Registrations(p, outputs, ss[1..]);
      Ok([first] + rest)
  }

  // --------------------------------------------------------- process bodies

  /** A process body, followed by an empty line that separates it from the next. */
  function ProcessBody(p: Printer, s: Statement): Result<string, Error>
  {
    match p.process(s)
    case None => Err(ProcessBodyFailed)
    case Some(text) => Ok(text + "\n")
  }

  function ProcessBodies(p: Printer, ss: seq<Statement>): Result<seq<string>, Error>
  {
    if ss == [] then Ok([])
    else
      var first :- ProcessBody(p, ss[0]);
      var rest :- ProcessBodies(p, ss[1..]);
      Ok([first] + rest)
  }

  // ---------------------------------------------------------- whole module

  /** The constructor: port declarations, internal signals, component instances. */
  datatype ConstructorText = ConstructorText(
    name: string,
    ports: seq<string>,
    signals: seq<string>,
    instances: seq<string>)

  /** `_init_body`: port bindings, the three registration tuples, per-process registrations. */
  datatype InitBodyText = InitBodyText(
    connections: seq<string>,
    interfaces: seq<string>,
    processNames: seq<string>,
    units: seq<string>,
    registrations: seq<string>)

  /** The body of the generated class: type declarations, `__init__`, `_init_body`, process functions. */
  datatype ClassBodyText = ClassBodyText(
    typeDecls: seq<string>,
    ctor: ConstructorText,
    init: InitBodyText,
    bodies: seq<string>)

  /** The sections of the text written for one module. */
  datatype ModuleText = ModuleText(
    preamble: seq<string>,
    imports: seq<string>,
    name: string,
    body: ClassBodyText)

  function ConstructorChunks(c: ConstructorText): seq<string>
  {
    [InitHeader(c.name), SuperInit, PortsComment] + c.ports + [SignalsComment] + c.signals
    + [InstancesComment] + c.instances
  }

  /** The `_interfaces`, `_processes` and `_units` tuples. */
  function RegisterTuples(interfaces: seq<string>, processNames: seq<string>, units: seq<string>): seq<string>
  {
    [InterfacesOpen] + interfaces + [TupleClose, ProcessesOpen] + processNames + [TupleClose, UnitsOpen] + units
    + [TupleClose]
  }

  function InitBodyChunks(ib: InitBodyText): seq<string>
  {
    [InitBodyHeader] + ib.connections + RegisterTuples(ib.interfaces, ib.processNames, ib.units) + ib.registrations
    + [UnitsInitBody]
  }

  function ClassBodyChunks(c: ClassBodyText): seq<string>
  {
    c.typeDecls + ConstructorChunks(c.ctor) + InitBodyChunks(c.init) + c.bodies
  }

  /** The chunks of a module, in the order they are written. */
  function Flatten(t: ModuleText): seq<string>
  {
    t.preamble + t.imports + [ClassLine(t.name)] + ClassBodyChunks(t.body)
  }

  function LowerConstructor(p: Printer, d: ModuleDec, b: Buckets): ConstructorText
  {
    ConstructorText(d.name, VarDecls(p, d.ports), VarDecls(p, b.variables), Instances(b.components))
  }

  function LowerInitBody(p: Printer, outputs: Outputs, d: ModuleDec, b: Buckets): Result<InitBodyText, Error>
  {
    var connections :- Connections(p, b.components);
    var names :- ProcessNames(b.processes);
    var registrations :- Registrations(p, outputs, b.processes);
    Ok(InitBodyText(connections, Interfaces(d.ports + b.variables), names, Units(b.components), registrations))
  }

  function LowerClassBody(p: Printer, outputs: Outputs, d: ModuleDec, b: Buckets): Result<ClassBodyText, Error>
  {
    var types :- TypeDecls(p, b.types);
    var init :- LowerInitBody(p, outputs, d, b);
    var bodies :- ProcessBodies(p, b.processes);
    Ok(ClassBodyText(types, LowerConstructor(p, d, b), init, bodies))
  }

  /** Whether the next module gets the import preamble: cleared after the first one when no prefix is set. */
  function NextAddImports(addImports: bool, prefix: Option<string>, m: ModuleDef): bool
  {
    if m.dec.None? then addImports else addImports && prefix.Some?
  }

  /** The text of one module, or the first error the source raises while writing it. */
  function Lower(p: Printer, addImports: bool, prefix: Option<string>, outputs: Outputs, m: ModuleDef)
    : Result<ModuleText, Error>
  {
    if m.dec.None? then Err(ModuleDecMissing)
    else
      var d := m.dec.value;
      var b :- Split(m.objs);
      if |d.params| > 0 then Err(UnresolvedGenerics)
      else
        var body :- LowerClassBody(p, outputs, d, b);
        Ok(ModuleText(if addImports then [Preamble] else [], ImportLines(prefix, b.components), d.name, body))
  }
}
