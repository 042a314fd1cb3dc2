/**
 * The parts of the hdlConvertor AST that the basic-HDL-simulation-model
 * serialiser reads. The parser builds them once; the serialiser never changes them.
 */
module HdlAst {
  import opened Wrappers

  /**
   * The built-in operators (HdlBuiltinFn) the serialiser tells apart; all
   * others, the edge operators included, are OtherFn and reach the
   * sensitivity printer by name.
   */
  datatype BuiltinFn = MapAssociation | Index | OtherFn(opName: string)

  /** Expressions (iHdlExpr). */
  datatype Expr =
    | Name(val: string)                   // HdlName
    | Call(fn: BuiltinFn, ops: seq<Expr>) // HdlCall
    | TypeOfTypes                         // HdlTypeType: the type of a type declaration
    | EnumType(enumDef: EnumDef)          // an HdlEnumDef used as the value of a type declaration

  /** HdlEnumDef: a name and its members, each an identifier with an optional explicit value. */
  datatype EnumDef = EnumDef(name: string, values: seq<EnumMember>)
  datatype EnumMember = EnumMember(key: string, value: Option<Expr>)

  /** HdlVariableDef: ports, internal signals, constants and type declarations. */
  datatype VarDef = VarDef(name: string, typ: Expr, value: Option<Expr>, isConst: bool)

  /**
   * HdlClassDef. As a type declaration it gets as far as its name and then
   * fails at the `value` attribute, which this class lacks.
   */
  datatype ClassDef = ClassDef(name: string)

  /**
   * HdlComponentInst. The source's instance and module names are HdlName
   * objects; the model keeps their identifier text. Each port-map entry is
   * meant to be a MAP_ASSOCIATION call of (module port, connected signal).
   */
  datatype ComponentInst = ComponentInst(name: string, moduleName: string, portMap: seq<Expr>)

  /**
   * A statement of any statement class. `uid` stands for object identity
   * (the source keys its output-set dictionary by statement object);
   * `sensitivity` is None for a statement that has no sensitivity list.
   * The body is read only by the process printer.
   */
  datatype Statement = Statement(uid: nat, labels: seq<string>, sensitivity: Option<seq<Expr>>)

  /** An object in a module body; OtherObj is any class the serialiser has no container for. */
  datatype BodyObj =
    | VarDefObj(v: VarDef)
    | ClassDefObj(cls: ClassDef)
    | EnumDefObj(enumObj: EnumDef)
    | ComponentObj(inst: ComponentInst)
    | StatementObj(stm: Statement)
    | OtherObj(className: string)

  /** HdlModuleDec: entity name, generics and ports. */
  datatype ModuleDec = ModuleDec(name: string, params: seq<VarDef>, ports: seq<VarDef>)

  /** HdlModuleDef: its declaration (which may be missing) and its body objects. */
  datatype ModuleDef = ModuleDef(dec: Option<ModuleDec>, objs: seq<BodyObj>)
}
