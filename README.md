# ToBasicHdlSimModel in Dafny

This project models the `ToBasicHdlSimModel` serialiser of hdlConvertor. The serialiser turns an HDL module definition into a Python class that the basic RTL simulator of pycocotb runs. For each module it writes the following, in order:

- the shared import preamble, while it is still due;
- one import per component instance, when a module path prefix is set;
- the class line and the type declarations;
- the constructor: ports, internal signals, component instances;
- `_init_body`: the port bindings, the `_interfaces`, `_processes` and `_units` tuples, and one registration per process (its sensitivity list and its `_outputs` entry);
- the process functions.

Module by module:

- `Wrappers` (`wrappers.dfy`): `Option`, `Result` and `Outcome`.
- `HdlAst` (`hdl_ast.dfy`): the part of the HDL AST the serialiser reads.
- `SimErrors` (`errors.dfy`): one error per way the serialiser can raise.
- `ModuleObjs` (`module_objs.dfy`): sorting a module body into types, variables, processes and components. It also gives reference filters for each bucket and the lemmas relating the two.
- `SimModelText` (`sim_model_text.dfy`): the text of each section as functions of the AST. Each returns `Result` when the source can raise. `Lower` gives the whole module.
- `BasicHdlSimModel` (`serializer.dfy`): the class `ToBasicHdlSimModel`.
  - Its fields are the output stream `out`, `modulePathPrefix`, `addImports` and `stmOutputs`.
  - It has one method per visitor of the source, with loops where the source loops.
  - Each method is proved to append exactly the text that `SimModelText` gives, or to fail with the error the source raises.
- `SimModelProps` (`sim_model_props.dfy`): what that text promises.
  - One entry per object in every section.
  - The exact conditions under which each section, and the whole module, can be written, given expression and type printers that do not raise. These are stated against independent predicates such as `IsBinding`, `Declarable`, `Registrable` and `Lowerable`.
  - How the import preamble is shared between modules.

The output stream is a sequence of chunks. A chunk is either the text of one emitted item or one fixed line of the generated class. An emitted item is one declaration, one port binding, one tuple entry, one process registration or one process body. Indentation is not part of the model.

The serialiser inherits its expression, type and statement printers from its parent classes. It also uses `sensitivityByOp` from a helper module. These are function values held in a `Printer` record that the class receives on construction. Exceptions are values of `SimErrors.Error`.

## Model

| member | source | states |
|---|---|---|
| BasicHdlSimModel.ToBasicHdlSimModel.constructor | hdlConvertor/to/basic_hdl_sim_model/_main.py:37-44 | a fresh serialiser has empty output, no module path prefix, the preamble due and no process outputs |
| BasicHdlSimModel.ToBasicHdlSimModel.SetModulePathPrefix | hdlConvertor/to/basic_hdl_sim_model/_main.py:29-31 | the caller's choice of prefix is what later modules see; nothing else changes |
| BasicHdlSimModel.ToBasicHdlSimModel.VisitHdlContext | hdlConvertor/to/basic_hdl_sim_model/_main.py:263-269 | records the outputs of every process for the modules written afterwards |
| BasicHdlSimModel.ToBasicHdlSimModel.VisitComponentImports | hdlConvertor/to/basic_hdl_sim_model/_main.py:49-56 | appends one `from <prefix>.<module> import <module>` per instance when a prefix is set, nothing otherwise |
| BasicHdlSimModel.ToBasicHdlSimModel.SplitHdlModuleDefObjs | hdlConvertor/to/basic_hdl_sim_model/_main.py:58-80 | the loop computes the split of the body objects into the four buckets, or the error for an object with no bucket |
| BasicHdlSimModel.ToBasicHdlSimModel.VisitHdlModuleDef | hdlConvertor/to/basic_hdl_sim_model/_main.py:82-207 | appends exactly the module's text (preamble if due, imports, class line, class body) or fails with the first error the source raises, keeping earlier output; the preamble stays due only while a prefix is set |
| BasicHdlSimModel.ToBasicHdlSimModel.WriteClassBody | hdlConvertor/to/basic_hdl_sim_model/_main.py:104-207 | appends type declarations, constructor, `_init_body` and process functions in that order, or fails with the first error |
| BasicHdlSimModel.ToBasicHdlSimModel.WriteConstructor | hdlConvertor/to/basic_hdl_sim_model/_main.py:108-127 | appends the `__init__` header, the port declarations, the internal signals and the instances, each after its comment line |
| BasicHdlSimModel.ToBasicHdlSimModel.WriteInitBody | hdlConvertor/to/basic_hdl_sim_model/_main.py:129-203 | appends the bindings, the three tuples, the registrations and the loop initialising the units, or fails with the first error |
| BasicHdlSimModel.ToBasicHdlSimModel.WriteRegisterTuples | hdlConvertor/to/basic_hdl_sim_model/_main.py:147-172 | appends the `_interfaces`, `_processes` and `_units` tuples, or fails when a process has no label |
| BasicHdlSimModel.ToBasicHdlSimModel.WriteTypeDecls | hdlConvertor/to/basic_hdl_sim_model/_main.py:105-106 | appends one declaration per object of the types bucket, in order, or stops at the first one that cannot be declared |
| BasicHdlSimModel.ToBasicHdlSimModel.VisitTypeDeclr | hdlConvertor/to/basic_hdl_sim_model/_main.py:209-233 | appends an enumeration as `define_Enum3t` over its quoted keys or an array type through the expression printer; fails on an enum value, on any other type and on an object without a value |
| BasicHdlSimModel.ToBasicHdlSimModel.VisitHdlVariableDef | hdlConvertor/to/basic_hdl_sim_model/_main.py:235-261 | appends the declaration of one variable: a constant as a plain attribute, anything else as a `BasicRtlSimProxy` whose default is `None` when there is no value |
| BasicHdlSimModel.ToBasicHdlSimModel.WriteVarDecls | hdlConvertor/to/basic_hdl_sim_model/_main.py:114-118 | appends one declaration per variable, in order |
| BasicHdlSimModel.ToBasicHdlSimModel.WriteInstances | hdlConvertor/to/basic_hdl_sim_model/_main.py:119-127 | appends one construction line per component instance, in order |
| BasicHdlSimModel.ToBasicHdlSimModel.WritePortMap | hdlConvertor/to/basic_hdl_sim_model/_main.py:132-145 | appends one `connectSimPort` line per port-map entry, or fails on an entry that is not a two-name association |
| BasicHdlSimModel.ToBasicHdlSimModel.WriteConnections | hdlConvertor/to/basic_hdl_sim_model/_main.py:131-145 | appends the port maps of all instances, in order, or fails at the first bad entry |
| BasicHdlSimModel.ToBasicHdlSimModel.WriteInterfaces | hdlConvertor/to/basic_hdl_sim_model/_main.py:147-154 | appends an `_interfaces` entry for each non-constant port or signal |
| BasicHdlSimModel.ToBasicHdlSimModel.WriteProcessNames | hdlConvertor/to/basic_hdl_sim_model/_main.py:156-165 | appends each process's first label, or fails on a process without labels |
| BasicHdlSimModel.ToBasicHdlSimModel.WriteUnits | hdlConvertor/to/basic_hdl_sim_model/_main.py:166-172 | appends a `_units` entry per instance |
| BasicHdlSimModel.ToBasicHdlSimModel.WriteRegistration | hdlConvertor/to/basic_hdl_sim_model/_main.py:175-201 | appends the sensitivity line and `_outputs` entry of one process, or fails with the error for a missing label, sensitivity list, operator tag, operand, outputs map, outputs entry or non-name output |
| BasicHdlSimModel.ToBasicHdlSimModel.SensitivityListText | hdlConvertor/to/basic_hdl_sim_model/_main.py:178-189 | the loop computes the sensitivity entries joined by `, ` with no separator after the last, or the first entry's error |
| BasicHdlSimModel.ToBasicHdlSimModel.OutputsListText | hdlConvertor/to/basic_hdl_sim_model/_main.py:194-201 | the loop computes the `self.io.<name>,` entries of the outputs, or fails on an output that is not a name |
| BasicHdlSimModel.ToBasicHdlSimModel.WriteRegistrations | hdlConvertor/to/basic_hdl_sim_model/_main.py:174-201 | appends the registration of every process, in order, or stops at the first failure |
| BasicHdlSimModel.ToBasicHdlSimModel.WriteProcessBodies | hdlConvertor/to/basic_hdl_sim_model/_main.py:204-207 | appends each process body followed by an empty line, or fails when the statement printer does |
| ModuleObjs.SplitIsFilter | hdlConvertor/to/basic_hdl_sim_model/_main.py:58-80 | a successful split puts into each bucket exactly the objects of that bucket, in body order |
| ModuleObjs.SplitFailsIffUnclassified | hdlConvertor/to/basic_hdl_sim_model/_main.py:66-78 | the split fails exactly when some object's class is not in the container map |
| ModuleObjs.BucketsCoverEveryObject | hdlConvertor/to/basic_hdl_sim_model/_main.py:74-78 | when all objects are classified, the buckets together hold every object once |
| ModuleObjs.BucketMembership | hdlConvertor/to/basic_hdl_sim_model/_main.py:66-78 | type-typed variables, class and enum definitions are types; other variables are variables; statements are processes; instances are components |
| SimModelProps.ImportLinesPerComponent | hdlConvertor/to/basic_hdl_sim_model/_main.py:49-56 | without a prefix there are no imports; with one, import i is that of instance i |
| SimModelProps.VarDeclsPerVariable | hdlConvertor/to/basic_hdl_sim_model/_main.py:114-118 | declaration i is that of variable i, and there is one per variable |
| SimModelProps.VarDeclShape | hdlConvertor/to/basic_hdl_sim_model/_main.py:241-250 | a constant starts `self.<name> = `, any other variable `self.io.<name> = BasicRtlSimProxy(` |
| SimModelProps.InstancesPerComponent | hdlConvertor/to/basic_hdl_sim_model/_main.py:119-127 | one construction line per instance, line i for instance i |
| SimModelProps.PortMapLinesOkIff | hdlConvertor/to/basic_hdl_sim_model/_main.py:132-145 | a port map can be written exactly when every entry is a binding of two names; then line i is the `connectSimPort` line of entry i, which names the connected signal (second operand) before the module port (first operand) |
| SimModelProps.ConnectionsOkIff | hdlConvertor/to/basic_hdl_sim_model/_main.py:131-145 | all port maps can be written exactly when every entry of every instance is a binding; then one line per entry overall |
| SimModelProps.ConnectionsInOrder | hdlConvertor/to/basic_hdl_sim_model/_main.py:131-145 | the bindings follow instance order and port-map order: the lines of instance k start after the entries of the instances before it, and entry i of instance k is its `connectSimPort` line |
| SimModelProps.InterfacesAreNonConst | hdlConvertor/to/basic_hdl_sim_model/_main.py:147-154 | `_interfaces` entry i names the i-th non-constant port or signal |
| SimModelProps.NonConstMembership | hdlConvertor/to/basic_hdl_sim_model/_main.py:149-150 | a variable is listed exactly when it is a non-constant port or signal |
| SimModelProps.ProcessNamesOkIff | hdlConvertor/to/basic_hdl_sim_model/_main.py:156-165 | `_processes` can be written exactly when every process has a label; entry i is process i's first label |
| SimModelProps.UnitsPerComponent | hdlConvertor/to/basic_hdl_sim_model/_main.py:166-172 | `_units` entry i names instance i |
| SimModelProps.SensitivityEntryShape | hdlConvertor/to/basic_hdl_sim_model/_main.py:178-187 | an entry can be written exactly when it is not a call or its operator has a tag and an operand; a call's entry starts `(<tag>, self.io.<operand>`, any other entry starts `self.io.` |
| SimModelProps.SensitivityEntriesOkIff | hdlConvertor/to/basic_hdl_sim_model/_main.py:178-190 | a sensitivity list can be written exactly when each entry can; then entry i is that of signal or edge i |
| SimModelProps.OutputsTextOkIff | hdlConvertor/to/basic_hdl_sim_model/_main.py:194-200 | an `_outputs` entry can be written exactly when every output is a name; then it is one `self.io.<name>,` entry per output, in list order |
| SimModelProps.RegistrationOkIff | hdlConvertor/to/basic_hdl_sim_model/_main.py:174-201 | a process can be registered exactly when it is `Registrable`; its registration starts with its sensitivity line |
| SimModelProps.RegistrationNeedsOutputs | hdlConvertor/to/basic_hdl_sim_model/_main.py:194 | no process can be registered before the caller has set the process outputs |
| SimModelProps.RegistrationsOkIff | hdlConvertor/to/basic_hdl_sim_model/_main.py:174-201 | every process is registered, registration i for process i, or the module fails |
| SimModelProps.EnumMemberTextsOkIff | hdlConvertor/to/basic_hdl_sim_model/_main.py:222-227 | enum keys can be listed exactly when no member has an explicit value; key i is quoted member i |
| SimModelProps.TypeDeclOkIff | hdlConvertor/to/basic_hdl_sim_model/_main.py:209-233 | a type can be declared exactly when it is `Declarable`: an enum without values or an array type |
| SimModelProps.TypeDeclsOkIff | hdlConvertor/to/basic_hdl_sim_model/_main.py:104-106 | the types bucket is declared one by one in order, or not at all |
| SimModelProps.ColourEnumExample | hdlConvertor/to/basic_hdl_sim_model/_main.py:218-227 | an enumeration RED, GREEN, BLUE is declared as `define_Enum3t("colour_t", ["RED", "GREEN", "BLUE"])()` |
| SimModelProps.ProcessBodiesOkIff | hdlConvertor/to/basic_hdl_sim_model/_main.py:204-207 | every process body is written, body i for process i, exactly when the statement printer handles each process |
| SimModelProps.TypesOkIff | hdlConvertor/to/basic_hdl_sim_model/_main.py:74-78 | every type in the types bucket is declarable exactly when every body object of that bucket is |
| SimModelProps.ComponentsOkIff | hdlConvertor/to/basic_hdl_sim_model/_main.py:74-78 | every port map in the components bucket is bindable exactly when that of every instance in the body is |
| SimModelProps.ProcessesOkIff | hdlConvertor/to/basic_hdl_sim_model/_main.py:74-78 | every process in the processes bucket is registrable and printable exactly when every statement of the body is |
| SimModelProps.ObjectsOkIffBucketsOk | hdlConvertor/to/basic_hdl_sim_model/_main.py:95 | every body object is fit for its section exactly when the split succeeds and each bucket meets its section's condition |
| SimModelProps.LowerOkIff | hdlConvertor/to/basic_hdl_sim_model/_main.py:82-207 | a module is written in full exactly when it is `Lowerable`: it has a declaration without generics and each body object is fit for its section |
| SimModelProps.LowerNeedsOutputs | hdlConvertor/to/basic_hdl_sim_model/_main.py:32-33 | a module with processes cannot be written before the process outputs are set |
| SimModelProps.LowerCounts | hdlConvertor/to/basic_hdl_sim_model/_main.py:82-207 | a written module has one entry per object in every section: declarations, instances, units, imports, bindings, interfaces, process names, registrations, bodies |
| SimModelProps.PreambleEveryModuleWithPrefix | hdlConvertor/to/basic_hdl_sim_model/_main.py:89-93 | with a module path prefix every declared module gets the import preamble |
| SimModelProps.PreambleOnceWithoutPrefix | hdlConvertor/to/basic_hdl_sim_model/_main.py:89-93 | without a prefix the preamble is written once, before the first declared module, and never again |

## Left out

- Indentation: the `Indent` context manager only changes leading whitespace, so chunks carry no indentation.
- `visit_doc`: documentation comments are not modelled.
- The parent-class printers (`visit_iHdlExpr`, `visit_type`, `visit_HdlStmProcess`) and `sensitivityByOp` are not part of this model. They are parameters of the `Printer` record. A missing value prints as `Printer.none`. A statement the process printer cannot handle is `ProcessBodyFailed`. An operator without a sensitivity tag is `UnknownSensitivityOp`.
- `visit_HdlContext`: only the assignment of the process outputs is modelled. The walk over the context's objects is done by the parent class, which is not part of this model.
- The expression and type printers (`Printer.expr`, `Printer.typ`) are total functions, so a failure of `visit_iHdlExpr` or `visit_type` on an expression the parent class cannot print is not modelled (_main.py:141, 144, 183, 187, 230, 245, 255, 260). LowerOkIff and the other `OkIff` lemmas characterise the failures this serialiser raises itself, under that assumption.
- The `__main__` block (parsing a Verilog file and printing to stdout) is I/O and is left out.
- Names: `HdlName` values and their `%s` formatting are modelled as plain strings.
- Process identity: dictionary keys by object identity are modelled by the `uid` field of `Statement`.
- Port directions are not read by this serialiser and are not modelled.
- Statement bodies are opaque to this serialiser. Only labels and the sensitivity list are modelled.
- VisitHdlModuleDef: on failure it promises only that earlier output is kept (`old(out) <= out`), not the exact partial text written before the exception. The same holds for WriteClassBody, WriteInitBody, WriteRegisterTuples, WriteTypeDecls, WritePortMap, WriteConnections, WriteProcessNames, WriteRegistrations and WriteProcessBodies.
- VisitTypeDeclr: the text of one declaration is one chunk, appended only once the declaration is complete. The source writes `<name> = ` and part of an enumeration before it raises; that partial text is not modelled.
- WriteRegistration: the registration of one process is one chunk. The source writes part of the sensitivity line before it raises on a bad entry or on missing outputs; that partial text is not modelled.
- Class and enum definitions placed directly in a module body reach the type-declaration visitor, which reads a `value` attribute that those AST classes lack. The AST library is not part of this model, so this case is modelled as the error `NoValueAttribute`.
