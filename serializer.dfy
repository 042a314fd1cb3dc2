/**
 * ToBasicHdlSimModel: writes, for each HDL module definition, a Python class
 * that the basic RTL simulator runs. Its state is the output stream, the
 * module path prefix, whether the import preamble is still due and the output
 * signals of each process.
 */
module BasicHdlSimModel {
  import opened Wrappers
  import opened HdlAst
  import opened SimErrors
  import opened ModuleObjs
  import opened SimModelText

  class ToBasicHdlSimModel {
    var out: seq<string>
    var modulePathPrefix: Option<string>
    var addImports: bool
    var stmOutputs: Outputs
    const printer: Printer

    constructor (printer: Printer)
      ensures this.printer == printer
      ensures out == [] && modulePathPrefix == None && addImports && stmOutputs == None
    {
      this.printer := printer;
      out := [];
      modulePathPrefix := None;
      addImports := true;
      stmOutputs := None;
    }

    method Write(s: string)
      modifies this`out
      ensures out == old(out) + [s]
    {
      out := out + [s];
    }

    /** The caller's assignment of the public module path prefix. */
    method SetModulePathPrefix(prefix: Option<string>)
      modifies this`modulePathPrefix
      ensures modulePathPrefix == prefix
    {
      modulePathPrefix := prefix;
    }

    /** Records the output signals of every process for the modules written next. */
    method VisitHdlContext(outputs: map<Statement, seq<Expr>>)
      modifies this`stmOutputs
      ensures stmOutputs == Some(outputs)
    {
      stmOutputs := Some(outputs);
    }

    method VisitComponentImports(components: seq<ComponentInst>)
      modifies this`out
      ensures out == old(out) + ImportLines(modulePathPrefix, components)
    {
      if modulePathPrefix.Some? {
        var prefix := modulePathPrefix.value;
        ghost var done: seq<string> := [];
        var i := 0;
        while i < |components|
          invariant 0 <= i <= |components|
          invariant out == old(out) + done
          invariant ImportLines(modulePathPrefix, components) == done + ImportLines(modulePathPrefix, components[i..])
        {
          assert components[i..][1..] == components[i + 1..];
          Write(ImportLine(prefix, components[i]));
          Extend(old(out), done, [ImportLine(prefix, components[i])]);
          done := done + [ImportLine(prefix, components[i])];
          i := i + 1;
        }
      }
    }

    /** Sorts the body objects into types, variables, processes and components. */
    method SplitHdlModuleDefObjs(objs: seq<BodyObj>) returns (r: Result<Buckets, Error>)
      ensures r == Split(objs)
    {
      var types: seq<BodyObj> := [];
      var variables: seq<VarDef> := [];
      var processes: seq<Statement> := [];
      var components: seq<ComponentInst> := [];
      var i := 0;
      assert objs[0..] == objs;
      ThenNil(Split(objs));
      while i < |objs|
        invariant 0 <= i <= |objs|
        invariant Split(objs) == Then(Buckets(types, variables, processes, components), Split(objs[i..]))
      {
        var o := objs[i];
        assert objs[i..][0] == o && objs[i..][1..] == objs[i + 1..];
        ghost var before := Buckets(types, variables, processes, components);
        if o.VarDefObj? && o.v.typ == TypeOfTypes {
          types := types + [o];
        } else {
          match ContainerOf(o)
          case None => return Err(UnknownObjectClass(o.className));
          case Some(Types) => types := types + [o];
          case Some(Variables) => variables := variables + [o.v];
          case Some(Processes) => processes := processes + [o.stm];
          case Some(Components) => components := components + [o.inst];
        }
        ThenThen(before, Place(o).value, Split(objs[i + 1..]));
        assert Buckets(types, variables, processes, components) == Concat(before, Place(o).value);
        i := i + 1;
      }
      assert objs[i..] == [];
      assert Concat(Buckets(types, variables, processes, components), NoBuckets)
             == Buckets(types, variables, processes, components);
      r := Ok(Buckets(types, variables, processes, components));
    }

    /** Writes one type declaration: an enumeration or an array type. */
    method VisitTypeDeclr(t: BodyObj) returns (r: Outcome<Error>)
      modifies this`out
      ensures match TypeDecl(printer, t)
        case Ok(s) => r == Pass && out == old(out) + [s]
        case Err(e) => r == Fail(e) && out == old(out)
    {
      if !t.VarDefObj? {
        return Fail(NoValueAttribute);
      }
      var v := t.v;
      match v.value
      case Some(EnumType(e)) =>
        var members := e.values;
        var acc := "";
        ghost var done: seq<string> := [];
        var i := 0;
        PrefixedNil(EnumMemberTexts(members));
        assert members[0..] == members;
        while i < |members|
          invariant 0 <= i <= |members| && |done| == i
          invariant out == old(out)
          invariant EnumMemberTexts(members) == Prefixed(done, EnumMemberTexts(members[i..]))
          invariant acc == Join(done, ", ") + (if 0 < i < |members| then ", " else "")
        {
          assert members[i..][0] == members[i] && members[i..][1..] == members[i + 1..];
          if members[i].value.Some? {
            assert EnumMemberTexts(members[i..]) == Err(EnumValueUnsupported(members[i].key));
            assert TypeDecl(printer, t) == Err(EnumValueUnsupported(members[i].key));
            return Fail(EnumValueUnsupported(members[i].key));
          }
          var item := "\"" + members[i].key + "\"";
          PrefixedThen(done, item, EnumMemberTexts(members[i + 1..]));
          JoinSnoc(done, item, ", ");
          done := done + [item];
          acc := acc + item;
          if i + 1 < |members| {
            acc := acc + ", ";
          }
          i := i + 1;
        }
        assert members[i..] == [];
        PrefixedDone(done);
        assert EnumMemberTexts(members) == Ok(done);
        assert acc == Join(done, ", ");
        Write(v.name + " = define_Enum3t(\"" + v.name + "\", [" + acc + "])()\n");
        r := Pass;
      case Some(Call(Index, _)) =>
        Write(v.name + " = " + printer.expr(v.value.value) + "\n");
        r := Pass;
      case _ =>
        r := Fail(UnsupportedTypeValue);
    }

    /** Writes one port or internal variable of the constructor. */
    method VisitHdlVariableDef(v: VarDef)
      modifies this`out
      ensures out == old(out) + [VarDecl(printer, v)]
    {
      if v.isConst {
        var value := if v.value.None? then printer.none else printer.expr(v.value.value);
        Write("self." + v.name + " = " + value + "\n");
      } else {
        var init := if v.value.None? then "None)\n" else printer.expr(v.value.value) + ")\n";
        Write("self.io." + v.name + " = BasicRtlSimProxy(\n" + "sim, self, \"" + v.name + "\",\n"
              + printer.typ(v.typ) + ", " + init);
      }
    }

    /**
     * Writes the simulation-model class of one module: the import preamble
     * while it is due, component imports, the class line, type declarations,
     * the constructor, `_init_body` and the process bodies.
     */
    method VisitHdlModuleDef(m: ModuleDef) returns (r: Outcome<Error>)
      modifies this`out, this`addImports
      ensures addImports == NextAddImports(old(addImports), modulePathPrefix, m)
      ensures match Lower(printer, old(addImports), modulePathPrefix, stmOutputs, m)
        case Ok(t) => r == Pass && out == old(out) + Flatten(t)
        case Err(e) => r == Fail(e) && old(out) <= out
    {
      if m.dec.None? {
        return Fail(ModuleDecMissing);
      }
      var d := m.dec.value;
      ghost var o := out;
      ghost var done: seq<string> := [];
      if addImports {
        Write(Preamble);
        if modulePathPrefix.None? {
          addImports := false;
        }
        done := [Preamble];
      }
      assert out == o + done;
      var split := SplitHdlModuleDefObjs(m.objs);
      if split.Err? {
        AppendPrefix(o, done);
        return Fail(split.error);
      }
      var b := split.value;
      VisitComponentImports(b.components);
      Extend(o, done, ImportLines(modulePathPrefix, b.components));
      done := done + ImportLines(modulePathPrefix, b.components);
      Write(ClassLine(d.name));
      Extend(o, done, [ClassLine(d.name)]);
      done := done + [ClassLine(d.name)];
      ghost var mid := out;
      AppendPrefix(o, done);
      if |d.params| > 0 {
        return Fail(UnresolvedGenerics);
      }
      r := WriteClassBody(d, b);
      if r.Fail? {
        PrefixTrans(o, mid, out);
        return;
      }
      Extend(o, done, ClassBodyChunks(LowerClassBody(printer, stmOutputs, d, b).value));
    }

    /** Writes the indented body of the class: type declarations, `__init__`, `_init_body`, process functions. */
    method WriteClassBody(d: ModuleDec, b: Buckets) returns (r: Outcome<Error>)
      modifies this`out
      ensures match LowerClassBody(printer, stmOutputs, d, b)
        case Ok(c) => r == Pass && out == old(out) + ClassBodyChunks(c)
        case Err(e) => r == Fail(e) && old(out) <= out
    {
      ghost var o := out;
      r := WriteTypeDecls(b.types);
      if r.Fail? {
        return;
      }
      ghost var done := TypeDecls(printer, b.types).value;
      WriteConstructor(d, b);
      Extend(o, done, ConstructorChunks(LowerConstructor(printer, d, b)));
      done := done + ConstructorChunks(LowerConstructor(printer, d, b));
      ghost var mid := out;
      AppendPrefix(o, done);
      r := WriteInitBody(d, b);
      if r.Fail? {
        PrefixTrans(o, mid, out);
        return;
      }
      Extend(o, done, InitBodyChunks(LowerInitBody(printer, stmOutputs, d, b).value));
      done := done + InitBodyChunks(LowerInitBody(printer, stmOutputs, d, b).value);
      mid := out;
      AppendPrefix(o, done);
      r := WriteProcessBodies(b.processes);
      if r.Fail? {
        PrefixTrans(o, mid, out);
        return;
      }
      Extend(o, done, ProcessBodies(printer, b.processes).value);
    }

    /** Writes `__init__`: ports, then internal signals, then component instances. */
    method WriteConstructor(d: ModuleDec, b: Buckets)
      modifies this`out
      ensures out == old(out) + ConstructorChunks(LowerConstructor(printer, d, b))
    {
      ghost var o := out;
      WriteAll([InitHeader(d.name), SuperInit, PortsComment]);
      ghost var done := [InitHeader(d.name), SuperInit, PortsComment];
      WriteVarDecls(d.ports);
      Extend(o, done, VarDecls(printer, d.ports));
      done := done + VarDecls(printer, d.ports);
      WriteAll([SignalsComment]);
      Extend(o, done, [SignalsComment]);
      done := done + [SignalsComment];
      WriteVarDecls(b.variables);
      Extend(o, done, VarDecls(printer, b.variables));
      done := done + VarDecls(printer, b.variables);
      WriteAll([InstancesComment]);
      Extend(o, done, [InstancesComment]);
      done := done + [InstancesComment];
      WriteInstances(b.components);
      Extend(o, done, Instances(b.components));
    }

    /**
     * Writes `_init_body`: the port bindings of every instance, the
     * `_interfaces`, `_processes` and `_units` tuples, and the registration
     * of every process.
     */
    method WriteInitBody(d: ModuleDec, b: Buckets) returns (r: Outcome<Error>)
      modifies this`out
      ensures match LowerInitBody(printer, stmOutputs, d, b)
        case Ok(ib) => r == Pass && out == old(out) + InitBodyChunks(ib)
        case Err(e) => r == Fail(e) && old(out) <= out
    {
      ghost var o := out;
      Write(InitBodyHeader);
      ghost var done := [InitBodyHeader];
      ghost var mid := out;
      r := WriteConnections(b.components);
      if r.Fail? {
        PrefixTrans(o, mid, out);
        return;
      }
      Extend(o, done, Connections(printer, b.components).value);
      done := done + Connections(printer, b.components).value;
      mid := out;
      AppendPrefix(o, done);
      r := WriteRegisterTuples(d, b);
      if r.Fail? {
        PrefixTrans(o, mid, out);
        return;
      }
      ghost var tuples := RegisterTuples(Interfaces(d.ports + b.variables), ProcessNames(b.processes).value,
                                         Units(b.components));
      Extend(o, done, tuples);
      done := done + tuples;
      mid := out;
      AppendPrefix(o, done);
      r := WriteRegistrations(b.processes);
      if r.Fail? {
        PrefixTrans(o, mid, out);
        return;
      }
      Extend(o, done, Registrations(printer, stmOutputs, b.processes).value);
      done := done + Registrations(printer, stmOutputs, b.processes).value;
      Write(UnitsInitBody);
      Extend(o, done, [UnitsInitBody]);
    }

    /** Writes the `_interfaces`, `_processes` and `_units` tuples. */
    method WriteRegisterTuples(d: ModuleDec, b: Buckets) returns (r: Outcome<Error>)
      modifies this`out
      ensures match ProcessNames(b.processes)
        case Ok(names) =>
          r == Pass && out == old(out) + RegisterTuples(Interfaces(d.ports + b.variables), names, Units(b.components))
        case Err(e) => r == Fail(e) && old(out) <= out
    {
      ghost var o := out;
      Write(InterfacesOpen);
      ghost var done := [InterfacesOpen];
      WriteInterfaces(d.ports + b.variables);
      Extend(o, done, Interfaces(d.ports + b.variables));
      done := done + Interfaces(d.ports + b.variables);
      WriteAll([TupleClose, ProcessesOpen]);
      Extend(o, done, [TupleClose, ProcessesOpen]);
      done := done + [TupleClose, ProcessesOpen];
      ghost var mid := out;
      AppendPrefix(o, done);
      r := WriteProcessNames(b.processes);
      if r.Fail? {
        PrefixTrans(o, mid, out);
        return;
      }
      Extend(o, done, ProcessNames(b.processes).value);
      done := done + ProcessNames(b.processes).value;
      WriteAll([TupleClose, UnitsOpen]);
      Extend(o, done, [TupleClose, UnitsOpen]);
      done := done + [TupleClose, UnitsOpen];
      WriteUnits(b.components);
      Extend(o, done, Units(b.components));
      done := done + Units(b.components);
      Write(TupleClose);
      Extend(o, done, [TupleClose]);
    }

    /** Writes several fixed lines in a row. */
    method WriteAll(ss: seq<string>)
      modifies this`out
      ensures out == old(out) + ss
    {
      out := out + ss;
    }

    method WriteTypeDecls(types: seq<BodyObj>) returns (r: Outcome<Error>)
      modifies this`out
      ensures match TypeDecls(printer, types)
        case Ok(s) => r == Pass && out == old(out) + s
        case Err(e) => r == Fail(e) && old(out) <= out
    {
      ghost var done: seq<string> := [];
      var i := 0;
      PrefixedNil(TypeDecls(printer, types));
      assert types[0..] == types;
      while i < |types|
        invariant 0 <= i <= |types|
        invariant out == old(out) + done
        invariant TypeDecls(printer, types) == Prefixed(done, TypeDecls(printer, types[i..]))
      {
        assert types[i..][0] == types[i] && types[i..][1..] == types[i + 1..];
        r := VisitTypeDeclr(types[i]);
        if r.Fail? {
          return;
        }
        PrefixedThen(done, TypeDecl(printer, types[i]).value, TypeDecls(printer, types[i + 1..]));
        Extend(old(out), done, [TypeDecl(printer, types[i]).value]);
        done := done + [TypeDecl(printer, types[i]).value];
        i := i + 1;
      }
      assert types[i..] == [];
      r := Pass;
    }

    method WriteVarDecls(vs: seq<VarDef>)
      modifies this`out
      ensures out == old(out) + VarDecls(printer, vs)
    {
      ghost var done: seq<string> := [];
      var i := 0;
      while i < |vs|
        invariant 0 <= i <= |vs|
        invariant out == old(out) + done
        invariant VarDecls(printer, vs) == done + VarDecls(printer, vs[i..])
      {
        assert vs[i..][1..] == vs[i + 1..];
        VisitHdlVariableDef(vs[i]);
        Extend(old(out), done, [VarDecl(printer, vs[i])]);
        done := done + [VarDecl(printer, vs[i])];
        i := i + 1;
      }
    }

    method WriteInstances(cs: seq<ComponentInst>)
      modifies this`out
      ensures out == old(out) + Instances(cs)
    {
      ghost var done: seq<string> := [];
      var i := 0;
      while i < |cs|
        invariant 0 <= i <= |cs|
        invariant out == old(out) + done
        invariant Instances(cs) == done + Instances(cs[i..])
      {
        assert cs[i..][1..] == cs[i + 1..];
        var c := cs[i];
        Write(InstanceLine(c));
        Extend(old(out), done, [InstanceLine(c)]);
        done := done + [InstanceLine(c)];
        i := i + 1;
      }
    }

    /** Writes one `connectSimPort` binding per port-map entry of one component, in order. */
    method WritePortMap(c: ComponentInst) returns (r: Outcome<Error>)
      modifies this`out
      ensures match PortMapLines(printer, c.name, c.portMap)
        case Ok(s) => r == Pass && out == old(out) + s
        case Err(e) => r == Fail(e) && old(out) <= out
    {
      ghost var done: seq<string> := [];
      var j := 0;
      PrefixedNil(PortMapLines(printer, c.name, c.portMap));
      assert c.portMap[0..] == c.portMap;
      while j < |c.portMap|
        invariant 0 <= j <= |c.portMap|
        invariant out == old(out) + done
        invariant PortMapLines(printer, c.name, c.portMap)
                  == Prefixed(done, PortMapLines(printer, c.name, c.portMap[j..]))
      {
        var pm := c.portMap[j];
        assert c.portMap[j..][0] == pm && c.portMap[j..][1..] == c.portMap[j + 1..];
        if !(pm.Call? && pm.fn == MapAssociation) {
          return Fail(PortMapNotAssociation);
        }
        if |pm.ops| != 2 {
          return Fail(PortMapArity(|pm.ops|));
        }
        var modPort, connectedSig := pm.ops[0], pm.ops[1];
        if !connectedSig.Name? || !modPort.Name? {
          return Fail(PortMapOperandNotName);
        }
        var line := "connectSimPort(self, self." + c.name + ", \"" + printer.expr(connectedSig)
                    + "\", \"" + printer.expr(modPort) + "\")\n";
        Write(line);
        PrefixedThen(done, line, PortMapLines(printer, c.name, c.portMap[j + 1..]));
        Extend(old(out), done, [line]);
        done := done + [line];
        j := j + 1;
      }
      assert c.portMap[j..] == [];
      r := Pass;
    }

    method WriteConnections(cs: seq<ComponentInst>) returns (r: Outcome<Error>)
      modifies this`out
      ensures match Connections(printer, cs)
        case Ok(s) => r == Pass && out == old(out) + s
        case Err(e) => r == Fail(e) && old(out) <= out
    {
      ghost var done: seq<string> := [];
      var i := 0;
      PrefixedNil(Connections(printer, cs));
      assert cs[0..] == cs;
      while i < |cs|
        invariant 0 <= i <= |cs|
        invariant out == old(out) + done
        invariant Connections(printer, cs) == Prefixed(done, Connections(printer, cs[i..]))
      {
        assert cs[i..][0] == cs[i] && cs[i..][1..] == cs[i + 1..];
        ghost var before := out;
        r := WritePortMap(cs[i]);
        if r.Fail? {
          return;
        }
        ghost var lines := PortMapLines(printer, cs[i].name, cs[i].portMap).value;
        PrefixedJoin(done, lines, Connections(printer, cs[i + 1..]));
        Extend(old(out), done, lines);
        done := done + lines;
        i := i + 1;
      }
      assert cs[i..] == [];
      r := Pass;
    }

    method WriteInterfaces(vs: seq<VarDef>)
      modifies this`out
      ensures out == old(out) + Interfaces(vs)
    {
      ghost var done: seq<string> := [];
      var i := 0;
      while i < |vs|
        invariant 0 <= i <= |vs|
        invariant out == old(out) + done
        invariant Interfaces(vs) == done + Interfaces(vs[i..])
      {
        assert vs[i..][0] == vs[i] && vs[i..][1..] == vs[i + 1..];
        if !vs[i].isConst {
          Write(IoEntry(vs[i].name));
          Extend(old(out), done, [IoEntry(vs[i].name)]);
          Extend(done, [IoEntry(vs[i].name)], Interfaces(vs[i + 1..]));
          done := done + [IoEntry(vs[i].name)];
        } else {
          assert Interfaces(vs[i..]) == [] + Interfaces(vs[i + 1..]);
        }
        i := i + 1;
      }
      assert vs[i..] == [] && done + [] == done;
    }

    method WriteProcessNames(ss: seq<Statement>) returns (r: Outcome<Error>)
      modifies this`out
      ensures match ProcessNames(ss)
        case Ok(s) => r == Pass && out == old(out) + s
        case Err(e) => r == Fail(e) && old(out) <= out
    {
      ghost var done: seq<string> := [];
      var i := 0;
      PrefixedNil(ProcessNames(ss));
      assert ss[0..] == ss;
      while i < |ss|
        invariant 0 <= i <= |ss|
        invariant out == old(out) + done
        invariant ProcessNames(ss) == Prefixed(done, ProcessNames(ss[i..]))
      {
        assert ss[i..][0] == ss[i] && ss[i..][1..] == ss[i + 1..];
        if ss[i].labels == [] {
          return Fail(ProcessWithoutLabel);
        }
        var entry := SelfEntry(ss[i].labels[0]);
        Write(entry);
        PrefixedThen(done, entry, ProcessNames(ss[i + 1..]));
        Extend(old(out), done, [entry]);
        done := done + [entry];
        i := i + 1;
      }
      assert ss[i..] == [];
      r := Pass;
    }

    method WriteUnits(cs: seq<ComponentInst>)
      modifies this`out
      ensures out == old(out) + Units(cs)
    {
      ghost var done: seq<string> := [];
      var i := 0;
      while i < |cs|
        invariant 0 <= i <= |cs|
        invariant out == old(out) + done
        invariant Units(cs) == done + Units(cs[i..])
      {
        assert cs[i..][1..] == cs[i + 1..];
        Write(SelfEntry(cs[i].name));
        Extend(old(out), done, [SelfEntry(cs[i].name)]);
        done := done + [SelfEntry(cs[i].name)];
        i := i + 1;
      }
    }

    /** Writes the `sensitivity(...)` call and the `_outputs` entry of one process. */
    method WriteRegistration(s: Statement) returns (r: Outcome<Error>)
      modifies this`out
      ensures match Registration(printer, stmOutputs, s)
        case Ok(c) => r == Pass && out == old(out) + [c]
        case Err(e) => r == Fail(e) && out == old(out)
    {
      if s.labels == [] {
        return Fail(ProcessWithoutLabel);
      }
      if s.sensitivity.None? {
        return Fail(NoSensitivityList);
      }
      var name := s.labels[0];
      var entries := SensitivityListText(s.sensitivity.value);
      if entries.Err? {
        return Fail(entries.error);
      }
      if stmOutputs.None? {
        return Fail(OutputsNotSet);
      }
      if s !in stmOutputs.value {
        return Fail(MissingOutputs(name));
      }
      var outs := OutputsListText(stmOutputs.value[s]);
      if outs.Err? {
        return Fail(outs.error);
      }
      Write("sensitivity(self." + name + ", " + entries.value + ")\n" + OutputsHeader(name) + outs.value + TupleClose);
      r := Pass;
    }

    /** The comma-separated entries of a sensitivity list: edge-tagged pairs for calls, signal proxies otherwise. */
    method SensitivityListText(sens: seq<Expr>) returns (r: Result<string, Error>)
      ensures match SensitivityEntries(printer, sens)
        case Ok(es) => r == Ok(Join(es, ", "))
        case Err(e) => r == Err(e)
    {
      var acc := "";
      ghost var done: seq<string> := [];
      var i := 0;
      PrefixedNil(SensitivityEntries(printer, sens));
      assert sens[0..] == sens;
      while i < |sens|
        invariant 0 <= i <= |sens| && |done| == i
        invariant SensitivityEntries(printer, sens) == Prefixed(done, SensitivityEntries(printer, sens[i..]))
        invariant acc == Join(done, ", ") + (if 0 < i < |sens| then ", " else "")
      {
        var e := sens[i];
        assert sens[i..][0] == e && sens[i..][1..] == sens[i + 1..];
        var entry: string;
        if e.Call? {
          var tag := printer.sensitivityByOp(e.fn);
          if tag.None? {
            assert SensitivityEntries(printer, sens[i..]) == Err(UnknownSensitivityOp(e.fn));
            return Err(UnknownSensitivityOp(e.fn));
          }
          if |e.ops| == 0 {
            return Err(EdgeWithoutOperand);
          }
          entry := "(" + tag.value + ", self.io." + printer.expr(e.ops[0]) + ")";
        } else {
          entry := "self.io." + printer.expr(e);
        }
        PrefixedThen(done, entry, SensitivityEntries(printer, sens[i + 1..]));
        JoinSnoc(done, entry, ", ");
        done := done + [entry];
        acc := acc + entry;
        if i + 1 < |sens| {
          acc := acc + ", ";
        }
        i := i + 1;
      }
      assert sens[i..] == [];
      PrefixedDone(done);
      assert SensitivityEntries(printer, sens) == Ok(done);
      assert acc == Join(done, ", ");
      return Ok(acc);
    }

    /** The `self.io.<name>,` entries of a process's outputs, all of which must be plain names. */
    method OutputsListText(outputs: seq<Expr>) returns (r: Result<string, Error>)
      ensures r == OutputsText(outputs)
    {
      var outText := "";
      var j := 0;
      PrefixedNil(OutputsText(outputs));
      assert outputs[0..] == outputs;
      while j < |outputs|
        invariant 0 <= j <= |outputs|
        invariant OutputsText(outputs) == Prefixed(outText, OutputsText(outputs[j..]))
      {
        assert outputs[j..][0] == outputs[j] && outputs[j..][1..] == outputs[j + 1..];
        if !outputs[j].Name? {
          return Err(OutputNotName);
        }
        var entry := IoEntry(outputs[j].val);
        PrefixedJoin(outText, entry, OutputsText(outputs[j + 1..]));
        outText := outText + entry;
        j := j + 1;
      }
      assert outputs[j..] == [];
      PrefixedDone(outText);
      return Ok(outText);
    }

    method WriteRegistrations(ss: seq<Statement>) returns (r: Outcome<Error>)
      modifies this`out
      ensures match Registrations(printer, stmOutputs, ss)
        case Ok(s) => r == Pass && out == old(out) + s
        case Err(e) => r == Fail(e) && old(out) <= out
    {
      ghost var done: seq<string> := [];
      var i := 0;
      PrefixedNil(Registrations(printer, stmOutputs, ss));
      assert ss[0..] == ss;
      while i < |ss|
        invariant 0 <= i <= |ss|
        invariant out == old(out) + done
        invariant Registrations(printer, stmOutputs, ss) == Prefixed(done, Registrations(printer, stmOutputs, ss[i..]))
      {
        assert ss[i..][0] == ss[i] && ss[i..][1..] == ss[i + 1..];
        r := WriteRegistration(ss[i]);
        if r.Fail? {
          return;
        }
        ghost var c := Registration(printer, stmOutputs, ss[i]).value;
        PrefixedThen(done, c, Registrations(printer, stmOutputs, ss[i + 1..]));
        Extend(old(out), done, [c]);
        done := done + [c];
        i := i + 1;
      }
      assert ss[i..] == [];
      r := Pass;
    }

    method WriteProcessBodies(ss: seq<Statement>) returns (r: Outcome<Error>)
      modifies this`out
      ensures match ProcessBodies(printer, ss)
        case Ok(s) => r == Pass && out == old(out) + s
        case Err(e) => r == Fail(e) && old(out) <= out
    {
      ghost var done: seq<string> := [];
      var i := 0;
      PrefixedNil(ProcessBodies(printer, ss));
      assert ss[0..] == ss;
      while i < |ss|
        invariant 0 <= i <= |ss|
        invariant out == old(out) + done
        invariant ProcessBodies(printer, ss) == Prefixed(done, ProcessBodies(printer, ss[i..]))
      {
        assert ss[i..][0] == ss[i] && ss[i..][1..] == ss[i + 1..];
        var body := printer.process(ss[i]);
        if body.None? {
          return Fail(ProcessBodyFailed);
        }
        // the extra line separates the functions of consecutive processes
        Write(body.value + "\n");
        PrefixedThen(done, body.value + "\n", ProcessBodies(printer, ss[i + 1..]));
        Extend(old(out), done, [body.value + "\n"]);
        done := done + [body.value + "\n"];
        i := i + 1;
      }
      assert ss[i..] == [];
      r := Pass;
    }
  }

  // Proof helpers: associativity and prefix facts the write methods cite
  // after each append, so that the solver need not rediscover them.

  lemma Extend<T>(a: seq<T>, b: seq<T>, c: seq<T>)
    ensures (a + b) + c == a + (b + c)
  {
  }

  lemma AppendPrefix<T>(a: seq<T>, b: seq<T>)
    ensures a <= a + b
  {
  }

  lemma PrefixTrans<T>(a: seq<T>, b: seq<T>, c: seq<T>)
    requires a <= b && b <= c
    ensures a <= c
  {
  }

  // Proof helpers: how `Prefixed` composes, used by the loop invariants of
  // the write methods that can fail part-way.

  lemma PrefixedNil<T>(rest: Result<seq<T>, Error>)
    ensures Prefixed([], rest) == rest
  {
    match rest
    case Ok(t) => assert [] + t == t;
    case Err(_) =>
  }

  lemma PrefixedDone<T>(done: seq<T>)
    ensures Prefixed(done, Ok([])) == Ok(done)
  {
    assert done + [] == done;
  }

  lemma PrefixedThen<T>(done: seq<T>, x: T, rest: Result<seq<T>, Error>)
    ensures Prefixed(done, Prefixed([x], rest)) == Prefixed(done + [x], rest)
  {
    match rest
    case Ok(t) => assert done + ([x] + t) == (done + [x]) + t;
    case Err(_) =>
  }

  lemma PrefixedJoin<T>(done: seq<T>, x: seq<T>, rest: Result<seq<T>, Error>)
    ensures Prefixed(done, Prefixed(x, rest)) == Prefixed(done + x, rest)
  {
    match rest
    case Ok(t) => assert done + (x + t) == (done + x) + t;
    case Err(_) =>
  }

  /** Appending one item to a joined list adds one separator before it. */
  lemma {:induction false} JoinSnoc(items: seq<string>, x: string, sep: string)
    ensures Join(items + [x], sep) == if items == [] then x else Join(items, sep) + sep + x
  {
    if |items| > 1 {
      assert (items + [x])[1..] == items[1..] + [x];
      JoinSnoc(items[1..], x, sep);
    } else if |items| == 1 {
      assert (items + [x])[1..] == [x];
    }
  }
}
