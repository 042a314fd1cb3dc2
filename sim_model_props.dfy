/**
 * What the text of a module promises: one entry per object in every section,
 * the conditions under which each section can be written at all, and how the
 * import preamble is shared between modules.
 */
module SimModelProps {
  import opened Wrappers
  import opened HdlAst
  import opened SimErrors
  import opened ModuleObjs
  import opened SimModelText

  // ------------------------------------------------------ reference predicates

  /** A port-map entry the serialiser can bind: `port => signal`, both plain names. */
  predicate IsBinding(pm: Expr)
  {
    pm.Call? && pm.fn == MapAssociation && |pm.ops| == 2 && pm.ops[0].Name? && pm.ops[1].Name?
  }

  /** An object of the types bucket the serialiser can declare. */
  predicate Declarable(t: BodyObj)
  {
    t.VarDefObj? && t.v.value.Some? &&
    match t.v.value.value
    case EnumType(e) => forall i :: 0 <= i < |e.values| ==> e.values[i].value.None?
    case Call(fn, _) => fn == Index
    case _ => false
  }

  /** A sensitivity-list entry the serialiser can write. */
  predicate Sensitive(p: Printer, e: Expr)
  {
    e.Call? ==> p.sensitivityByOp(e.fn).Some? && |e.ops| > 0
  }

  /** A process the serialiser can register with the simulator. */
  predicate Registrable(p: Printer, outputs: Outputs, s: Statement)
  {
    && s.labels != []
    && s.sensitivity.Some?
    && (forall i :: 0 <= i < |s.sensitivity.value| ==> Sensitive(p, s.sensitivity.value[i]))
    && outputs.Some?
    && s in outputs.value
    && (forall i :: 0 <= i < |outputs.value[s]| ==> outputs.value[s][i].Name?)
  }

  /** The non-constant variables, in order: the signals the simulator sees. */
  function NonConst(vs: seq<VarDef>): seq<VarDef>
  {
    if vs == [] then [] else (if vs[0].isConst then [] else [vs[0]]) + NonConst(vs[1..])
  }

  /** The number of port-map entries over all instances. */
  function PortCount(cs: seq<ComponentInst>): nat
  {
    if cs == [] then 0 else |cs[0].portMap| + PortCount(cs[1..])
  }

  // ----------------------------------------------------------------- imports

  /** Without a module path prefix no component is imported; with one, each instance is, in order. */
  lemma {:induction false} ImportLinesPerComponent(prefix: Option<string>, comps: seq<ComponentInst>)
    ensures prefix.None? ==> ImportLines(prefix, comps) == []
    ensures prefix.Some? ==>
      |ImportLines(prefix, comps)| == |comps| &&
      forall i :: 0 <= i < |comps| ==> ImportLines(prefix, comps)[i] == ImportLine(prefix.value, comps[i])
  {
    if prefix.Some? && comps != [] {
      ImportLinesPerComponent(prefix, comps[1..]);
    }
  }

  // ------------------------------------------------------------ constructor

  /** One declaration per variable, in order. */
  lemma {:induction false} VarDeclsPerVariable(p: Printer, vs: seq<VarDef>)
    ensures |VarDecls(p, vs)| == |vs|
    ensures forall i :: 0 <= i < |vs| ==> VarDecls(p, vs)[i] == VarDecl(p, vs[i])
  {
    if vs != [] {
      VarDeclsPerVariable(p, vs[1..]);
    }
  }

  /** A constant is bound as `self.<name>`; any other variable becomes a proxy `self.io.<name>`. */
  lemma VarDeclShape(p: Printer, v: VarDef)
    ensures v.isConst ==> "self." + v.name + " = " <= VarDecl(p, v)
    ensures !v.isConst ==> "self.io." + v.name + " = BasicRtlSimProxy(\n" <= VarDecl(p, v)
  {
    var d := VarDecl(p, v);
    if v.isConst {
      var head := "self." + v.name + " = ";
      assert d == head + (ValueText(p, v.value) + "\n");
      assert d[..|head|] == head;
    } else {
      var head := "self.io." + v.name + " = BasicRtlSimProxy(\n";
      var tail := "sim, self, \"" + v.name + "\",\n" + p.typ(v.typ) + ", "
                  + (if v.value.None? then "None)\n" else p.expr(v.value.value) + ")\n");
      assert d == head + tail;
      assert d[..|head|] == head;
    }
  }

  /** One instance line per component, in order. */
  lemma {:induction false} InstancesPerComponent(cs: seq<ComponentInst>)
    ensures |Instances(cs)| == |cs|
    ensures forall i :: 0 <= i < |cs| ==> Instances(cs)[i] == InstanceLine(cs[i])
  {
    if cs != [] {
      InstancesPerComponent(cs[1..]);
    }
  }

  // ------------------------------------------------------------- _init_body

  /** The bindings of one instance can be written exactly when every entry is a binding; then one line each. */
  lemma {:induction false} PortMapLinesOkIff(p: Printer, inst: string, pms: seq<Expr>)
    ensures PortMapLines(p, inst, pms).Ok? <==> forall i :: 0 <= i < |pms| ==> IsBinding(pms[i])
    ensures PortMapLines(p, inst, pms).Ok? ==>
      |PortMapLines(p, inst, pms).value| == |pms| &&
      forall i :: 0 <= i < |pms| ==> Ok(PortMapLines(p, inst, pms).value[i]) == ConnectLine(p, inst, pms[i])
  {
    if pms != [] {
      PortMapLinesOkIff(p, inst, pms[1..]);
      assert forall i :: 1 <= i < |pms| ==> pms[i] == pms[1..][i - 1];
    }
  }

  /** All port maps can be written exactly when every entry of every instance is a binding; then one line per entry. */
  lemma {:induction false} ConnectionsOkIff(p: Printer, comps: seq<ComponentInst>)
    ensures Connections(p, comps).Ok? <==>
      forall c, pm :: c in comps && pm in c.portMap ==> IsBinding(pm)
    ensures Connections(p, comps).Ok? ==> |Connections(p, comps).value| == PortCount(comps)
  {
    if comps != [] {
      var c0 := comps[0];
      PortMapLinesOkIff(p, c0.name, c0.portMap);
      ConnectionsOkIff(p, comps[1..]);
      assert forall c :: c in comps <==> c == c0 || c in comps[1..];
      assert (forall i :: 0 <= i < |c0.portMap| ==> IsBinding(c0.portMap[i]))
         <==> (forall pm :: pm in c0.portMap ==> IsBinding(pm));
    }
  }

  /**
   * The bindings follow instance order and, within an instance, port-map
   * order: the lines of instance k start at `PortCount(comps[..k])` and
   * entry i of its port map is the line at that offset plus i.
   */
  lemma ConnectionsInOrder(p: Printer, comps: seq<ComponentInst>)
    ensures Connections(p, comps).Ok? ==>
      forall k :: 0 <= k < |comps| ==>
        PortCount(comps[..k]) + |comps[k].portMap| <= |Connections(p, comps).value|
    ensures Connections(p, comps).Ok? ==>
      forall k, i :: 0 <= k < |comps| && 0 <= i < |comps[k].portMap| ==>
        Ok(Connections(p, comps).value[PortCount(comps[..k]) + i]) == ConnectLine(p, comps[k].name, comps[k].portMap[i])
  {
    if Connections(p, comps).Ok? {
      forall k | 0 <= k < |comps|
        ensures PortCount(comps[..k]) + |comps[k].portMap| <= |Connections(p, comps).value|
      {
        if comps[k].portMap != [] {
          ConnectionAt(p, comps, k, 0);
        } else {
          ConnectionsOkIff(p, comps);
          PortCountPrefix(comps, k);
        }
      }
      forall k, i | 0 <= k < |comps| && 0 <= i < |comps[k].portMap|
        ensures Ok(Connections(p, comps).value[PortCount(comps[..k]) + i])
                == ConnectLine(p, comps[k].name, comps[k].portMap[i])
      {
        ConnectionAt(p, comps, k, i);
      }
    }
  }

  /** The bindings of a prefix of the instances are no more than those of all of them. */
  lemma {:induction false} PortCountPrefix(comps: seq<ComponentInst>, k: nat)
    requires k <= |comps|
    ensures PortCount(comps[..k]) <= PortCount(comps)
  {
    if k > 0 {
      assert comps[..k][1..] == comps[1..][..k - 1];
      PortCountPrefix(comps[1..], k - 1);
    }
  }

  /** One binding of `ConnectionsInOrder`, by induction on the instance index. */
  lemma {:induction false} ConnectionAt(p: Printer, comps: seq<ComponentInst>, k: nat, i: nat)
    requires Connections(p, comps).Ok?
    requires k < |comps| && i < |comps[k].portMap|
    ensures PortCount(comps[..k]) + |comps[k].portMap| <= |Connections(p, comps).value|
    ensures Ok(Connections(p, comps).value[PortCount(comps[..k]) + i])
            == ConnectLine(p, comps[k].name, comps[k].portMap[i])
    decreases k
  {
    var c0 := comps[0];
    assert PortMapLines(p, c0.name, c0.portMap).Ok? && Connections(p, comps[1..]).Ok?;
    var first := PortMapLines(p, c0.name, c0.portMap).value;
    var rest := Connections(p, comps[1..]).value;
    assert Connections(p, comps).value == first + rest;
    PortMapLinesOkIff(p, c0.name, c0.portMap);
    if k == 0 {
      assert comps[..k] == [];
      assert (first + rest)[i] == first[i];
    } else {
      assert comps[..k][1..] == comps[1..][..k - 1];
      assert comps[k] == comps[1..][k - 1];
      ConnectionAt(p, comps[1..], k - 1, i);
      assert PortCount(comps[..k]) == |first| + PortCount(comps[1..][..k - 1]);
      var j := PortCount(comps[1..][..k - 1]) + i;
      assert (first + rest)[|first| + j] == rest[j];
    }
  }

  /** `_interfaces` lists the non-constant ports and signals, in order, one entry each. */
  lemma {:induction false} InterfacesAreNonConst(vs: seq<VarDef>)
    ensures |Interfaces(vs)| == |NonConst(vs)|
    ensures forall i :: 0 <= i < |NonConst(vs)| ==> Interfaces(vs)[i] == IoEntry(NonConst(vs)[i].name)
  {
    if vs != [] {
      InterfacesAreNonConst(vs[1..]);
    }
  }

  /** A variable is in `NonConst` exactly when it is a non-constant variable of the list. */
  lemma {:induction false} NonConstMembership(vs: seq<VarDef>, v: VarDef)
    ensures v in NonConst(vs) <==> v in vs && !v.isConst
  {
    if vs != [] {
      NonConstMembership(vs[1..], v);
      assert v in vs <==> v == vs[0] || v in vs[1..];
    }
  }

  /** `_processes` can be written exactly when every process has a label; then it names each by its first label. */
  lemma {:induction false} ProcessNamesOkIff(ss: seq<Statement>)
    ensures ProcessNames(ss).Ok? <==> forall i :: 0 <= i < |ss| ==> ss[i].labels != []
    ensures ProcessNames(ss).Ok? ==>
      |ProcessNames(ss).value| == |ss| &&
      forall i :: 0 <= i < |ss| ==> ProcessNames(ss).value[i] == SelfEntry(ss[i].labels[0])
  {
    if ss != [] {
      ProcessNamesOkIff(ss[1..]);
      assert forall i :: 1 <= i < |ss| ==> ss[i] == ss[1..][i - 1];
    }
  }

  /** `_units` names every instance, in order. */
  lemma {:induction false} UnitsPerComponent(cs: seq<ComponentInst>)
    ensures |Units(cs)| == |cs|
    ensures forall i :: 0 <= i < |cs| ==> Units(cs)[i] == SelfEntry(cs[i].name)
  {
    if cs != [] {
      UnitsPerComponent(cs[1..]);
    }
  }

  /** An edge-tagged entry is a parenthesised pair; a plain one is a proxy reference. */
  lemma SensitivityEntryShape(p: Printer, e: Expr)
    ensures SensitivityEntry(p, e).Ok? <==> Sensitive(p, e)
    ensures SensitivityEntry(p, e).Ok? ==>
      |SensitivityEntry(p, e).value| > 0 && (SensitivityEntry(p, e).value[0] == '(' <==> e.Call?)
    ensures e.Call? && Sensitive(p, e) ==>
      "(" + p.sensitivityByOp(e.fn).value + ", self.io." + p.expr(e.ops[0]) <= SensitivityEntry(p, e).value
    ensures !e.Call? ==> "self.io." <= SensitivityEntry(p, e).value
  {
    if !e.Call? {
      var t := "self.io." + p.expr(e);
      assert t[0] == 's';
      assert t[..|"self.io."|] == "self.io.";
    } else if Sensitive(p, e) {
      var head := "(" + p.sensitivityByOp(e.fn).value + ", self.io." + p.expr(e.ops[0]);
      assert SensitivityEntry(p, e).value == head + ")";
      assert (head + ")")[..|head|] == head;
    }
  }

  /** A sensitivity list can be written exactly when each entry can; then one entry per signal or edge. */
  lemma {:induction false} SensitivityEntriesOkIff(p: Printer, es: seq<Expr>)
    ensures SensitivityEntries(p, es).Ok? <==> forall i :: 0 <= i < |es| ==> Sensitive(p, es[i])
    ensures SensitivityEntries(p, es).Ok? ==>
      |SensitivityEntries(p, es).value| == |es| &&
      forall i :: 0 <= i < |es| ==> SensitivityEntries(p, es).value[i] == SensitivityEntry(p, es[i]).value
  {
    if es != [] {
      SensitivityEntryShape(p, es[0]);
      SensitivityEntriesOkIff(p, es[1..]);
      assert forall i :: 1 <= i < |es| ==> es[i] == es[1..][i - 1];
    }
  }

  /** The `_outputs` entry of a process can be written exactly when every output is a plain name. */
  lemma {:induction false} OutputsTextOkIff(os: seq<Expr>)
    ensures OutputsText(os).Ok? <==> forall i :: 0 <= i < |os| ==> os[i].Name?
    ensures OutputsText(os).Ok? ==>
      OutputsText(os).value == Join(seq(|os|, i requires 0 <= i < |os| && os[i].Name? => IoEntry(os[i].val)), "")
  {
    if os != [] {
      OutputsTextOkIff(os[1..]);
      assert forall i :: 1 <= i < |os| ==> os[i] == os[1..][i - 1];
      if OutputsText(os).Ok? {
        var es := seq(|os|, i requires 0 <= i < |os| && os[i].Name? => IoEntry(os[i].val));
        var tail := seq(|os| - 1, i requires 0 <= i < |os| - 1 && os[1..][i].Name? => IoEntry(os[1..][i].val));
        assert es[1..] == tail;
        var rest := OutputsText(os[1..]).value;
        assert OutputsText(os).value == IoEntry(os[0].val) + rest;
        if |os| == 1 {
          assert rest == "";
        }
      }
    }
  }

  /**
   * A process can be registered exactly when it has a label, a sensitivity
   * list the serialiser can write, and known outputs that are all names;
   * its registration starts with its sensitivity line.
   */
  lemma RegistrationOkIff(p: Printer, outputs: Outputs, s: Statement)
    ensures Registration(p, outputs, s).Ok? <==> Registrable(p, outputs, s)
    ensures Registration(p, outputs, s).Ok? ==>
      SensitivityLine(s.labels[0], SensitivityEntries(p, s.sensitivity.value).value) <= Registration(p, outputs, s).value
  {
    if s.sensitivity.Some? {
      SensitivityEntriesOkIff(p, s.sensitivity.value);
    }
    if outputs.Some? && s in outputs.value {
      OutputsTextOkIff(outputs.value[s]);
    }
    if Registration(p, outputs, s).Ok? {
      var line := SensitivityLine(s.labels[0], SensitivityEntries(p, s.sensitivity.value).value);
      var rest := OutputsHeader(s.labels[0]) + OutputsText(outputs.value[s]).value + TupleClose;
      assert Registration(p, outputs, s).value == line + rest;
      assert (line + rest)[..|line|] == line;
    }
  }

  /** Without the caller's process outputs no process can be registered. */
  lemma RegistrationNeedsOutputs(p: Printer, s: Statement)
    ensures Registration(p, None, s).Err?
  {
    RegistrationOkIff(p, None, s);
  }

  /** Every process is registered, in order, or none is. */
  lemma {:induction false} RegistrationsOkIff(p: Printer, outputs: Outputs, ss: seq<Statement>)
    ensures Registrations(p, outputs, ss).Ok? <==> forall i :: 0 <= i < |ss| ==> Registrable(p, outputs, ss[i])
    ensures Registrations(p, outputs, ss).Ok? ==>
      |Registrations(p, outputs, ss).value| == |ss| &&
      forall i :: 0 <= i < |ss| ==> Ok(Registrations(p, outputs, ss).value[i]) == Registration(p, outputs, ss[i])
  {
    if ss != [] {
      RegistrationOkIff(p, outputs, ss[0]);
      RegistrationsOkIff(p, outputs, ss[1..]);
      assert forall i :: 1 <= i < |ss| ==> ss[i] == ss[1..][i - 1];
    }
  }

  // ------------------------------------------------------ type declarations

  lemma {:induction false} EnumMemberTextsOkIff(ms: seq<EnumMember>)
    ensures EnumMemberTexts(ms).Ok? <==> forall i :: 0 <= i < |ms| ==> ms[i].value.None?
    ensures EnumMemberTexts(ms).Ok? ==>
      |EnumMemberTexts(ms).value| == |ms| &&
      forall i :: 0 <= i < |ms| ==> EnumMemberTexts(ms).value[i] == "\"" + ms[i].key + "\""
  {
    if ms != [] {
      EnumMemberTextsOkIff(ms[1..]);
      assert forall i :: 1 <= i < |ms| ==> ms[i] == ms[1..][i - 1];
    }
  }

  /** A type can be declared exactly when it is an enum without explicit values or an array type. */
  lemma TypeDeclOkIff(p: Printer, t: BodyObj)
    ensures TypeDecl(p, t).Ok? <==> Declarable(t)
  {
    if t.VarDefObj? && t.v.value.Some? && t.v.value.value.EnumType? {
      EnumMemberTextsOkIff(t.v.value.value.enumDef.values);
    }
  }

  /** The types bucket is declared in order, one declaration per type, or not at all. */
  lemma {:induction false} TypeDeclsOkIff(p: Printer, ts: seq<BodyObj>)
    ensures TypeDecls(p, ts).Ok? <==> forall i :: 0 <= i < |ts| ==> Declarable(ts[i])
    ensures TypeDecls(p, ts).Ok? ==>
      |TypeDecls(p, ts).value| == |ts| &&
      forall i :: 0 <= i < |ts| ==> Ok(TypeDecls(p, ts).value[i]) == TypeDecl(p, ts[i])
  {
    if ts != [] {
      TypeDeclOkIff(p, ts[0]);
      TypeDeclsOkIff(p, ts[1..]);
      assert forall i :: 1 <= i < |ts| ==> ts[i] == ts[1..][i - 1];
    }
  }

  /** An enumeration is declared as `define_Enum3t` over its keys, quoted and comma-separated. */
  lemma ColourEnumExample(p: Printer)
    ensures TypeDecl(p, VarDefObj(VarDef("colour_t", TypeOfTypes,
        Some(EnumType(EnumDef("colour_t", [EnumMember("RED", None), EnumMember("GREEN", None),
                                            EnumMember("BLUE", None)]))), true)))
      == Ok("colour_t" + " = define_Enum3t(\"" + "colour_t" + "\", [" + "\"RED\", \"GREEN\", \"BLUE\"" + "])()\n")
  {
    var ms := [EnumMember("RED", None), EnumMember("GREEN", None), EnumMember("BLUE", None)];
    var red, green, blue := "\"RED\"", "\"GREEN\"", "\"BLUE\"";
    assert "\"" + "RED" + "\"" == red && "\"" + "GREEN" + "\"" == green && "\"" + "BLUE" + "\"" == blue;
    assert EnumMemberText(ms[0]) == Ok(red);
    assert EnumMemberText(ms[1]) == Ok(green);
    assert EnumMemberText(ms[2]) == Ok(blue);
    assert ms[1..][1..] == [EnumMember("BLUE", None)];
    assert ms[1..][1..][1..] == [];
    assert EnumMemberTexts(ms[1..][1..][1..]) == Ok([]);
    assert [blue] + [] == [blue];
    assert EnumMemberTexts(ms[1..][1..]) == Ok([blue]);
    assert ms[1..][0] == ms[1] && [green] + [blue] == [green, blue];
    assert EnumMemberTexts(ms[1..]) == Ok([green, blue]);
    assert [red] + [green, blue] == [red, green, blue];
    assert EnumMemberTexts(ms) == Ok([red, green, blue]);
    assert [red, green, blue][1..] == [green, blue] && [green, blue][1..] == [blue];
    assert Join([blue], ", ") == blue;
    assert Join([green, blue], ", ") == green + ", " + blue;
    assert Join([red, green, blue], ", ") == red + ", " + (green + ", " + blue);
    assert red + ", " + (green + ", " + blue) == "\"RED\", \"GREEN\", \"BLUE\"";
  }

  // --------------------------------------------------------- process bodies

  lemma {:induction false} ProcessBodiesOkIff(p: Printer, ss: seq<Statement>)
    ensures ProcessBodies(p, ss).Ok? <==> forall i :: 0 <= i < |ss| ==> p.process(ss[i]).Some?
    ensures ProcessBodies(p, ss).Ok? ==>
      |ProcessBodies(p, ss).value| == |ss| &&
      forall i :: 0 <= i < |ss| ==> ProcessBodies(p, ss).value[i] == p.process(ss[i]).value + "\n"
  {
    if ss != [] {
      ProcessBodiesOkIff(p, ss[1..]);
      assert forall i :: 1 <= i < |ss| ==> ss[i] == ss[1..][i - 1];
    }
  }

  // ------------------------------------------------------------ whole module

  /** What a body object needs so that its section of the module can be written. */
  predicate ObjectOk(p: Printer, outputs: Outputs, o: BodyObj)
  {
    match BucketOf(o)
    case None => false
    case Some(Types) => Declarable(o)
    case Some(Variables) => true
    case Some(Components) => forall pm :: pm in o.inst.portMap ==> IsBinding(pm)
    case Some(Processes) => Registrable(p, outputs, o.stm) && p.process(o.stm).Some?
  }

  /** A module the serialiser can write: a declaration without generics, and every body object fit for its section. */
  predicate Lowerable(p: Printer, outputs: Outputs, m: ModuleDef)
  {
    && m.dec.Some?
    && |m.dec.value.params| == 0
    && forall o :: o in m.objs ==> ObjectOk(p, outputs, o)
  }

  lemma {:induction false} TypesOkIff(objs: seq<BodyObj>)
    ensures (forall t :: t in TypesOf(objs) ==> Declarable(t)) <==>
      forall o :: o in objs && BucketOf(o) == Some(Types) ==> Declarable(o)
  {
    if objs != [] {
      TypesOkIff(objs[1..]);
      var ts' := TypesOf(objs[1..]);
      assert forall o :: o in objs <==> o == objs[0] || o in objs[1..];
      assert TypesOf(objs) == (if BucketOf(objs[0]) == Some(Types) then [objs[0]] else []) + ts';
    }
  }

  lemma {:induction false} ComponentsOkIff(objs: seq<BodyObj>)
    ensures (forall c, pm :: c in ComponentsOf(objs) && pm in c.portMap ==> IsBinding(pm)) <==>
      forall o, pm :: o in objs && BucketOf(o) == Some(Components) && pm in o.inst.portMap ==> IsBinding(pm)
  {
    if objs != [] {
      ComponentsOkIff(objs[1..]);
      var cs' := ComponentsOf(objs[1..]);
      assert forall o :: o in objs <==> o == objs[0] || o in objs[1..];
      assert ComponentsOf(objs) == (if BucketOf(objs[0]) == Some(Components) then [objs[0].inst] else []) + cs';
    }
  }

  lemma {:induction false} ProcessesOkIff(p: Printer, outputs: Outputs, objs: seq<BodyObj>)
    ensures (forall s :: s in ProcessesOf(objs) ==> Registrable(p, outputs, s) && p.process(s).Some?) <==>
      forall o :: o in objs && BucketOf(o) == Some(Processes) ==>
        Registrable(p, outputs, o.stm) && p.process(o.stm).Some?
  {
    if objs != [] {
      ProcessesOkIff(p, outputs, objs[1..]);
      var ss' := ProcessesOf(objs[1..]);
      assert forall o :: o in objs <==> o == objs[0] || o in objs[1..];
      assert ProcessesOf(objs) == (if BucketOf(objs[0]) == Some(Processes) then [objs[0].stm] else []) + ss';
    }
  }

  /** Every object is fit for its section exactly when each bucket meets its own section's condition. */
  lemma ObjectsOkIffBucketsOk(p: Printer, outputs: Outputs, objs: seq<BodyObj>)
    ensures (forall o :: o in objs ==> ObjectOk(p, outputs, o)) <==>
      && (forall o :: o in objs ==> BucketOf(o).Some?)
      && (forall i :: 0 <= i < |TypesOf(objs)| ==> Declarable(TypesOf(objs)[i]))
      && (forall c, pm :: c in ComponentsOf(objs) && pm in c.portMap ==> IsBinding(pm))
      && (forall i :: 0 <= i < |ProcessesOf(objs)| ==>
            Registrable(p, outputs, ProcessesOf(objs)[i]) && p.process(ProcessesOf(objs)[i]).Some?)
  {
    TypesOkIff(objs);
    ComponentsOkIff(objs);
    ProcessesOkIff(p, outputs, objs);
  }

  /** A module is written in full exactly when it is lowerable; otherwise the serialiser raises. */
  lemma LowerOkIff(p: Printer, addImports: bool, prefix: Option<string>, outputs: Outputs, m: ModuleDef)
    ensures Lower(p, addImports, prefix, outputs, m).Ok? <==> Lowerable(p, outputs, m)
  {
    if m.dec.Some? {
      SplitFailsIffUnclassified(m.objs);
      ObjectsOkIffBucketsOk(p, outputs, m.objs);
      if Split(m.objs).Ok? {
        SplitIsFilter(m.objs);
        var ss := ProcessesOf(m.objs);
        TypeDeclsOkIff(p, TypesOf(m.objs));
        ConnectionsOkIff(p, ComponentsOf(m.objs));
        ProcessNamesOkIff(ss);
        RegistrationsOkIff(p, outputs, ss);
        ProcessBodiesOkIff(p, ss);
      }
    }
  }

  /** A module with processes cannot be written before the caller has supplied the process outputs. */
  lemma LowerNeedsOutputs(p: Printer, addImports: bool, prefix: Option<string>, m: ModuleDef)
    ensures Lower(p, addImports, prefix, None, m).Ok? ==> ProcessesOf(m.objs) == []
  {
    LowerOkIff(p, addImports, prefix, None, m);
    if ProcessesOf(m.objs) != [] {
      var s := ProcessesOf(m.objs)[0];
      BucketMembership(m.objs, StatementObj(s), VarDef("", TypeOfTypes, None, true), s, ComponentInst("", "", []));
      assert !ObjectOk(p, None, StatementObj(s));
    }
  }

  /**
   * A written module has one entry per object in every section: a type
   * declaration per type, a declaration per port and signal, one instance,
   * unit and import (when a prefix is set) per component, one binding per
   * port-map entry, an `_interfaces` entry per non-constant port or signal,
   * and a `_processes` entry, a registration and a body per process.
   */
  lemma LowerCounts(p: Printer, addImports: bool, prefix: Option<string>, outputs: Outputs, m: ModuleDef)
    ensures Lower(p, addImports, prefix, outputs, m).Ok? ==>
      var t := Lower(p, addImports, prefix, outputs, m).value;
      var objs := m.objs;
      && t.preamble == (if addImports then [Preamble] else [])
      && |t.imports| == (if prefix.Some? then |ComponentsOf(objs)| else 0)
      && |t.body.typeDecls| == |TypesOf(objs)|
      && |t.body.ctor.ports| == |m.dec.value.ports|
      && |t.body.ctor.signals| == |VariablesOf(objs)|
      && |t.body.ctor.instances| == |ComponentsOf(objs)| == |t.body.init.units|
      && |t.body.init.connections| == PortCount(ComponentsOf(objs))
      && |t.body.init.interfaces| == |NonConst(m.dec.value.ports + VariablesOf(objs))|
      && |t.body.init.processNames| == |ProcessesOf(objs)|
      && |t.body.init.registrations| == |ProcessesOf(objs)|
      && |t.body.bodies| == |ProcessesOf(objs)|
  {
    if Lower(p, addImports, prefix, outputs, m).Ok? {
      var d := m.dec.value;
      SplitIsFilter(m.objs);
      var ts, vs, ss, cs := TypesOf(m.objs), VariablesOf(m.objs), ProcessesOf(m.objs), ComponentsOf(m.objs);
      ImportLinesPerComponent(prefix, cs);
      TypeDeclsOkIff(p, ts);
      VarDeclsPerVariable(p, d.ports);
      VarDeclsPerVariable(p, vs);
      InstancesPerComponent(cs);
      UnitsPerComponent(cs);
      ConnectionsOkIff(p, cs);
      InterfacesAreNonConst(d.ports + vs);
      ProcessNamesOkIff(ss);
      RegistrationsOkIff(p, outputs, ss);
      ProcessBodiesOkIff(p, ss);
    }
  }

  // ------------------------------------------------------- import preamble

  /** How many of the modules, visited in order, get the import preamble. */
  function PreambleCount(addImports: bool, prefix: Option<string>, ms: seq<ModuleDef>): nat
  {
    if ms == [] then 0
    else (if addImports && ms[0].dec.Some? then 1 else 0)
         + PreambleCount(NextAddImports(addImports, prefix, ms[0]), prefix, ms[1..])
  }

  /** How many of the modules carry a declaration. */
  function Declared(ms: seq<ModuleDef>): nat
  {
    if ms == [] then 0 else (if ms[0].dec.Some? then 1 else 0) + Declared(ms[1..])
  }

  /** With a module path prefix, every module file starts with the preamble. */
  lemma {:induction false} PreambleEveryModuleWithPrefix(prefix: Option<string>, ms: seq<ModuleDef>)
    requires prefix.Some?
    ensures PreambleCount(true, prefix, ms) == Declared(ms)
  {
    if ms != [] {
      PreambleEveryModuleWithPrefix(prefix, ms[1..]);
    }
  }

  /** Without a prefix all modules share one output, which gets the preamble once, before the first module. */
  lemma {:induction false} PreambleOnceWithoutPrefix(addImports: bool, ms: seq<ModuleDef>)
    ensures PreambleCount(addImports, None, ms) == (if addImports && Declared(ms) > 0 then 1 else 0)
  {
    if ms != [] {
      PreambleOnceWithoutPrefix(NextAddImports(addImports, None, ms[0]), ms[1..]);
    }
  }
}
