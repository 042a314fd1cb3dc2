/**
 * How ToBasicHdlSimModel sorts the objects of a module body into type
 * declarations, internal variables, processes and component instances.
 */
module ModuleObjs {
  import opened Wrappers
  import opened HdlAst
  import opened SimErrors

  datatype Bucket = Types | Variables | Processes | Components

  /** The class-keyed container dictionary: None for a class it has no entry for. */
  function ContainerOf(o: BodyObj): Option<Bucket>
  {
    match o
    case VarDefObj(_) => Some(Variables)
    case ClassDefObj(_) => Some(Types)
    case EnumDefObj(_) => Some(Types)
    case ComponentObj(_) => Some(Components)
    case StatementObj(_) => Some(Processes)
    case OtherObj(_) => None
  }

  /** The bucket an object goes to: a variable whose type is the type of types is a type declaration. */
  function BucketOf(o: BodyObj): Option<Bucket>
  {
    if o.VarDefObj? && o.v.typ == TypeOfTypes then Some(Types) else ContainerOf(o)
  }

  datatype Buckets = Buckets(
    types: seq<BodyObj>,
    variables: seq<VarDef>,
    processes: seq<Statement>,
    components: seq<ComponentInst>)

  const NoBuckets := Buckets([], [], [], [])

  /** The buckets of `b` followed, bucket by bucket, by those of `rest`. */
  function Concat(b: Buckets, rest: Buckets): Buckets
  {
    Buckets(b.types + rest.types, b.variables + rest.variables,
            b.processes + rest.processes, b.components + rest.components)
  }

  /** Buckets already filled, followed by what the remaining objects give. */
  function Then(b: Buckets, rest: Result<Buckets, Error>): Result<Buckets, Error>
  {
    match rest
    case Ok(r) => Ok(Concat(b, r))
    case Err(e) => Err(e)
  }

  /** The buckets of a single object. */
  function Place(o: BodyObj): Result<Buckets, Error>
  {
    match BucketOf(o)
    case None => Err(UnknownObjectClass(o.className))
    case Some(Types) => Ok(NoBuckets.(types := [o]))
    case Some(Variables) => Ok(NoBuckets.(variables := [o.v]))
    case Some(Processes) => Ok(NoBuckets.(processes := [o.stm]))
    case Some(Components) => Ok(NoBuckets.(components := [o.inst]))
  }

  /** The split of a module body, in the order the source visits it; fails at the first unknown object. */
  function Split(objs: seq<BodyObj>): Result<Buckets, Error>
  {
    if objs == [] then Ok(NoBuckets)
    else
      var first :- Place(objs[0]);
      var rest :- Split(objs[1..]);
      Ok(Concat(first, rest))
  }

  // Proof helpers: how `Then` composes, used by the loop of the splitting method.

  lemma ThenNil(rest: Result<Buckets, Error>)
    ensures Then(NoBuckets, rest) == rest
  {
    match rest
    case Ok(r) => assert Concat(NoBuckets, r) == r;
    case Err(_) =>
  }

  lemma ThenThen(b: Buckets, x: Buckets, rest: Result<Buckets, Error>)
    ensures Then(b, Then(x, rest)) == Then(Concat(b, x), rest)
  {
    match rest
    case Ok(r) =>
      assert b.types + (x.types + r.types) == (b.types + x.types) + r.types;
      assert b.variables + (x.variables + r.variables) == (b.variables + x.variables) + r.variables;
      assert b.processes + (x.processes + r.processes) == (b.processes + x.processes) + r.processes;
      assert b.components + (x.components + r.components) == (b.components + x.components) + r.components;
    case Err(_) =>
  }

  // Reference definitions: each bucket as a filter of the body objects.

  function TypesOf(objs: seq<BodyObj>): seq<BodyObj>
  {
    if objs == [] then []
    else (if BucketOf(objs[0]) == Some(Types) then [objs[0]] else []) + TypesOf(objs[1..])
  }

  function VariablesOf(objs: seq<BodyObj>): seq<VarDef>
  {
    if objs == [] then []
    else (if BucketOf(objs[0]) == Some(Variables) then [objs[0].v] else []) + VariablesOf(objs[1..])
  }

  function ProcessesOf(objs: seq<BodyObj>): seq<Statement>
  {
    if objs == [] then []
    else (if BucketOf(objs[0]) == Some(Processes) then [objs[0].stm] else []) + ProcessesOf(objs[1..])
  }

  function ComponentsOf(objs: seq<BodyObj>): seq<ComponentInst>
  {
    if objs == [] then []
    else (if BucketOf(objs[0]) == Some(Components) then [objs[0].inst] else []) + ComponentsOf(objs[1..])
  }

  /** A successful split puts into each bucket exactly that bucket's objects, in body order. */
  lemma {:induction false} SplitIsFilter(objs: seq<BodyObj>)
    ensures Split(objs).Ok? ==>
      Split(objs).value == Buckets(TypesOf(objs), VariablesOf(objs), ProcessesOf(objs), ComponentsOf(objs))
  {
    if objs != [] {
      SplitIsFilter(objs[1..]);
    }
  }

  /** The split fails exactly when some object's class has no bucket: nothing is silently dropped. */
  lemma {:induction false} SplitFailsIffUnclassified(objs: seq<BodyObj>)
    ensures Split(objs).Err? <==> exists o :: o in objs && BucketOf(o).None?
  {
    if objs != [] {
      SplitFailsIffUnclassified(objs[1..]);
      assert forall o :: o in objs <==> o == objs[0] || o in objs[1..];
    }
  }

  /** When every object is classified, the four buckets hold as many objects as the body. */
  lemma {:induction false} BucketsCoverEveryObject(objs: seq<BodyObj>)
    requires forall o :: o in objs ==> BucketOf(o).Some?
    ensures |TypesOf(objs)| + |VariablesOf(objs)| + |ProcessesOf(objs)| + |ComponentsOf(objs)| == |objs|
  {
    if objs != [] {
      BucketsCoverEveryObject(objs[1..]);
    }
  }

  /**
   * The bucket rules: type-typed variables, class and enum definitions are
   * types; other variables are variables; statements are processes;
   * component instances are components.
   */
  lemma {:induction false} BucketMembership(objs: seq<BodyObj>, o: BodyObj, v: VarDef, s: Statement, c: ComponentInst)
    ensures o in TypesOf(objs) <==>
      o in objs && (o.ClassDefObj? || o.EnumDefObj? || (o.VarDefObj? && o.v.typ == TypeOfTypes))
    ensures v in VariablesOf(objs) <==> VarDefObj(v) in objs && v.typ != TypeOfTypes
    ensures s in ProcessesOf(objs) <==> StatementObj(s) in objs
    ensures c in ComponentsOf(objs) <==> ComponentObj(c) in objs
  {
    if objs != [] {
      BucketMembership(objs[1..], o, v, s, c);
      assert forall x :: x in objs <==> x == objs[0] || x in objs[1..];
    }
  }
}
