/**
 The retention defaults on objects: flow trees, options and defaults live on the heap and may share parts, and nothing
 that belongs to the caller is ever changed. What is computed is what FlowDefaults computes on values.
 */
module FlowObjects {
  import opened FlowDefaults

  /** A reference: to a value that is neither an object nor an array, to an array, which is never changed, or to an
      object. */
  datatype Ref = Plain(v: Value) | Items(items: seq<Ref>) | Object(o: JsObject)

  /** An object. Its height bounds those of the objects it refers to: the package's trees have no cycles. */
  class JsObject {
    var props: map<Text, Ref>
    ghost const height: nat

    constructor (props: map<Text, Ref>, ghost height: nat)
      ensures this.props == props && this.height == height
    {
      this.props, this.height := props, height;
    }
  }

  /** Whether a reference stays within a world of objects, below a height. */
  ghost predicate In(r: Ref, world: set<JsObject>, h: nat) {
    match r
    case Plain(v) => !v.Obj? && !v.Arr?
    case Items(items) => forall i | 0 <= i < |items| :: In(items[i], world, h)
    case Object(o) => o in world && o.height < h
  }

  ghost predicate AllIn(m: map<Text, Ref>, world: set<JsObject>, h: nat) {
    forall k | k in m :: In(m[k], world, h)
  }

  /** Whether the objects of a world refer to nothing outside it. */
  ghost predicate Closed(world: set<JsObject>)
    reads world
  {
    forall o | o in world :: AllIn(o.props, world, o.height)
  }

  /** The value a reference stands for. */
  ghost function View(r: Ref, world: set<JsObject>, h: nat): Value
    requires Closed(world) && In(r, world, h)
    reads world
    decreases h, r, 1
  {
    match r
    case Plain(v) => v
    case Items(items) => Arr(ViewItems(r, items, world, h))
    case Object(o) => Obj(map k | k in o.props :: View(o.props[k], world, o.height))
  }

  ghost function ViewItems(parent: Ref, items: seq<Ref>, world: set<JsObject>, h: nat): (vs: seq<Value>)
    requires forall i | 0 <= i < |items| :: items[i] < parent
    requires Closed(world) && forall i | 0 <= i < |items| :: In(items[i], world, h)
    reads world
    ensures |vs| == |items| && forall i | 0 <= i < |items| :: vs[i] == View(items[i], world, h)
    decreases h, parent, 0, |items|
  {
    if items == [] then [] else [View(items[0], world, h)] + ViewItems(parent, items[1..], world, h)
  }

  ghost function ViewMap(m: map<Text, Ref>, world: set<JsObject>, h: nat): map<Text, Value>
    requires Closed(world) && AllIn(m, world, h)
    reads world
  {
    map k | k in m :: View(m[k], world, h)
  }

  lemma {:induction false} InMore(r: Ref, world: set<JsObject>, h: nat, more: set<JsObject>, top: nat)
    requires In(r, world, h) && world <= more && h <= top
    ensures In(r, more, top)
  {
    match r
    case Items(items) =>
      forall i | 0 <= i < |items| ensures In(items[i], more, top) {
        InMore(items[i], world, h, more, top);
      }
    case _ =>
  }

  /** A larger world and a greater height change nothing about what a reference stands for. */
  lemma {:induction false} ViewInMore(r: Ref, world: set<JsObject>, h: nat, more: set<JsObject>, top: nat)
    requires Closed(world) && Closed(more) && In(r, world, h) && world <= more && h <= top
    ensures In(r, more, top) && View(r, more, top) == View(r, world, h)
    decreases h, r
  {
    InMore(r, world, h, more, top);
    match r
    case Plain(_) =>
    case Items(items) =>
      forall i | 0 <= i < |items| ensures View(items[i], more, top) == View(items[i], world, h) {
        ViewInMore(items[i], world, h, more, top);
      }
      assert ViewItems(r, items, more, top) == ViewItems(r, items, world, h);
    case Object(o) =>
      forall k | k in o.props ensures View(o.props[k], more, o.height) == View(o.props[k], world, o.height) {
        ViewInMore(o.props[k], world, o.height, more, o.height);
      }
  }

  lemma MapInMore(m: map<Text, Ref>, world: set<JsObject>, h: nat, more: set<JsObject>, top: nat)
    requires Closed(world) && Closed(more) && AllIn(m, world, h) && world <= more && h <= top
    ensures AllIn(m, more, top) && ViewMap(m, more, top) == ViewMap(m, world, h)
  {
    forall k | k in m ensures In(m[k], more, top) && View(m[k], more, top) == View(m[k], world, h) {
      ViewInMore(m[k], world, h, more, top);
    }
  }

  // ---------- the JavaScript operations, on objects ----------

  predicate IsTruthy(r: Ref) {
    r.Plain? ==> Truthy(r.v)
  }

  lemma TruthyView(r: Ref, world: set<JsObject>, h: nat)
    requires Closed(world) && In(r, world, h)
    ensures IsTruthy(r) <==> Truthy(View(r, world, h))
    ensures !IsTruthy(r) <==> r in {Plain(Undefined), Plain(Null), Plain(Bool(false)), Plain(Num(0.0)), Plain(Str(EMPTY))}
  {
  }

  function PropOf(r: Ref, name: Text): Ref
    reads if r.Object? then {r.o} else {}
  {
    if r.Object? && name in r.o.props then r.o.props[name] else Plain(Undefined)
  }

  function SpreadOf(r: Ref): map<Text, Ref>
    reads if r.Object? then {r.o} else {}
  {
    match r
    case Plain(_) => map[]
    case Items(items) => map k | k in Numerals(|items|) :: items[k.i]
    case Object(o) => o.props
  }

  lemma SpreadView(r: Ref, world: set<JsObject>, h: nat)
    requires Closed(world) && In(r, world, h)
    ensures AllIn(SpreadOf(r), world, h) && ViewMap(SpreadOf(r), world, h) == Spread(View(r, world, h))
  {
    match r
    case Plain(_) =>
    case Items(items) =>
    case Object(o) => MapInMore(o.props, world, o.height, world, h);
  }

  lemma PropView(r: Ref, name: Text, world: set<JsObject>, h: nat)
    requires Closed(world) && In(r, world, h)
    ensures In(PropOf(r, name), world, h) && View(PropOf(r, name), world, h) == Prop(View(r, world, h), name)
  {
    if r.Object? && name in r.o.props {
      ViewInMore(r.o.props[name], world, r.o.height, world, h);
    }
  }

  lemma SumView(a: map<Text, Ref>, b: map<Text, Ref>, world: set<JsObject>, h: nat)
    requires Closed(world) && AllIn(a, world, h) && AllIn(b, world, h)
    ensures AllIn(a + b, world, h) && ViewMap(a + b, world, h) == ViewMap(a, world, h) + ViewMap(b, world, h)
  {
  }

  /** An object that refers only to a closed world closes it again, and stands for its properties. */
  lemma NewObject(o: JsObject, world: set<JsObject>)
    requires Closed(world) && AllIn(o.props, world, o.height)
    ensures Closed(world + {o})
    ensures View(Object(o), world + {o}, o.height + 1) == Obj(ViewMap(o.props, world, o.height))
  {
    forall p | p in world + {o} ensures AllIn(p.props, world + {o}, p.height) {
      forall k | k in p.props ensures In(p.props[k], world + {o}, p.height) {
        InMore(p.props[k], world, p.height, world + {o}, p.height);
      }
    }
    MapInMore(o.props, world, o.height, world + {o}, o.height);
  }

  lemma UnionIsClosed(a: set<JsObject>, b: set<JsObject>)
    requires Closed(a) && Closed(b)
    ensures Closed(a + b)
  {
    forall p | p in a + b ensures AllIn(p.props, a + b, p.height) {
      forall k | k in p.props ensures In(p.props[k], a + b, p.height) {
        InMore(p.props[k], if p in a then a else b, p.height, a + b, p.height);
      }
    }
  }

  /** Whether a reference stands for a value. */
  ghost predicate Stands(r: Ref, v: Value, world: set<JsObject>, h: nat)
    reads world
  {
    Closed(world) && In(r, world, h) && View(r, world, h) == v
  }

  lemma StandsInMore(r: Ref, v: Value, world: set<JsObject>, h: nat, more: set<JsObject>, top: nat)
    requires Stands(r, v, world, h) && Closed(more) && world <= more && h <= top
    ensures Stands(r, v, more, top)
  {
    ViewInMore(r, world, h, more, top);
  }

  /** Putting together what has been made on the same world. */
  lemma Together(r: Ref, v: Value, world: set<JsObject>, mine: set<JsObject>, h: nat, other: set<JsObject>, top: nat)
    requires Stands(r, v, world + mine, h) && Closed(world + other) && h <= top
    ensures Stands(r, v, world + (mine + other), top)
  {
    UnionIsClosed(world + mine, world + other);
    assert world + mine + (world + other) == world + (mine + other);
    StandsInMore(r, v, world + mine, h, world + (mine + other), top);
  }

  /** Whether properties stand for properties. */
  ghost predicate MapStands(m: map<Text, Ref>, c: map<Text, Value>, world: set<JsObject>, h: nat)
    reads world
  {
    Closed(world) && AllIn(m, world, h) && ViewMap(m, world, h) == c
  }

  lemma MapStandsInMore(m: map<Text, Ref>, c: map<Text, Value>, world: set<JsObject>, h: nat, more: set<JsObject>, top: nat)
    requires MapStands(m, c, world, h) && Closed(more) && world <= more && h <= top
    ensures MapStands(m, c, more, top)
  {
    MapInMore(m, world, h, more, top);
  }

  lemma SpreadStands(r: Ref, v: Value, world: set<JsObject>, h: nat)
    requires Stands(r, v, world, h)
    ensures MapStands(SpreadOf(r), Spread(v), world, h)
  {
    SpreadView(r, world, h);
  }

  lemma PropStands(r: Ref, v: Value, name: Text, world: set<JsObject>, h: nat)
    requires Stands(r, v, world, h)
    ensures Stands(PropOf(r, name), Prop(v, name), world, h)
  {
    PropView(r, name, world, h);
  }

  lemma SumStands(a: map<Text, Ref>, ca: map<Text, Value>, b: map<Text, Ref>, cb: map<Text, Value>,
                  world: set<JsObject>, h: nat)
    requires MapStands(a, ca, world, h) && MapStands(b, cb, world, h)
    ensures MapStands(a + b, ca + cb, world, h)
  {
    SumView(a, b, world, h);
  }

  lemma UpdateStands(m: map<Text, Ref>, c: map<Text, Value>, k: Text, r: Ref, v: Value, world: set<JsObject>, h: nat)
    requires MapStands(m, c, world, h) && Stands(r, v, world, h)
    ensures MapStands(m[k := r], c[k := v], world, h)
  {
  }

  /** A new object with given properties. */
  method NewStanding(props: map<Text, Ref>, ghost c: map<Text, Value>, ghost world: set<JsObject>, ghost h: nat)
    returns (o: JsObject)
    requires MapStands(props, c, world, h)
    ensures fresh(o) && o.props == props && o.height == h
    ensures Stands(Object(o), Obj(c), world + {o}, h + 1)
  {
    o := new JsObject(props, h);
    NewObject(o, world);
  }

  // ---------- bulk trees ----------

  ghost function Max(a: nat, b: nat): nat {
    if a < b then b else a
  }

  /** The new options of a node, in a new object. */
  method MakeOptions(flow: Ref, defaults: Ref, ghost fv: Value, ghost dv: Value, ghost world: set<JsObject>, ghost h: nat)
    returns (opts: JsObject)
    requires Stands(flow, fv, world, h) && Stands(defaults, dv, world, h)
    ensures fresh(opts)
    ensures Stands(Object(opts), Obj(Spread(dv) + Spread(Prop(fv, OPTS))), world + {opts}, h + 1)
  {
    SpreadStands(defaults, dv, world, h);
    PropStands(flow, fv, OPTS, world, h);
    SpreadStands(PropOf(flow, OPTS), Prop(fv, OPTS), world, h);
    SumStands(SpreadOf(defaults), Spread(dv), SpreadOf(PropOf(flow, OPTS)), Spread(Prop(fv, OPTS)), world, h);
    opts := NewStanding(SpreadOf(defaults) + SpreadOf(PropOf(flow, OPTS)), Spread(dv) + Spread(Prop(fv, OPTS)), world, h);
  }

  /** The properties of a rewritten node. */
  function NodeProps(flow: Ref, opts: Ref, children: Ref): map<Text, Ref>
    reads if flow.Object? then {flow.o} else {}
  {
    var stamped := SpreadOf(flow)[OPTS := opts];
    if children.Plain? && children.v.Undefined? then stamped else stamped[CHILDREN := children]
  }

  /** The rewritten node, given the values of its parts. */
  ghost function NodeOf(flow: Value, opts: Value, children: Value): map<Text, Value> {
    var stamped := Spread(flow)[OPTS := opts];
    if children.Undefined? then stamped else stamped[CHILDREN := children]
  }

  /** The new node, in a new object. */
  method MakeNode(flow: Ref, opts: Ref, children: Ref, ghost fv: Value, ghost ov: Value, ghost cv: Value,
                  ghost world: set<JsObject>, ghost h: nat)
    returns (node: JsObject)
    requires Stands(flow, fv, world, h) && Stands(opts, ov, world, h) && Stands(children, cv, world, h)
    ensures fresh(node) && Stands(Object(node), Obj(NodeOf(fv, ov, cv)), world + {node}, h + 1)
  {
    SpreadStands(flow, fv, world, h);
    UpdateStands(SpreadOf(flow), Spread(fv), OPTS, opts, ov, world, h);
    if !cv.Undefined? {
      UpdateStands(SpreadOf(flow)[OPTS := opts], Spread(fv)[OPTS := ov], CHILDREN, children, cv, world, h);
    }
    node := NewStanding(NodeProps(flow, opts, children), NodeOf(fv, ov, cv), world, h);
  }

  /** The children a node really has. */
  function ChildrenOf(r: Ref): seq<Ref>
    reads if r.Object? then {r.o} else {}
  {
    if PropOf(r, CHILDREN).Items? then PropOf(r, CHILDREN).items else []
  }

  /** Whether references stand for values, one by one. */
  ghost predicate StandFor(rs: seq<Ref>, vs: seq<Value>, world: set<JsObject>, h: nat)
    reads world
  {
    |rs| == |vs| && Closed(world) && forall i | 0 <= i < |rs| :: Stands(rs[i], vs[i], world, h)
  }

  lemma OneMoreStands(rs: seq<Ref>, vs: seq<Value>, world: set<JsObject>, mine: set<JsObject>, h: nat,
                      r: Ref, v: Value, other: set<JsObject>, top: nat)
    requires StandFor(rs, vs, world + mine, h) && Stands(r, v, world + other, top)
    ensures StandFor(rs + [r], vs + [v], world + (mine + other), Max(h, top))
  {
    forall i | 0 <= i < |rs| ensures Stands(rs[i], vs[i], world + (mine + other), Max(h, top)) {
      Together(rs[i], vs[i], world, mine, h, other, Max(h, top));
    }
    assert other + mine == mine + other;
    Together(r, v, world, other, top, mine, Max(h, top));
  }

  ghost function Rewritten(vs: seq<Value>, defaults: Value): (ws: seq<Value>)
    ensures |ws| == |vs|
  {
    seq(|vs|, i requires 0 <= i < |vs| => WithBulkFlowJobDefaults(vs[i], defaults))
  }

  /** The children of the rewritten node. */
  ghost function NewChildren(flow: Value, defaults: Value): Value {
    if Prop(flow, CHILDREN).Arr? then Arr(Rewritten(Prop(flow, CHILDREN).items, defaults)) else Prop(flow, CHILDREN)
  }

  lemma AddOne(m: map<Text, Value>, k: Text, v: Value)
    ensures m + map[k := v] == m[k := v] && m + map[] == m
  {
  }

  lemma NewNode(flow: Value, defaults: Value)
    requires Truthy(defaults) && IsObject(flow)
    ensures WithBulkFlowJobDefaults(flow, defaults) ==
              Obj(NodeOf(flow, Obj(Spread(defaults) + Spread(Prop(flow, OPTS))), NewChildren(flow, defaults)))
  {
    var opts, children := Obj(Spread(defaults) + Spread(Prop(flow, OPTS))), NewChildren(flow, defaults);
    if Prop(flow, CHILDREN).Arr? {
      assert BulkChildren(flow, Children(flow), defaults) == Rewritten(Children(flow), defaults);
    }
    AddOne(Spread(flow), OPTS, opts);
    AddOne(Spread(flow)[OPTS := opts], CHILDREN, children);
  }

  lemma PartsTogether(flow: Ref, fv: Value, opts: Ref, ov: Value, children: Ref, cv: Value, world: set<JsObject>, h: nat,
                      own: set<JsObject>, mine: set<JsObject>, made: nat, top: nat)
    requires Stands(flow, fv, world, h) && Stands(opts, ov, world + own, h + 1) && Stands(children, cv, world + mine, made)
    requires made <= top && h + 1 <= top
    ensures Stands(flow, fv, world + (mine + own), top)
    ensures Stands(opts, ov, world + (mine + own), top) && Stands(children, cv, world + (mine + own), top)
  {
    Together(children, cv, world, mine, made, own, top);
    assert own + mine == mine + own;
    Together(opts, ov, world, own, h + 1, mine, top);
    StandsInMore(flow, fv, world, h, world + (mine + own), top);
  }

  /** Builds the options and the node on top of what has been made for the children. */
  method Rebuild(flow: Ref, defaults: Ref, children: Ref, ghost fv: Value, ghost dv: Value, ghost cv: Value,
                 ghost world: set<JsObject>, ghost h: nat, ghost mine: set<JsObject>, ghost made: nat)
    returns (node: JsObject, ghost more: set<JsObject>, ghost top: nat)
    requires Stands(flow, fv, world, h) && Stands(defaults, dv, world, h) && Stands(children, cv, world + mine, made)
    ensures fresh(more - mine) && mine <= more
    ensures Stands(Object(node), Obj(NodeOf(fv, Obj(Spread(dv) + Spread(Prop(fv, OPTS))), cv)), world + more, top)
  {
    var opts := MakeOptions(flow, defaults, fv, dv, world, h);
    ghost var ov, height := Obj(Spread(dv) + Spread(Prop(fv, OPTS))), Max(made, h + 1);
    PartsTogether(flow, fv, Object(opts), ov, children, cv, world, h, {opts}, mine, made, height);
    more := mine + {opts};
    ghost var parts := world + more;
    node := MakeNode(flow, Object(opts), children, fv, ov, cv, parts, height);
    more, top := more + {node}, height + 1;
    assert parts + {node} == world + more;
  }

  /** The rewritten tree is made of new objects and of parts of the caller's, whose own objects all stay as they are. */
  method BulkObjects(flow: Ref, defaults: Ref, ghost world: set<JsObject>, ghost h: nat, ghost hd: nat)
    returns (out: Ref, ghost more: set<JsObject>, ghost top: nat)
    requires Closed(world) && In(flow, world, h) && In(defaults, world, hd)
    ensures fresh(more) && unchanged(world)
    ensures !IsTruthy(defaults) || flow.Plain? ==> out == flow && more == {}
    ensures Stands(out, WithBulkFlowJobDefaults(View(flow, world, h), View(defaults, world, hd)), world + more, top)
    decreases h, 1
  {
    if !IsTruthy(defaults) || flow.Plain? {
      more, top := {}, h;
      assert world + more == world;
      return flow, more, top;
    }
    ghost var fv, dv := View(flow, world, h), View(defaults, world, hd);
    NewNode(fv, dv);
    var children;
    children, more, top := BulkChildObjects(flow, defaults, world, h, hd);
    StandsInMore(flow, fv, world, h, world, Max(h, hd));
    StandsInMore(defaults, dv, world, hd, world, Max(h, hd));
    var node;
    node, more, top := Rebuild(flow, defaults, children, fv, dv, NewChildren(fv, dv), world, Max(h, hd), more, top);
    out := Object(node);
  }

  method BulkChildObjects(flow: Ref, defaults: Ref, ghost world: set<JsObject>, ghost h: nat, ghost hd: nat)
    returns (children: Ref, ghost more: set<JsObject>, ghost top: nat)
    requires Closed(world) && In(flow, world, h) && In(defaults, world, hd)
    ensures fresh(more) && unchanged(world)
    ensures Stands(children, NewChildren(View(flow, world, h), View(defaults, world, hd)), world + more, top)
    decreases h, 0
  {
    children, more, top := PropOf(flow, CHILDREN), {}, h;
    PropView(flow, CHILDREN, world, h);
    assert world + more == world;
    if children.Items? {
      ghost var inner := flow.o.height;
      ViewInMore(children, world, inner, world, h);
      var items;
      items, more, top := BulkItems(children.items, defaults, world, inner, hd);
      children := Items(items);
    }
  }

  method BulkItems(items: seq<Ref>, defaults: Ref, ghost world: set<JsObject>, ghost h: nat, ghost hd: nat)
    returns (out: seq<Ref>, ghost more: set<JsObject>, ghost top: nat)
    requires Closed(world) && In(Items(items), world, h) && In(defaults, world, hd)
    ensures fresh(more) && unchanged(world)
    ensures StandFor(out, Rewritten(ViewItems(Items(items), items, world, h), View(defaults, world, hd)), world + more, top)
    decreases h, 2
  {
    out, more, top := [], {}, 0;
    assert world + more == world;
    ghost var ws := Rewritten(ViewItems(Items(items), items, world, h), View(defaults, world, hd));
    for i := 0 to |items|
      invariant fresh(more) && StandFor(out, ws[..i], world + more, top)
    {
      var one, oneMore, oneTop := BulkObjects(items[i], defaults, world, h, hd);
      OneMoreStands(out, ws[..i], world, more, top, one, ws[i], oneMore, oneTop);
      assert ws[..i + 1] == ws[..i] + [ws[i]];
      out, more, top := out + [one], more + oneMore, Max(top, oneTop);
    }
    assert ws[..|items|] == ws;
  }

  // ---------- single trees ----------

  /** What may be found under a queue name: something of the caller's, or an entry stamped before, whose job defaults are
      an object of their own. */
  ghost predicate Entry(r: Ref, world: set<JsObject>, h: nat)
    reads world
  {
    In(r, world, h) ||
    (r.Object? && r.o in world && r.o.height == h + 1 && DEFAULT_JOB_OPTIONS in r.o.props &&
     var d := r.o.props[DEFAULT_JOB_OPTIONS]; d.Object? && d.o in world && d.o.height == h)
  }

  lemma EntryInMore(r: Ref, world: set<JsObject>, h: nat, more: set<JsObject>)
    requires Entry(r, world, h) && world <= more
    ensures Entry(r, more, h)
  {
    if In(r, world, h) {
      InMore(r, world, h, more, h);
    }
  }

  /** The parts of an entry that go into a stamped one. */
  lemma EntryParts(r: Ref, v: Value, world: set<JsObject>, h: nat)
    requires Entry(r, world, h) && Stands(r, v, world, h + 2)
    ensures MapStands(SpreadOf(r), Spread(v), world, h + 1)
    ensures MapStands(SpreadOf(PropOf(r, DEFAULT_JOB_OPTIONS)), Spread(Prop(v, DEFAULT_JOB_OPTIONS)), world, h)
  {
    if In(r, world, h) {
      ViewInMore(r, world, h, world, h + 2);
      SpreadStands(r, v, world, h);
      MapStandsInMore(SpreadOf(r), Spread(v), world, h, world, h + 1);
      PropStands(r, v, DEFAULT_JOB_OPTIONS, world, h);
      SpreadStands(PropOf(r, DEFAULT_JOB_OPTIONS), Prop(v, DEFAULT_JOB_OPTIONS), world, h);
    } else {
      var d := PropOf(r, DEFAULT_JOB_OPTIONS);
      assert AllIn(r.o.props, world, h + 1) && v == Obj(ViewMap(r.o.props, world, h + 1));
      assert AllIn(d.o.props, world, h) && View(d, world, h + 1) == Obj(ViewMap(d.o.props, world, h));
    }
  }

  /** The job defaults of a stamped entry, in a new object. */
  method MakeJobDefaults(own: Ref, defaults: Ref, ghost ov: Value, ghost dv: Value, ghost world: set<JsObject>, ghost h: nat)
    returns (jobDefaults: JsObject)
    requires Entry(own, world, h) && Stands(own, ov, world, h + 2) && Stands(defaults, dv, world, h)
    ensures fresh(jobDefaults) && jobDefaults.height == h
    ensures Stands(Object(jobDefaults), Obj(Spread(dv) + Spread(Prop(ov, DEFAULT_JOB_OPTIONS))), world + {jobDefaults}, h + 1)
  {
    EntryParts(own, ov, world, h);
    SpreadStands(defaults, dv, world, h);
    var inner := SpreadOf(PropOf(own, DEFAULT_JOB_OPTIONS));
    ghost var innerValues := Spread(Prop(ov, DEFAULT_JOB_OPTIONS));
    SumStands(SpreadOf(defaults), Spread(dv), inner, innerValues, world, h);
    jobDefaults := NewStanding(SpreadOf(defaults) + inner, Spread(dv) + innerValues, world, h);
  }

  /** A stamped entry around its job defaults, in a new object. */
  method MakeEntry(props: map<Text, Ref>, jobDefaults: JsObject, ghost c: map<Text, Value>, ghost v: Value,
                   ghost world: set<JsObject>, ghost h: nat)
    returns (entry: JsObject)
    requires MapStands(props, c, world, h + 1)
    requires jobDefaults.height == h && jobDefaults in world && Stands(Object(jobDefaults), v, world, h + 1)
    ensures fresh(entry) && Entry(Object(entry), world + {entry}, h)
    ensures Stands(Object(entry), Obj(c[DEFAULT_JOB_OPTIONS := v]), world + {entry}, h + 2)
  {
    UpdateStands(props, c, DEFAULT_JOB_OPTIONS, Object(jobDefaults), v, world, h + 1);
    entry := NewStanding(props[DEFAULT_JOB_OPTIONS := Object(jobDefaults)], c[DEFAULT_JOB_OPTIONS := v], world, h + 1);
  }

  /** A stamped entry, in two new objects. */
  method StampEntry(own: Ref, defaults: Ref, ghost ov: Value, ghost dv: Value, ghost world: set<JsObject>, ghost h: nat)
    returns (entry: JsObject, ghost more: set<JsObject>)
    requires Entry(own, world, h) && Stands(own, ov, world, h + 2) && Stands(defaults, dv, world, h)
    ensures fresh(more) && Entry(Object(entry), world + more, h)
    ensures Stands(Object(entry),
                   Obj(Spread(ov)[DEFAULT_JOB_OPTIONS := Obj(Spread(dv) + Spread(Prop(ov, DEFAULT_JOB_OPTIONS)))]),
                   world + more, h + 2)
  {
    EntryParts(own, ov, world, h);
    var props := SpreadOf(own);
    var jobDefaults := MakeJobDefaults(own, defaults, ov, dv, world, h);
    MapStandsInMore(props, Spread(ov), world, h + 1, world + {jobDefaults}, h + 1);
    entry := MakeEntry(props, jobDefaults, Spread(ov), Obj(Spread(dv) + Spread(Prop(ov, DEFAULT_JOB_OPTIONS))),
                       world + {jobDefaults}, h);
    more := {jobDefaults, entry};
    assert world + {jobDefaults} + {entry} == world + more;
  }

  /** Whether the properties of the growing queuesOptions stand for what has been collected. */
  ghost predicate Collected(m: map<Text, Ref>, c: map<Text, Value>, world: set<JsObject>, h: nat)
    reads world
  {
    MapStands(m, c, world, h + 2) && forall k | k in m :: Entry(m[k], world, h)
  }

  lemma CollectedInMore(m: map<Text, Ref>, c: map<Text, Value>, world: set<JsObject>, h: nat, more: set<JsObject>)
    requires Collected(m, c, world, h) && Closed(more) && world <= more
    ensures Collected(m, c, more, h)
  {
    MapStandsInMore(m, c, world, h + 2, more, h + 2);
    forall k | k in m ensures Entry(m[k], more, h) {
      EntryInMore(m[k], world, h, more);
    }
  }

  lemma CollectedOneMore(m: map<Text, Ref>, c: map<Text, Value>, world: set<JsObject>, h: nat,
                         q: Text, r: Ref, v: Value, more: set<JsObject>)
    requires Collected(m, c, world, h) && world <= more
    requires Entry(r, more, h) && Stands(r, v, more, h + 2)
    ensures Collected(m[q := r], c[q := v], more, h)
  {
    CollectedInMore(m, c, world, h, more);
    UpdateStands(m, c, q, r, v, more, h + 2);
  }

  /** What is stamped: what is found under the name, unless that is falsy. */
  function OwnOf(m: map<Text, Ref>, q: Text): Ref {
    if q in m && IsTruthy(m[q]) then m[q] else Plain(Undefined)
  }

  ghost function OwnValue(c: map<Text, Value>, q: Text): Value {
    if Truthy(Lookup(c, q)) then Lookup(c, q) else Undefined
  }

  lemma OwnStands(m: map<Text, Ref>, c: map<Text, Value>, world: set<JsObject>, h: nat, q: Text)
    requires Collected(m, c, world, h)
    ensures Entry(OwnOf(m, q), world, h) && Stands(OwnOf(m, q), OwnValue(c, q), world, h + 2)
  {
    if q in m {
      assert c[q] == View(m[q], world, h + 2);
    }
  }

  lemma StampedOwn(c: map<Text, Value>, q: Text, defaults: Value)
    ensures var own := OwnValue(c, q);
      Stamped(Lookup(c, q), defaults) ==
      Obj(Spread(own)[DEFAULT_JOB_OPTIONS := Obj(Spread(defaults) + Spread(Prop(own, DEFAULT_JOB_OPTIONS)))])
  {
  }

  /** The properties of queuesOptions with the entry of one queue stamped. */
  method StampProps(m: map<Text, Ref>, q: Text, defaults: Ref, ghost c: map<Text, Value>, ghost dv: Value,
                    ghost world: set<JsObject>, ghost h: nat)
    returns (stamped: map<Text, Ref>, ghost more: set<JsObject>)
    requires Stands(defaults, dv, world, h) && Collected(m, c, world, h)
    ensures fresh(more) && Collected(stamped, c[q := Stamped(Lookup(c, q), dv)], world + more, h)
  {
    OwnStands(m, c, world, h, q);
    StampedOwn(c, q, dv);
    var entry;
    entry, more := StampEntry(OwnOf(m, q), defaults, OwnValue(c, q), dv, world, h);
    CollectedOneMore(m, c, world, h, q, Object(entry), Stamped(Lookup(c, q), dv), world + more);
    stamped := m[q := Object(entry)];
  }

  /** Stamping the entry of one queue, by assigning a property of the new queuesOptions object. */
  method StampInPlace(queuesOptions: JsObject, q: Text, defaults: Ref, ghost c: map<Text, Value>, ghost dv: Value,
                      ghost world: set<JsObject>, ghost h: nat, ghost mine: set<JsObject>)
    returns (ghost more: set<JsObject>)
    requires queuesOptions !in world + mine
    requires Stands(defaults, dv, world, h) && Collected(queuesOptions.props, c, world + mine, h)
    modifies queuesOptions
    ensures mine <= more && fresh(more - mine)
    ensures Collected(queuesOptions.props, c[q := Stamped(Lookup(c, q), dv)], world + more, h)
  {
    StandsInMore(defaults, dv, world, h, world + mine, h);
    var stamped, two := StampProps(queuesOptions.props, q, defaults, c, dv, world + mine, h);
    more := mine + two;
    assert world + mine + two == world + more && queuesOptions !in world + more;
    queuesOptions.props := stamped;
  }

  lemma ChildrenStand(job: Ref, v: Value, world: set<JsObject>, h: nat)
    requires Stands(job, v, world, h)
    ensures StandFor(ChildrenOf(job), Children(v), world, h)
  {
    PropView(job, CHILDREN, world, h);
  }

  lemma StandForSum(a: seq<Ref>, va: seq<Value>, b: seq<Ref>, vb: seq<Value>, world: set<JsObject>, h: nat)
    requires StandFor(a, va, world, h) && StandFor(b, vb, world, h)
    ensures StandFor(a + b, va + vb, world, h)
  {
  }

  /** One visit: the node's own queue is stamped, if it names one, and its children are next. */
  method VisitObject(queuesOptions: JsObject, job: Ref, defaults: Ref, ghost jv: Value, ghost c: map<Text, Value>,
                     ghost dv: Value, ghost world: set<JsObject>, ghost h: nat, ghost mine: set<JsObject>)
    returns (children: seq<Ref>, ghost more: set<JsObject>)
    requires queuesOptions !in world + mine && Stands(job, jv, world, h)
    requires Stands(defaults, dv, world, h) && Collected(queuesOptions.props, c, world + mine, h)
    modifies queuesOptions
    ensures mine <= more && fresh(more - mine) && StandFor(children, Children(jv), world, h)
    ensures Collected(queuesOptions.props, Collect(c, jv, dv), world + more, h)
  {
    PropStands(job, jv, QUEUE_NAME, world, h);
    ChildrenStand(job, jv, world, h);
    var name := PropOf(job, QUEUE_NAME);
    children, more := ChildrenOf(job), mine;
    if name.Plain? && name.v.Str? && name.v.s != EMPTY {
      more := StampInPlace(queuesOptions, name.v.s, defaults, c, dv, world, h, mine);
    }
  }

  /** The loop over the stack, which changes nothing but the new queuesOptions object. */
  method CollectInPlace(queuesOptions: JsObject, flow: Ref, defaults: Ref, ghost fv: Value, ghost caller: map<Text, Value>,
                        ghost dv: Value, ghost world: set<JsObject>, ghost h: nat)
    returns (ghost more: set<JsObject>)
    requires queuesOptions !in world && Stands(flow, fv, world, h)
    requires Stands(defaults, dv, world, h) && Collected(queuesOptions.props, caller, world, h)
    modifies queuesOptions
    ensures fresh(more) && Collected(queuesOptions.props, Walk([fv], caller, dv), world + more, h)
  {
    more := {};
    assert world + more == world;
    ghost var c, vs := caller, [fv];
    var pending := [flow];
    while |pending| > 0
      invariant fresh(more) && queuesOptions !in world + more && StandFor(pending, vs, world, h)
      invariant Collected(queuesOptions.props, c, world + more, h)
      invariant Walk(vs, c, dv) == Walk([fv], caller, dv)
      decreases Pending(vs)
    {
      ghost var rest, jv := vs[..|vs| - 1], vs[|vs| - 1];
      WalkTurn(vs, c, dv);
      var job := pending[|pending| - 1];
      pending := pending[..|pending| - 1];
      if job.Plain? {
        Barren(rest, c, jv, dv);
        vs := rest;
        continue;
      }
      var children;
      children, more := VisitObject(queuesOptions, job, defaults, jv, c, dv, world, h, more);
      StandForSum(pending, rest, children, Children(jv), world, h);
      pending, vs, c := pending + children, rest + Children(jv), Collect(c, jv, dv);
    }
  }

  lemma CallersAreCollected(options: Ref, ov: Value, world: set<JsObject>, h: nat)
    requires Stands(options, ov, world, h)
    ensures Collected(SpreadOf(PropOf(options, QUEUES_OPTIONS)), Spread(Prop(ov, QUEUES_OPTIONS)), world, h)
  {
    PropStands(options, ov, QUEUES_OPTIONS, world, h);
    SpreadStands(PropOf(options, QUEUES_OPTIONS), Prop(ov, QUEUES_OPTIONS), world, h);
    MapStandsInMore(SpreadOf(PropOf(options, QUEUES_OPTIONS)), Spread(Prop(ov, QUEUES_OPTIONS)), world, h, world, h + 2);
  }

  /** The copy of the caller's queuesOptions that the walk fills. */
  method CopyQueuesOptions(options: Ref, ghost ov: Value, ghost world: set<JsObject>, ghost h: nat)
    returns (queuesOptions: JsObject)
    requires Stands(options, ov, world, h)
    ensures fresh(queuesOptions) && queuesOptions.height == h + 2
    ensures Collected(queuesOptions.props, Spread(Prop(ov, QUEUES_OPTIONS)), world, h)
  {
    CallersAreCollected(options, ov, world, h);
    var props := SpreadOf(PropOf(options, QUEUES_OPTIONS));
    queuesOptions := new JsObject(props, h + 2);
  }

  lemma NewFlowOptions(flow: Value, options: Value, defaults: Value)
    requires Truthy(defaults)
    ensures FlowOptions(flow, options, defaults) ==
              Obj(Spread(if IsObject(options) then options else Undefined)
                  [QUEUES_OPTIONS := Obj(Walk([flow], Spread(Prop(options, QUEUES_OPTIONS)), defaults))])
  {
    WalkOfTree(flow, Spread(Prop(options, QUEUES_OPTIONS)), defaults);
  }

  /** The caller's options with other queuesOptions, in a new object. */
  method MakeFlowOptions(options: Ref, queuesOptions: JsObject, ghost ov: Value, ghost c: map<Text, Value>,
                         ghost world: set<JsObject>, ghost mine: set<JsObject>, ghost h: nat)
    returns (out: JsObject)
    requires Stands(options, ov, world, h) && queuesOptions.height == h + 2
    requires Collected(queuesOptions.props, c, world + mine, h)
    ensures fresh(out)
    ensures Stands(Object(out), Obj(Spread(ov)[QUEUES_OPTIONS := Obj(c)]), world + (mine + {queuesOptions, out}), h + 4)
  {
    ghost var w := world + mine + {queuesOptions};
    NewObject(queuesOptions, world + mine);
    StandsInMore(options, ov, world, h, w, h + 3);
    SpreadStands(options, ov, w, h + 3);
    UpdateStands(SpreadOf(options), Spread(ov), QUEUES_OPTIONS, Object(queuesOptions), Obj(c), w, h + 3);
    out := NewStanding(SpreadOf(options)[QUEUES_OPTIONS := Object(queuesOptions)],
                       Spread(ov)[QUEUES_OPTIONS := Obj(c)], w, h + 3);
    assert w + {out} == world + (mine + {queuesOptions, out});
  }

  /** The copy of the caller's queuesOptions, filled by the walk. */
  method FillQueuesOptions(flow: Ref, options: Ref, defaults: Ref, ghost fv: Value, ghost ov: Value, ghost dv: Value,
                           ghost world: set<JsObject>, ghost h: nat)
    returns (queuesOptions: JsObject, ghost mine: set<JsObject>)
    requires Stands(flow, fv, world, h) && Stands(options, ov, world, h) && Stands(defaults, dv, world, h)
    ensures fresh(mine) && fresh(queuesOptions) && queuesOptions.height == h + 2
    ensures Collected(queuesOptions.props, Walk([fv], Spread(Prop(ov, QUEUES_OPTIONS)), dv), world + mine, h)
  {
    queuesOptions := CopyQueuesOptions(options, ov, world, h);
    mine := CollectInPlace(queuesOptions, flow, defaults, fv, Spread(Prop(ov, QUEUES_OPTIONS)), dv, world, h);
  }

  /** The new options around what the walk collects. */
  method BuildFlowOptions(flow: Ref, options: Ref, defaults: Ref, ghost fv: Value, ghost ov: Value, ghost dv: Value,
                          ghost world: set<JsObject>, ghost h: nat)
    returns (out: JsObject, ghost more: set<JsObject>)
    requires Stands(flow, fv, world, h) && Stands(options, ov, world, h) && Stands(defaults, dv, world, h) && Truthy(dv)
    ensures fresh(more) && Stands(Object(out), FlowOptions(fv, ov, dv), world + more, h + 4)
  {
    NewFlowOptions(fv, ov, dv);
    var queuesOptions, mine := FillQueuesOptions(flow, options, defaults, fv, ov, dv, world, h);
    out := MakeFlowOptions(options, queuesOptions, ov, Walk([fv], Spread(Prop(ov, QUEUES_OPTIONS)), dv), world, mine, h);
    more := mine + {queuesOptions, out};
  }

  /** Options for a single tree, as new objects around parts of the caller's, whose own objects all stay as they are. */
  method FlowOptionsObject(flow: Ref, options: Ref, defaults: Ref, ghost world: set<JsObject>, ghost h: nat)
    returns (out: Ref, ghost more: set<JsObject>)
    requires Closed(world) && In(flow, world, h) && In(options, world, h) && In(defaults, world, h)
    ensures fresh(more) && unchanged(world)
    ensures !IsTruthy(defaults) ==> out == options && more == {}
    ensures Stands(out, FlowOptions(View(flow, world, h), View(options, world, h), View(defaults, world, h)),
                   world + more, h + 4)
  {
    if !IsTruthy(defaults) {
      more := {};
      assert world + more == world;
      ViewInMore(options, world, h, world, h + 4);
      return options, more;
    }
    ghost var fv, ov, dv := View(flow, world, h), View(options, world, h), View(defaults, world, h);
    var result;
    result, more := BuildFlowOptions(flow, options, defaults, fv, ov, dv, world, h);
    out := Object(result);
  }
}
