/**
 Retention defaults for flow trees, on JavaScript values.

 A single tree goes through an explicit-stack walk that collects options per queue name; the trees of a bulk message
 are rewritten recursively. Both must give every job the same options.
 */
module FlowDefaults {
  import opened Wrappers

  /** A string, which may be a property name. The names the code mentions, the empty string and the decimal numerals
      that index an array are told apart from all others up front. */
  datatype Text =
    | CHILDREN
    | OPTS
    | QUEUE_NAME
    | QUEUES_OPTIONS
    | DEFAULT_JOB_OPTIONS
    | EMPTY
    | Numeral(i: nat)
    | Other(chars: string)

  datatype Value =
    | Undefined
    | Null
    | Bool(b: bool)
    | Num(n: real)
    | Str(s: Text)
    | Arr(items: seq<Value>)
    | Obj(props: map<Text, Value>)

  // ---------- the JavaScript operations the two functions use ----------

  predicate Truthy(v: Value) {
    match v
    case Undefined => false
    case Null => false
    case Bool(b) => b
    case Num(n) => n != 0.0
    case Str(s) => s != EMPTY
    case Arr(_) => true
    case Obj(_) => true
  }

  /** A value that is truthy and whose typeof is "object". */
  predicate IsObject(v: Value) {
    v.Arr? || v.Obj?
  }

  /** Reading a property whose name is not a numeral. */
  function Prop(v: Value, name: Text): (r: Value)
    ensures v.Obj? || r.Undefined?
    ensures r < v || r.Undefined?
  {
    if v.Obj? && name in v.props then v.props[name] else Undefined
  }

  /** The names of the elements of an array. */
  function Numerals(n: nat): (names: set<Text>)
    ensures forall k :: k in names <==> k.Numeral? && k.i < n
  {
    if n == 0 then {} else Numerals(n - 1) + {Numeral(n - 1)}
  }

  /** The own enumerable properties that `{ ...v }` copies. */
  function Spread(v: Value): map<Text, Value> {
    match v
    case Obj(m) => m
    case Arr(items) => map k | k in Numerals(|items|) :: items[k.i]
    case _ => map[]
  }

  // ---------- bulk trees ----------

  /** The children a job really has; anything but an array counts as none. */
  function Children(v: Value): (r: seq<Value>)
    ensures forall i | 0 <= i < |r| :: r[i] < v
  {
    if Prop(v, CHILDREN).Arr? then Prop(v, CHILDREN).items else []
  }

  function WithBulkFlowJobDefaults(flow: Value, defaults: Value): Value
    decreases flow, 1
  {
    if !Truthy(defaults) || !IsObject(flow) then flow
    else
      var children :=
        if Prop(flow, CHILDREN).Arr? then Arr(BulkChildren(flow, Children(flow), defaults)) else Prop(flow, CHILDREN);
      Obj(Spread(flow)
          + map[OPTS := Obj(Spread(defaults) + Spread(Prop(flow, OPTS)))]
          + if children.Undefined? then map[] else map[CHILDREN := children])
  }

  function BulkChildren(ghost parent: Value, children: seq<Value>, defaults: Value): (r: seq<Value>)
    requires forall i | 0 <= i < |children| :: children[i] < parent
    ensures |r| == |children|
    ensures forall i | 0 <= i < |r| :: r[i] == WithBulkFlowJobDefaults(children[i], defaults)
    decreases parent, 0, |children|
  {
    if children == [] then []
    else [WithBulkFlowJobDefaults(children[0], defaults)] + BulkChildren(parent, children[1..], defaults)
  }

  /** The node at a position of a tree. */
  function At(v: Value, path: seq<nat>): Option<Value>
    decreases |path|
  {
    if path == [] then Some(v)
    else if path[0] < |Children(v)| then At(Children(v)[path[0]], path[1..])
    else None
  }

  /** A rewritten node's job options are the defaults overridden by the caller's. */
  lemma BulkOptions(v: Value, defaults: Value)
    requires Truthy(defaults) && IsObject(v)
    ensures var r := WithBulkFlowJobDefaults(v, defaults);
      r.Obj? && Prop(r, OPTS) == Obj(Spread(defaults) + Spread(Prop(v, OPTS)))
  {
  }

  /** Everything but its options and its children is as it was. */
  lemma BulkKeeps(v: Value, defaults: Value, name: Text)
    requires Truthy(defaults) && IsObject(v) && name != OPTS && name != CHILDREN
    ensures var r := WithBulkFlowJobDefaults(v, defaults);
      && (name in Spread(r) <==> name in Spread(v))
      && (name in Spread(v) ==> Spread(r)[name] == Spread(v)[name])
  {
  }

  /** A rewritten node has as many children as before, each of them rewritten. */
  lemma BulkChildNodes(v: Value, defaults: Value)
    requires Truthy(defaults) && IsObject(v)
    ensures var r := WithBulkFlowJobDefaults(v, defaults);
      && (Prop(v, CHILDREN).Arr? <==> Prop(r, CHILDREN).Arr?)
      && (!Prop(v, CHILDREN).Arr? ==> Prop(r, CHILDREN) == Prop(v, CHILDREN))
      && |Children(r)| == |Children(v)|
      && forall i | 0 <= i < |Children(v)| :: Children(r)[i] == WithBulkFlowJobDefaults(Children(v)[i], defaults)
  {
    if v.Arr? {
      assert CHILDREN !in Spread(v);
    }
  }

  /** Whether `all` holds everything in `own`, and what is in `base` alone. */
  ghost predicate Overlaid(all: map<Text, Value>, own: map<Text, Value>, base: map<Text, Value>) {
    && (forall k :: k in all <==> k in own || k in base)
    && forall k | k in all :: all[k] == if k in own then own[k] else base[k]
  }

  /** Without defaults, and on anything that is no object, nothing is rewritten; otherwise a job keeps every option it has
      and takes the others from the defaults. */
  lemma BulkInValues(v: Value, defaults: Value, props: map<Text, Value>, own: map<Text, Value>, stamp: map<Text, Value>)
    ensures !Truthy(defaults) ==> WithBulkFlowJobDefaults(v, defaults) == v
    ensures !v.Obj? && !v.Arr? ==> WithBulkFlowJobDefaults(v, defaults) == v
    ensures v == Obj(props) && OPTS in props && props[OPTS] == Obj(own) && defaults == Obj(stamp) ==>
      var r := WithBulkFlowJobDefaults(v, defaults);
      r.Obj? && OPTS in r.props && r.props[OPTS].Obj? &&
      var all := r.props[OPTS].props;
      Overlaid(all, own, stamp)
    ensures v == Obj(props) && OPTS !in props && defaults == Obj(stamp) ==>
      var r := WithBulkFlowJobDefaults(v, defaults);
      r.Obj? && OPTS in r.props && r.props[OPTS] == Obj(stamp)
  {
    if v.Obj? && defaults.Obj? {
      BulkOptions(v, defaults);
    }
  }

  /** The rewriting keeps the shape of the tree and reaches every node of it. */
  lemma {:induction false} BulkAt(v: Value, defaults: Value, path: seq<nat>)
    ensures At(WithBulkFlowJobDefaults(v, defaults), path) ==
              match At(v, path)
              case Some(node) => Some(WithBulkFlowJobDefaults(node, defaults))
              case None => None
    decreases |path|
  {
    if path != [] && Truthy(defaults) && IsObject(v) {
      BulkChildNodes(v, defaults);
      if path[0] < |Children(v)| {
        BulkAt(Children(v)[path[0]], defaults, path[1..]);
      }
    }
  }

  lemma BulkChildrenKey(v: Value, defaults: Value)
    requires Truthy(defaults) && IsObject(v)
    ensures CHILDREN in Spread(WithBulkFlowJobDefaults(v, defaults)) <==> CHILDREN in Spread(v)
  {
  }

  lemma SameOptionsTwice(v: Value, defaults: Value)
    requires Truthy(defaults) && IsObject(v)
    ensures var once := WithBulkFlowJobDefaults(v, defaults);
      IsObject(once) && Prop(WithBulkFlowJobDefaults(once, defaults), OPTS) == Prop(once, OPTS)
  {
    BulkOptions(v, defaults);
    BulkOptions(WithBulkFlowJobDefaults(v, defaults), defaults);
    var d, o := Spread(defaults), Spread(Prop(v, OPTS));
    assert d + (d + o) == d + o;
  }

  /** Stamping a second time with the same defaults changes nothing. */
  lemma {:induction false} BulkIdempotent(v: Value, defaults: Value)
    ensures WithBulkFlowJobDefaults(WithBulkFlowJobDefaults(v, defaults), defaults) == WithBulkFlowJobDefaults(v, defaults)
    decreases v
  {
    if Truthy(defaults) && IsObject(v) {
      var once := WithBulkFlowJobDefaults(v, defaults);
      var twice := WithBulkFlowJobDefaults(once, defaults);
      BulkOptions(v, defaults);
      BulkOptions(once, defaults);
      BulkChildNodes(v, defaults);
      BulkChildNodes(once, defaults);
      forall i | 0 <= i < |Children(v)| ensures Children(twice)[i] == Children(once)[i] {
        BulkIdempotent(Children(v)[i], defaults);
      }
      assert Children(twice) == Children(once);
      SameOptionsTwice(v, defaults);
      forall k
        ensures (k in twice.props <==> k in once.props) && (k in once.props ==> twice.props[k] == once.props[k])
      {
        if k == CHILDREN {
          BulkChildrenKey(once, defaults);
        } else if k != OPTS {
          BulkKeeps(once, defaults, k);
        }
      }
    }
  }

  // ---------- single trees ----------

  /** The queue a node names; only a non-empty string counts. */
  function QueueName(v: Value): Option<Text> {
    match Prop(v, QUEUE_NAME)
    case Str(q) => if q == EMPTY then None else Some(q)
    case _ => None
  }

  function Own(v: Value): set<Text> {
    match QueueName(v)
    case Some(q) => {q}
    case None => {}
  }

  /** The queue names of a tree, and of a forest. */
  function Names(v: Value): set<Text>
    decreases v, 1
  {
    Own(v) + NamesOf(v, Children(v))
  }

  function NamesOf(ghost parent: Value, children: seq<Value>): set<Text>
    requires forall i | 0 <= i < |children| :: children[i] < parent
    decreases parent, 0, |children|
  {
    if children == [] then {} else Names(children[0]) + NamesOf(parent, children[1..])
  }

  /** One stamping: the caller's options for the queue stay, and its job defaults override the node's. */
  function Stamped(queueOptions: Value, defaults: Value): Value {
    var own := if Truthy(queueOptions) then queueOptions else Obj(map[]);
    Obj(Spread(own)[DEFAULT_JOB_OPTIONS := Obj(Spread(defaults) + Spread(Prop(own, DEFAULT_JOB_OPTIONS)))])
  }

  function Lookup(m: map<Text, Value>, k: Text): Value {
    if k in m then m[k] else Undefined
  }

  /** What the walk must produce: the named queues are stamped, the caller's other entries are left alone. */
  function StampAll(caller: map<Text, Value>, names: set<Text>, defaults: Value): map<Text, Value> {
    map q | q in caller.Keys + names :: if q in names then Stamped(Lookup(caller, q), defaults) else caller[q]
  }

  function FlowOptions(flow: Value, flowOptions: Value, defaults: Value): Value {
    if !Truthy(defaults) then flowOptions
    else
      var options := if IsObject(flowOptions) then flowOptions else Obj(map[]);
      Obj(Spread(options)[QUEUES_OPTIONS := Obj(StampAll(Spread(Prop(options, QUEUES_OPTIONS)), Names(flow), defaults))])
  }

  lemma StampedTwice(queueOptions: Value, defaults: Value)
    ensures Stamped(Stamped(queueOptions, defaults), defaults) == Stamped(queueOptions, defaults)
  {
    var own := if Truthy(queueOptions) then queueOptions else Obj(map[]);
    var d, c := Spread(defaults), Spread(Prop(own, DEFAULT_JOB_OPTIONS));
    assert d + (d + c) == d + c;
  }

  lemma StampOneMore(caller: map<Text, Value>, names: set<Text>, q: Text, defaults: Value)
    ensures var so := StampAll(caller, names, defaults);
      so[q := Stamped(Lookup(so, q), defaults)] == StampAll(caller, names + {q}, defaults)
  {
    if q in names {
      StampedTwice(Lookup(caller, q), defaults);
    }
  }

  /** The number of nodes still to be visited. */
  function Count(v: Value): nat
    decreases v, 1
  {
    1 + CountOf(v, Children(v))
  }

  function CountOf(ghost parent: Value, children: seq<Value>): nat
    requires forall i | 0 <= i < |children| :: children[i] < parent
    decreases parent, 0, |children|
  {
    if children == [] then 0 else Count(children[0]) + CountOf(parent, children[1..])
  }

  function Pending(vs: seq<Value>): nat {
    if vs == [] then 0 else Count(vs[0]) + Pending(vs[1..])
  }

  function PendingNames(vs: seq<Value>): set<Text> {
    if vs == [] then {} else Names(vs[0]) + PendingNames(vs[1..])
  }

  lemma {:induction false} ChildrenPending(parent: Value, children: seq<Value>)
    requires forall i | 0 <= i < |children| :: children[i] < parent
    ensures CountOf(parent, children) == Pending(children) && NamesOf(parent, children) == PendingNames(children)
    decreases |children|
  {
    if children != [] {
      ChildrenPending(parent, children[1..]);
    }
  }

  lemma {:induction false} PendingOfSum(a: seq<Value>, b: seq<Value>)
    ensures Pending(a + b) == Pending(a) + Pending(b) && PendingNames(a + b) == PendingNames(a) + PendingNames(b)
    decreases |a|
  {
    if a == [] {
      assert a + b == b;
    } else {
      PendingOfSum(a[1..], b);
      assert (a + b)[1..] == a[1..] + b;
    }
  }

  /** Visiting the last node: it makes way for its children, and its own queue name is accounted for. */
  lemma Visit(rest: seq<Value>, job: Value)
    ensures Pending(rest + Children(job)) < Pending(rest + [job])
    ensures PendingNames(rest + [job]) == Own(job) + PendingNames(rest + Children(job))
    ensures !IsObject(job) ==> Children(job) == [] && Own(job) == {}
  {
    PendingOfSum(rest, [job]);
    PendingOfSum(rest, Children(job));
    ChildrenPending(job, Children(job));
    assert PendingNames([job]) == Names(job) && Pending([job]) == Count(job);
  }

  /** What visiting one node does to the options collected so far. */
  function Collect(collected: map<Text, Value>, job: Value, defaults: Value): map<Text, Value> {
    match QueueName(job)
    case Some(q) => collected[q := Stamped(Lookup(collected, q), defaults)]
    case None => collected
  }

  /** The walk as a function: the last node first, its children put in its place. */
  function Walk(pending: seq<Value>, collected: map<Text, Value>, defaults: Value): map<Text, Value>
    decreases Pending(pending)
  {
    if pending == [] then collected
    else
      var rest, job := pending[..|pending| - 1], pending[|pending| - 1];
      assert pending == rest + [job];
      Visit(rest, job);
      Walk(rest + Children(job), Collect(collected, job, defaults), defaults)
  }

  lemma CollectStamps(caller: map<Text, Value>, names: set<Text>, job: Value, defaults: Value)
    ensures Collect(StampAll(caller, names, defaults), job, defaults) == StampAll(caller, names + Own(job), defaults)
  {
    match QueueName(job)
    case Some(q) => StampOneMore(caller, names, q, defaults);
    case None => assert names + Own(job) == names;
  }

  /** Whatever the order of the walk and however often a name repeats, what is collected depends only on the set of
      names in the trees still to be visited. */
  lemma {:induction false} WalkStamps(pending: seq<Value>, caller: map<Text, Value>, names: set<Text>, defaults: Value)
    ensures Walk(pending, StampAll(caller, names, defaults), defaults) ==
              StampAll(caller, names + PendingNames(pending), defaults)
    decreases Pending(pending)
  {
    if pending == [] {
      assert names + PendingNames(pending) == names;
    } else {
      var rest, job := pending[..|pending| - 1], pending[|pending| - 1];
      assert pending == rest + [job];
      Visit(rest, job);
      CollectStamps(caller, names, job, defaults);
      WalkStamps(rest + Children(job), caller, names + Own(job), defaults);
      assert names + Own(job) + PendingNames(rest + Children(job)) == names + PendingNames(pending);
    }
  }

  /** One turn of the loop: what is left to visit, and what will have been collected. */
  lemma WalkTurn(pending: seq<Value>, collected: map<Text, Value>, defaults: Value)
    requires pending != []
    ensures var rest, job := pending[..|pending| - 1], pending[|pending| - 1];
      && Walk(pending, collected, defaults) == Walk(rest + Children(job), Collect(collected, job, defaults), defaults)
      && Pending(rest + Children(job)) < Pending(pending)
  {
    var rest, job := pending[..|pending| - 1], pending[|pending| - 1];
    assert Pending(rest + Children(job)) < Pending(pending) by {
      assert pending == rest + [job];
      Visit(rest, job);
    }
  }

  lemma Barren(rest: seq<Value>, collected: map<Text, Value>, job: Value, defaults: Value)
    ensures !Prop(job, CHILDREN).Arr? ==> rest + Children(job) == rest
    ensures !IsObject(job) ==> Collect(collected, job, defaults) == collected
  {
    assert rest + [] == rest;
  }

  lemma WalkOfTree(flow: Value, caller: map<Text, Value>, defaults: Value)
    ensures Walk([flow], caller, defaults) == StampAll(caller, Names(flow), defaults)
  {
    assert caller == StampAll(caller, {}, defaults);
    WalkStamps([flow], caller, {}, defaults);
    assert {} + PendingNames([flow]) == Names(flow);
  }

  /** The part of one visit that stamps the node's queue. */
  method StampQueue(queuesOptions: map<Text, Value>, job: Value, defaults: Value) returns (r: map<Text, Value>)
    ensures r == Collect(queuesOptions, job, defaults)
  {
    r := queuesOptions;
    if Prop(job, QUEUE_NAME).Str? && Prop(job, QUEUE_NAME).s != EMPTY {
      var q := Prop(job, QUEUE_NAME).s;
      var queueOptions := if q in queuesOptions && Truthy(queuesOptions[q]) then queuesOptions[q] else Obj(map[]);
      r := r[q := Obj(Spread(queueOptions)[DEFAULT_JOB_OPTIONS :=
        Obj(Spread(defaults) + Spread(Prop(queueOptions, DEFAULT_JOB_OPTIONS)))])];
    }
  }

  /** The loop over the stack. It ends because each visit takes one node off the total still to be visited. */
  method CollectQueues(flow: Value, caller: map<Text, Value>, defaults: Value) returns (queuesOptions: map<Text, Value>)
    ensures queuesOptions == Walk([flow], caller, defaults)
  {
    queuesOptions := caller;
    var pending := [flow];
    while |pending| > 0
      invariant Walk(pending, queuesOptions, defaults) == Walk([flow], caller, defaults)
      decreases Pending(pending)
    {
      WalkTurn(pending, queuesOptions, defaults);
      var job := pending[|pending| - 1];
      pending := pending[..|pending| - 1];
      Barren(pending, queuesOptions, job, defaults);
      if !Truthy(job) || !IsObject(job) {
        continue;
      }
      queuesOptions := StampQueue(queuesOptions, job, defaults);
      if Prop(job, CHILDREN).Arr? {
        pending := pending + Prop(job, CHILDREN).items;
      }
    }
  }

  /** What is falsy in JavaScript, here. */
  lemma FalsyValues(v: Value)
    ensures !Truthy(v) <==> v in {Undefined, Null, Bool(false), Num(0.0), Str(EMPTY)}
  {
  }

  /** What a walk finds at a node, in plain values. */
  lemma QueueNames(props: map<Text, Value>, items: seq<Value>)
    ensures QueueName(Obj(props)) ==
              if QUEUE_NAME in props && props[QUEUE_NAME].Str? && props[QUEUE_NAME].s != EMPTY
              then Some(props[QUEUE_NAME].s) else None
    ensures QueueName(Arr(items)) == None && Children(Arr(items)) == []
    ensures Children(Obj(props)) == if CHILDREN in props && props[CHILDREN].Arr? then props[CHILDREN].items else []
  {
  }

  /** The caller's options without retention defaults, and with them: nothing but queuesOptions changes. */
  lemma OtherOptionsStay(flow: Value, options: map<Text, Value>, defaults: Value, name: Text)
    ensures !Truthy(defaults) ==> FlowOptions(flow, Obj(options), defaults) == Obj(options)
    ensures var r := FlowOptions(flow, Obj(options), defaults);
      r.Obj? && (name != QUEUES_OPTIONS ==>
        (name in r.props <==> name in options) && (name in options ==> r.props[name] == options[name]))
  {
  }

  /** A stamped entry: only its job defaults change, where its own win over the node's. */
  lemma StampedInValues(entry: Value, defaults: map<Text, Value>)
    ensures var r := Stamped(entry, Obj(defaults));
      r.Obj? && DEFAULT_JOB_OPTIONS in r.props && r.props[DEFAULT_JOB_OPTIONS].Obj? &&
      var all := r.props[DEFAULT_JOB_OPTIONS].props;
      match entry
      case Undefined => r.props.Keys == {DEFAULT_JOB_OPTIONS} && all == defaults
      case Obj(props) =>
        && (forall k | k != DEFAULT_JOB_OPTIONS :: (k in r.props <==> k in props) && (k in props ==> r.props[k] == props[k]))
        && (DEFAULT_JOB_OPTIONS !in props ==> all == defaults)
        && (DEFAULT_JOB_OPTIONS in props && props[DEFAULT_JOB_OPTIONS].Obj? ==>
              Overlaid(all, props[DEFAULT_JOB_OPTIONS].props, defaults))
      case _ => true
  {
    assert defaults + map[] == defaults;
  }

  /** Within queuesOptions, the entries of queues that no node names stay as they are, and each named queue's is stamped
      once, however often it is named. */
  lemma QueueEntriesInValues(flow: Value, options: map<Text, Value>, queues: map<Text, Value>, defaults: Value, q: Text)
    requires if QUEUES_OPTIONS in options then options[QUEUES_OPTIONS] == Obj(queues) else queues == map[]
    requires Truthy(defaults)
    ensures var r := FlowOptions(flow, Obj(options), defaults);
      r.Obj? && QUEUES_OPTIONS in r.props && r.props[QUEUES_OPTIONS].Obj? &&
      var after := r.props[QUEUES_OPTIONS].props;
      if q in Names(flow) then q in after && after[q] == Stamped(if q in queues then queues[q] else Undefined, defaults)
      else (q in after <==> q in queues) && (q in queues ==> after[q] == queues[q])
  {
    var after := StampAll(queues, Names(flow), defaults);
    assert FlowOptions(flow, Obj(options), defaults) == Obj(options[QUEUES_OPTIONS := Obj(after)]);
  }

  /** Options for a single tree: every queue named in it is stamped, whatever the order of the walk. */
  method WithFlowJobDefaults(flow: Value, flowOptions: Value, defaults: Value) returns (r: Value)
    ensures r == FlowOptions(flow, flowOptions, defaults)
    ensures !Truthy(defaults) ==> r == flowOptions
  {
    if !Truthy(defaults) {
      return flowOptions;
    }
    var options := if Truthy(flowOptions) && IsObject(flowOptions) then flowOptions else Obj(map[]);
    var queuesOptions := CollectQueues(flow, Spread(Prop(options, QUEUES_OPTIONS)), defaults);
    WalkOfTree(flow, Spread(Prop(options, QUEUES_OPTIONS)), defaults);
    r := Obj(Spread(options)[QUEUES_OPTIONS := Obj(queuesOptions)]);
  }

  // ---------- the two paths agree ----------

  lemma {:induction false} NamesOfChild(parent: Value, children: seq<Value>, i: nat)
    requires i < |children| && forall k | 0 <= k < |children| :: children[k] < parent
    ensures Names(children[i]) <= NamesOf(parent, children)
    decreases |children|
  {
    if i > 0 {
      NamesOfChild(parent, children[1..], i - 1);
    }
  }

  /** The walk reaches the queue of every node of the tree. */
  lemma {:induction false} NamesReach(flow: Value, path: seq<nat>)
    ensures At(flow, path).Some? && QueueName(At(flow, path).value).Some? ==>
      QueueName(At(flow, path).value).value in Names(flow)
    decreases |path|
  {
    if path != [] && path[0] < |Children(flow)| {
      NamesReach(Children(flow)[path[0]], path[1..]);
      NamesOfChild(flow, Children(flow), path[0]);
    }
  }

  lemma {:induction false} NamesAreThere(flow: Value, q: Text) returns (path: seq<nat>)
    requires q in Names(flow)
    ensures At(flow, path).Some? && QueueName(At(flow, path).value) == Some(q)
    decreases flow, 1
  {
    if q in Own(flow) {
      path := [];
    } else {
      var i, rest := NamesAreThereBelow(flow, Children(flow), q);
      path := [i] + rest;
    }
  }

  lemma {:induction false} NamesAreThereBelow(parent: Value, children: seq<Value>, q: Text) returns (i: nat, rest: seq<nat>)
    requires forall k | 0 <= k < |children| :: children[k] < parent
    requires q in NamesOf(parent, children)
    ensures i < |children| && At(children[i], rest).Some? && QueueName(At(children[i], rest).value) == Some(q)
    decreases parent, 0, |children|
  {
    if q in Names(children[0]) {
      rest := NamesAreThere(children[0], q);
      i := 0;
    } else {
      i, rest := NamesAreThereBelow(parent, children[1..], q);
      i := i + 1;
    }
  }

  /** The options a job of a single tree ends up with: the defaults of its queue, overridden by its own. */
  function Effective(flowOptions: Value, queue: Text, job: Value): map<Text, Value> {
    Spread(Prop(Prop(Prop(flowOptions, QUEUES_OPTIONS), queue), DEFAULT_JOB_OPTIONS)) + Spread(Prop(job, OPTS))
  }

  /** The caller's own job defaults for a queue. */
  function CallerDefaults(flowOptions: Value, queue: Text): map<Text, Value> {
    Spread(Prop(Lookup(Spread(Prop(flowOptions, QUEUES_OPTIONS)), queue), DEFAULT_JOB_OPTIONS))
  }

  lemma QueueEntry(flow: Value, flowOptions: Value, defaults: Value, queue: Text)
    requires Truthy(defaults) && queue in Names(flow)
    ensures Spread(Prop(Prop(Prop(FlowOptions(flow, flowOptions, defaults), QUEUES_OPTIONS), queue), DEFAULT_JOB_OPTIONS)) ==
              Spread(defaults) + CallerDefaults(flowOptions, queue)
  {
    var options := if IsObject(flowOptions) then flowOptions else Obj(map[]);
    var caller := Spread(Prop(options, QUEUES_OPTIONS));
    var all := StampAll(caller, Names(flow), defaults);
    assert Prop(FlowOptions(flow, flowOptions, defaults), QUEUES_OPTIONS) == Obj(all);
    assert all[queue] == Stamped(Lookup(caller, queue), defaults);
    assert caller == Spread(Prop(flowOptions, QUEUES_OPTIONS));
  }

  lemma EffectiveOptions(flow: Value, flowOptions: Value, defaults: Value, path: seq<nat>)
    requires Truthy(defaults) && At(flow, path).Some? && QueueName(At(flow, path).value).Some?
    ensures var job := At(flow, path).value;
      var queue := QueueName(job).value;
      Effective(FlowOptions(flow, flowOptions, defaults), queue, job) ==
      Spread(defaults) + CallerDefaults(flowOptions, queue) + Spread(Prop(job, OPTS))
  {
    NamesReach(flow, path);
    QueueEntry(flow, flowOptions, defaults, QueueName(At(flow, path).value).value);
  }

  lemma OverridesVanish(d: map<Text, Value>, c: map<Text, Value>, o: map<Text, Value>)
    ensures d + c + o == d + o <==> forall k | k in c :: k in o || (k in d && d[k] == c[k])
  {
    var l, r := d + c + o, d + o;
    if l == r {
      forall k | k in c ensures k in o || (k in d && d[k] == c[k]) {
        assert k in l && k in r && l[k] == r[k];
      }
    }
  }

  /** Both paths give a job the same options exactly when every job default the caller set for its queue is either
      overridden by the job or equal to the node's. */
  lemma PathsAgree(flow: Value, flowOptions: Value, defaults: Value, path: seq<nat>)
    requires Truthy(defaults) && At(flow, path).Some? && QueueName(At(flow, path).value).Some?
    ensures var job := At(flow, path).value;
      var queue := QueueName(job).value;
      At(WithBulkFlowJobDefaults(flow, defaults), path).Some? &&
      (Effective(FlowOptions(flow, flowOptions, defaults), queue, job) ==
         Spread(Prop(At(WithBulkFlowJobDefaults(flow, defaults), path).value, OPTS)) <==>
       forall k | k in CallerDefaults(flowOptions, queue) ::
         k in Spread(Prop(job, OPTS)) ||
         (k in Spread(defaults) && Spread(defaults)[k] == CallerDefaults(flowOptions, queue)[k]))
  {
    EffectiveOptions(flow, flowOptions, defaults, path);
    BulkAt(flow, defaults, path);
    var job := At(flow, path).value;
    BulkOptions(job, defaults);
    OverridesVanish(Spread(defaults), CallerDefaults(flowOptions, QueueName(job).value), Spread(Prop(job, OPTS)));
  }

  /** The documented case: without options of the caller's the two paths always agree. */
  lemma PathsAgreeWithoutCallerOptions(flow: Value, defaults: Value, path: seq<nat>)
    requires Truthy(defaults) && At(flow, path).Some? && QueueName(At(flow, path).value).Some?
    ensures var job := At(flow, path).value;
      At(WithBulkFlowJobDefaults(flow, defaults), path).Some? &&
      Effective(FlowOptions(flow, Undefined, defaults), QueueName(job).value, job) ==
      Spread(Prop(At(WithBulkFlowJobDefaults(flow, defaults), path).value, OPTS))
  {
    PathsAgree(flow, Undefined, defaults, path);
  }
}
