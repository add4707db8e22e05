/** Templates and conditions (`rsi_arena/core/template.py`). */
module Template {
  import opened Prelude

  /** What run state holds. `Builtin` is a bare function name used as a value. */
  datatype Value =
    | Null
    | Bool(b: bool)
    | Num(n: real)
    | Text(s: string)
    | List(items: seq<Value>)
    | Dict(entries: map<string, Value>)
    | Builtin(name: string)

  type State = map<string, Value>

  predicate Truthy(v: Value) {
    match v
    case Null => false
    case Bool(b) => b
    case Num(n) => n != 0.0
    case Text(s) => s != ""
    case List(items) => items != []
    case Dict(entries) => entries != map[]
    case Builtin(_) => true
  }

  const FUNCS: set<string> := {
    "len", "str", "int", "float", "bool", "abs", "min", "max", "sum", "any", "all",
    "sorted", "round", "lower"}

  // ---- conditions ----

  datatype Fault =
    | UnknownName(name: string)      // ConditionError
    | Forbidden                      // ConditionError
    | Operation(missingKey: bool)    // raised by the operation itself; missingKey: a KeyError

  type Outcome = Result<Value, Fault>

  datatype BoolOp = And | Or
  datatype UnaryOp = Not | Neg | Plus | Invert
  datatype BinOp = Add | Sub | Mult | Div | FloorDiv | Mod | OtherBin
  datatype CmpOp = Eq | NotEq | Lt | LtE | Gt | GtE | In | NotIn | Is | IsNot

  /** The Python expression tree. `Other` is every node type off the whitelist. */
  datatype Expr =
    | Const(v: Value)
    | Name(id: string)
    | Attribute(value: Expr, attr: string)
    | Subscript(value: Expr, index: Expr)
    | BoolOps(op: BoolOp, values: seq<Expr>)
    | Unary(uop: UnaryOp, operand: Expr)
    | Binary(bop: BinOp, left: Expr, right: Expr)
    | Compare(first: Expr, ops: seq<CmpOp>, comparators: seq<Expr>)
    | Call(func: Expr, args: seq<Expr>, keywords: seq<Expr>)
    | Sequence(elts: seq<Expr>)
    | DictDisplay(flat: seq<Expr>, spreads: seq<Expr>)   // key, value, key, value, ...; `**other` parts
    | Other

  /** Python's operators and functions: any behaviour at all, as long as equal
      arguments give equal results. */
  datatype Python = Python(
    bin: (BinOp, Value, Value) -> Outcome,
    cmp: (CmpOp, Value, Value) -> Result<bool, Fault>,
    neg: Value -> Outcome,
    plus: Value -> Outcome,
    invert: Value -> Outcome,
    attr: (Value, string) -> Outcome,
    index: (Value, Value) -> Outcome,
    call: (string, seq<Value>, seq<Value>) -> Outcome,
    dict: (seq<Value>, seq<Value>) -> Outcome)

  predicate Private(attr: string) {
    attr != "" && attr[0] == '_'
  }

  function Lookup(id: string, state: State): Outcome {
    if id in state then Ok(state[id])
    else if id in FUNCS then Ok(Builtin(id))
    else Err(UnknownName(id))
  }

  function Member(py: Python, v: Value, attr: string): Outcome {
    match v
    case Dict(entries) => Ok(if attr in entries then entries[attr] else Null)
    case _ => py.attr(v, attr)
  }

  function All(vs: seq<Value>): bool {
    forall i :: 0 <= i < |vs| ==> Truthy(vs[i])
  }

  function Any(vs: seq<Value>): bool {
    exists i :: 0 <= i < |vs| && Truthy(vs[i])
  }

  /** `_eval`: every operand of `and`/`or` is evaluated, keywords of a call are
      and `**` parts of a dict are dropped, and unary `+` and `~` return their operand. */
  function Eval(e: Expr, state: State, py: Python): Outcome
    decreases e, 1
  {
    match e
    case Const(v) => Ok(v)
    case Name(id) => Lookup(id, state)
    case Attribute(value, attr) =>
      if Private(attr) then Err(Forbidden)
      else
        var v := Eval(value, state, py);
        if v.Err? then v else Member(py, v.value, attr)
    case Subscript(value, index) =>
      var v := Eval(value, state, py);
      if v.Err? then v
      else
        var i := Eval(index, state, py);
        if i.Err? then i else py.index(v.value, i.value)
    case BoolOps(op, values) =>
      var vs := EvalAll(values, state, py);
      if vs.Err? then Err(vs.error)
      else Ok(Bool(if op == And then All(vs.value) else Any(vs.value)))
    case Unary(op, operand) =>
      var v := Eval(operand, state, py);
      if v.Err? then v
      else if op == Not then Ok(Bool(!Truthy(v.value)))
      else if op == Neg then py.neg(v.value)
      else v
    case Binary(op, left, right) =>
      if op == OtherBin then Err(Forbidden)
      else
        var l := Eval(left, state, py);
        if l.Err? then l
        else
          var r := Eval(right, state, py);
          if r.Err? then r else py.bin(op, l.value, r.value)
    case Compare(first, ops, comparators) =>
      var l := Eval(first, state, py);
      if l.Err? then l else EvalChain(l.value, ops, comparators, state, py)
    case Call(func, args, keywords) =>
      if !func.Name? || func.id !in FUNCS then Err(Forbidden)
      else
        var vs := EvalAll(args, state, py);
        if vs.Err? then Err(vs.error) else py.call(func.id, vs.value, [])
    case Sequence(elts) =>
      var vs := EvalAll(elts, state, py);
      if vs.Err? then Err(vs.error) else Ok(List(vs.value))
    case DictDisplay(flat, _) =>
      var vs := EvalAll(flat, state, py);
      if vs.Err? then Err(vs.error) else py.dict(vs.value, [])
    case Other => Err(Forbidden)
  }

  function EvalAll(es: seq<Expr>, state: State, py: Python): (r: Result<seq<Value>, Fault>)
    ensures r.Ok? ==> |r.value| == |es|
    decreases es, 0
  {
    if es == [] then Ok([])
    else
      var v := Eval(es[0], state, py);
      if v.Err? then Err(v.error)
      else
        var vs := EvalAll(es[1..], state, py);
        if vs.Err? then vs else Ok([v.value] + vs.value)
  }

  /** The comparison loop: `left` is the value the next comparator meets. */
  function EvalChain(left: Value, ops: seq<CmpOp>, es: seq<Expr>, state: State, py: Python): Outcome
    decreases es, 0
  {
    if ops == [] || es == [] then Ok(Bool(true))
    else
      var r := Eval(es[0], state, py);
      if r.Err? then r
      else
        var c := py.cmp(ops[0], left, r.value);
        if c.Err? then Err(c.error)
        else if !c.value then Ok(Bool(false))
        else EvalChain(r.value, ops[1..], es[1..], state, py)
  }

  /** Nothing else is false. */
  lemma TruthyIs(v: Value)
    ensures Truthy(v) <==>
            v != Null && v != Bool(false) && v != Num(0.0) && v != Text("") && v != List([]) && v != Dict(map[])
  {
  }

  /** An attribute with a leading underscore is refused whatever it is of; of a
      dict it is the entry, and null where there is none. */
  lemma AttributeIs(value: Expr, attr: string, state: State, py: Python)
    ensures var r := Eval(Attribute(value, attr), state, py);
            if "_" <= attr then r == Err(Forbidden)
            else match Eval(value, state, py)
                 case Err(fault) => r == Err(fault)
                 case Ok(Dict(entries)) =>
                   && (attr in entries ==> r == Ok(entries[attr]))
                   && (attr !in entries ==> r == Ok(Null))
                 case Ok(v) => r == py.attr(v, attr)
  {
    assert "_" <= attr <==> attr != "" && attr[0] == '_';
  }

  // ---- what a condition depends on ----

  /** The names looked up in state. The function name of a call is not one. */
  function FreeNames(e: Expr): set<string>
    decreases e, 1
  {
    match e
    case Const(_) => {}
    case Name(id) => {id}
    case Attribute(value, attr) => if Private(attr) then {} else FreeNames(value)
    case Subscript(value, index) => FreeNames(value) + FreeNames(index)
    case BoolOps(_, values) => FreeNamesAll(values)
    case Unary(_, operand) => FreeNames(operand)
    case Binary(op, left, right) => if op == OtherBin then {} else FreeNames(left) + FreeNames(right)
    case Compare(first, _, comparators) => FreeNames(first) + FreeNamesAll(comparators)
    case Call(func, args, _) => if func.Name? && func.id in FUNCS then FreeNamesAll(args) else {}
    case Sequence(elts) => FreeNamesAll(elts)
    case DictDisplay(flat, _) => FreeNamesAll(flat)
    case Other => {}
  }

  function FreeNamesAll(es: seq<Expr>): set<string>
    decreases es, 0
  {
    if es == [] then {} else FreeNames(es[0]) + FreeNamesAll(es[1..])
  }

  predicate AgreeOn(names: set<string>, s: State, t: State) {
    forall n :: n in names ==> (n in s <==> n in t) && (n in s && n in t ==> s[n] == t[n])
  }

  /** A condition sees nothing of state but its free names. */
  lemma {:induction false} EvalFrame(e: Expr, s: State, t: State, py: Python)
    requires AgreeOn(FreeNames(e), s, t)
    ensures Eval(e, s, py) == Eval(e, t, py)
    decreases e, 1
  {
    match e
    case Attribute(value, attr) => if !Private(attr) { EvalFrame(value, s, t, py); }
    case Subscript(value, index) => EvalFrame(value, s, t, py); EvalFrame(index, s, t, py);
    case BoolOps(_, values) => EvalAllFrame(values, s, t, py);
    case Unary(_, operand) => EvalFrame(operand, s, t, py);
    case Binary(op, left, right) =>
      if op != OtherBin { EvalFrame(left, s, t, py); EvalFrame(right, s, t, py); }
    case Compare(first, ops, comparators) =>
      EvalFrame(first, s, t, py);
      var l := Eval(first, s, py);
      if l.Ok? { EvalChainFrame(l.value, ops, comparators, s, t, py); }
    case Call(func, args, _) =>
      if func.Name? && func.id in FUNCS { EvalAllFrame(args, s, t, py); }
    case Sequence(elts) => EvalAllFrame(elts, s, t, py);
    case DictDisplay(flat, _) => EvalAllFrame(flat, s, t, py);
    case Const(_) =>
    case Name(_) =>
    case Other =>
  }

  lemma {:induction false} EvalAllFrame(es: seq<Expr>, s: State, t: State, py: Python)
    requires AgreeOn(FreeNamesAll(es), s, t)
    ensures EvalAll(es, s, py) == EvalAll(es, t, py)
    decreases es, 0
  {
    if es != [] { EvalFrame(es[0], s, t, py); EvalAllFrame(es[1..], s, t, py); }
  }

  lemma {:induction false} EvalChainFrame(
    left: Value, ops: seq<CmpOp>, es: seq<Expr>, s: State, t: State, py: Python)
    requires AgreeOn(FreeNamesAll(es), s, t)
    ensures EvalChain(left, ops, es, s, py) == EvalChain(left, ops, es, t, py)
    decreases es, 0
  {
    if ops != [] && es != [] {
      EvalFrame(es[0], s, t, py);
      var r := Eval(es[0], s, py);
      if r.Ok? { EvalChainFrame(r.value, ops[1..], es[1..], s, t, py); }
    }
  }

  /** An unknown name that a condition fails on is one of its free names, and is
      neither in state nor a function. */
  lemma {:induction false} UnknownIsFree(e: Expr, s: State, py: Python)
    requires Operational(py)
    ensures var r := Eval(e, s, py);
            r.Err? && r.error.UnknownName? ==> r.error.name in FreeNames(e) - s.Keys - FUNCS
    decreases e, 1
  {
    match e
    case Attribute(value, attr) => if !Private(attr) { UnknownIsFree(value, s, py); }
    case Subscript(value, index) => UnknownIsFree(value, s, py); UnknownIsFree(index, s, py);
    case BoolOps(_, values) => UnknownAll(values, s, py);
    case Unary(_, operand) => UnknownIsFree(operand, s, py);
    case Binary(op, left, right) =>
      if op != OtherBin { UnknownIsFree(left, s, py); UnknownIsFree(right, s, py); }
    case Compare(first, ops, comparators) =>
      UnknownIsFree(first, s, py);
      var l := Eval(first, s, py);
      if l.Ok? { UnknownChain(l.value, ops, comparators, s, py); }
    case Call(func, args, _) =>
      if func.Name? && func.id in FUNCS { UnknownAll(args, s, py); }
    case Sequence(elts) => UnknownAll(elts, s, py);
    case DictDisplay(flat, _) => UnknownAll(flat, s, py);
    case Const(_) =>
    case Name(_) =>
    case Other =>
  }

  lemma {:induction false} UnknownAll(es: seq<Expr>, s: State, py: Python)
    requires Operational(py)
    ensures var r := EvalAll(es, s, py);
            r.Err? && r.error.UnknownName? ==> r.error.name in FreeNamesAll(es) - s.Keys - FUNCS
    decreases es, 0
  {
    if es != [] { UnknownIsFree(es[0], s, py); UnknownAll(es[1..], s, py); }
  }

  lemma {:induction false} UnknownChain(left: Value, ops: seq<CmpOp>, es: seq<Expr>, s: State, py: Python)
    requires Operational(py)
    ensures var r := EvalChain(left, ops, es, s, py);
            r.Err? && r.error.UnknownName? ==> r.error.name in FreeNamesAll(es) - s.Keys - FUNCS
    decreases es, 0
  {
    if ops != [] && es != [] {
      UnknownIsFree(es[0], s, py);
      var r := Eval(es[0], s, py);
      if r.Ok? { UnknownChain(r.value, ops[1..], es[1..], s, py); }
    }
  }

  /** Python's own operations never raise the evaluator's unknown-name error. */
  ghost predicate Operational(py: Python) {
    && (forall o, a, b :: py.bin(o, a, b).Err? ==> py.bin(o, a, b).error.Operation?)
    && (forall o, a, b :: py.cmp(o, a, b).Err? ==> py.cmp(o, a, b).error.Operation?)
    && (forall a :: py.neg(a).Err? ==> py.neg(a).error.Operation?)
    && (forall a, n :: py.attr(a, n).Err? ==> py.attr(a, n).error.Operation?)
    && (forall a, b :: py.index(a, b).Err? ==> py.index(a, b).error.Operation?)
    && (forall f, a, k :: py.call(f, a, k).Err? ==> py.call(f, a, k).error.Operation?)
    && (forall vs, ws :: py.dict(vs, ws).Err? ==> py.dict(vs, ws).error.Operation?)
  }

  // ---- Python's own meaning ----

  /** Python's evaluation: `and`/`or` stop early and return the operand they
      stopped at, unary `+` and `~` act, keywords are passed. */
  function Ref(e: Expr, state: State, py: Python): Outcome
    decreases e, 1
  {
    match e
    case Const(v) => Ok(v)
    case Name(id) => Lookup(id, state)
    case Attribute(value, attr) =>
      if Private(attr) then Err(Forbidden)
      else
        var v := Ref(value, state, py);
        if v.Err? then v else Member(py, v.value, attr)
    case Subscript(value, index) =>
      var v := Ref(value, state, py);
      if v.Err? then v
      else
        var i := Ref(index, state, py);
        if i.Err? then i else py.index(v.value, i.value)
    case BoolOps(op, values) => RefShort(op, values, state, py)
    case Unary(op, operand) =>
      var v := Ref(operand, state, py);
      if v.Err? then v
      else (match op
        case Not => Ok(Bool(!Truthy(v.value)))
        case Neg => py.neg(v.value)
        case Plus => py.plus(v.value)
        case Invert => py.invert(v.value))
    case Binary(op, left, right) =>
      if op == OtherBin then Err(Forbidden)
      else
        var l := Ref(left, state, py);
        if l.Err? then l
        else
          var r := Ref(right, state, py);
          if r.Err? then r else py.bin(op, l.value, r.value)
    case Compare(first, ops, comparators) =>
      var l := Ref(first, state, py);
      if l.Err? then l else RefChain(l.value, ops, comparators, state, py)
    case Call(func, args, keywords) =>
      if !func.Name? || func.id !in FUNCS then Err(Forbidden)
      else
        var vs := RefAll(args, state, py);
        if vs.Err? then Err(vs.error)
        else
          var ks := RefAll(keywords, state, py);
          if ks.Err? then Err(ks.error) else py.call(func.id, vs.value, ks.value)
    case Sequence(elts) =>
      var vs := RefAll(elts, state, py);
      if vs.Err? then Err(vs.error) else Ok(List(vs.value))
    case DictDisplay(flat, spreads) =>
      var vs := RefAll(flat, state, py);
      if vs.Err? then Err(vs.error)
      else
        var ws := RefAll(spreads, state, py);
        if ws.Err? then Err(ws.error) else py.dict(vs.value, ws.value)
    case Other => Err(Forbidden)
  }

  function RefShort(op: BoolOp, es: seq<Expr>, state: State, py: Python): Outcome
    decreases es, 0
  {
    if es == [] then Ok(Bool(op == And))
    else
      var v := Ref(es[0], state, py);
      if v.Err? || |es| == 1 || Truthy(v.value) == (op == Or) then v
      else RefShort(op, es[1..], state, py)
  }

  function RefAll(es: seq<Expr>, state: State, py: Python): Result<seq<Value>, Fault>
    decreases es, 0
  {
    if es == [] then Ok([])
    else
      var v := Ref(es[0], state, py);
      if v.Err? then Err(v.error)
      else
        var vs := RefAll(es[1..], state, py);
        if vs.Err? then vs else Ok([v.value] + vs.value)
  }

  function RefChain(left: Value, ops: seq<CmpOp>, es: seq<Expr>, state: State, py: Python): Outcome
    decreases es, 0
  {
    if ops == [] || es == [] then Ok(Bool(true))
    else
      var r := Ref(es[0], state, py);
      if r.Err? then r
      else
        var c := py.cmp(ops[0], left, r.value);
        if c.Err? then Err(c.error)
        else if !c.value then Ok(Bool(false))
        else RefChain(r.value, ops[1..], es[1..], state, py)
  }

  /** The fragment on which the evaluator keeps Python's meaning: `and`/`or`
      only where a truth value is wanted, no unary `+` or `~`, no keywords, no `**`. */
  predicate Plain(e: Expr, truthWanted: bool)
    decreases e, 1
  {
    match e
    case Const(_) => true
    case Name(_) => true
    case Attribute(value, _) => Plain(value, false)
    case Subscript(value, index) => Plain(value, false) && Plain(index, false)
    case BoolOps(_, values) => truthWanted && PlainAll(values, true)
    case Unary(op, operand) => (op == Not && Plain(operand, true)) || (op == Neg && Plain(operand, false))
    case Binary(_, left, right) => Plain(left, false) && Plain(right, false)
    case Compare(first, _, comparators) => Plain(first, false) && PlainAll(comparators, false)
    case Call(_, args, keywords) => keywords == [] && PlainAll(args, false)
    case Sequence(elts) => PlainAll(elts, false)
    case DictDisplay(flat, spreads) => spreads == [] && PlainAll(flat, false)
    case Other => true
  }

  predicate PlainAll(es: seq<Expr>, truthWanted: bool)
    decreases es, 0
  {
    es == [] || (Plain(es[0], truthWanted) && PlainAll(es[1..], truthWanted))
  }

  /** Whenever the eager evaluation succeeds on the fragment, Python's succeeds
      too and is true or false with it; where no truth value is wanted the two
      give the same value. */
  lemma {:induction false} EvalMeansPython(e: Expr, truthWanted: bool, s: State, py: Python)
    requires Plain(e, truthWanted) && Eval(e, s, py).Ok?
    ensures Ref(e, s, py).Ok?
    ensures Truthy(Ref(e, s, py).value) == Truthy(Eval(e, s, py).value)
    ensures !truthWanted ==> Ref(e, s, py) == Eval(e, s, py)
    decreases e, 1
  {
    match e
    case Attribute(value, attr) => EvalMeansPython(value, false, s, py);
    case Subscript(value, index) =>
      EvalMeansPython(value, false, s, py);
      EvalMeansPython(index, false, s, py);
    case BoolOps(op, values) => ShortCircuit(op, values, s, py);
    case Unary(op, operand) => EvalMeansPython(operand, op == Not, s, py);
    case Binary(op, left, right) =>
      EvalMeansPython(left, false, s, py);
      EvalMeansPython(right, false, s, py);
    case Compare(first, ops, comparators) =>
      EvalMeansPython(first, false, s, py);
      ChainMeansPython(Eval(first, s, py).value, ops, comparators, s, py);
    case Call(func, args, _) => AllMeansPython(args, s, py);
    case Sequence(elts) => AllMeansPython(elts, s, py);
    case DictDisplay(flat, _) => AllMeansPython(flat, s, py);
    case Const(_) =>
    case Name(_) =>
    case Other =>
  }

  lemma {:induction false} ShortCircuit(op: BoolOp, es: seq<Expr>, s: State, py: Python)
    requires PlainAll(es, true) && EvalAll(es, s, py).Ok?
    ensures RefShort(op, es, s, py).Ok?
    ensures var vs := EvalAll(es, s, py).value;
            Truthy(RefShort(op, es, s, py).value) == (if op == And then All(vs) else Any(vs))
    decreases es, 0
  {
    if es != [] {
      EvalMeansPython(es[0], true, s, py);
      ShortCircuit(op, es[1..], s, py);
      var vs, rest := EvalAll(es, s, py).value, EvalAll(es[1..], s, py).value;
      assert vs == [vs[0]] + rest;
      if All(rest) && Truthy(vs[0]) {
        forall i | 0 <= i < |vs| ensures Truthy(vs[i]) { if i > 0 { assert vs[i] == rest[i - 1]; } }
      }
      if All(vs) { forall i | 0 <= i < |rest| ensures Truthy(rest[i]) { assert rest[i] == vs[i + 1]; } }
      if i :| 0 <= i < |rest| && Truthy(rest[i]) { assert Truthy(vs[i + 1]); }
      if i :| 0 <= i < |vs| && Truthy(vs[i]) { if i > 0 { assert Truthy(rest[i - 1]); } }
    }
  }

  lemma {:induction false} AllMeansPython(es: seq<Expr>, s: State, py: Python)
    requires PlainAll(es, false) && EvalAll(es, s, py).Ok?
    ensures RefAll(es, s, py) == EvalAll(es, s, py)
    decreases es, 0
  {
    if es != [] { EvalMeansPython(es[0], false, s, py); AllMeansPython(es[1..], s, py); }
  }

  lemma {:induction false} ChainMeansPython(
    left: Value, ops: seq<CmpOp>, es: seq<Expr>, s: State, py: Python)
    requires PlainAll(es, false) && EvalChain(left, ops, es, s, py).Ok?
    ensures RefChain(left, ops, es, s, py) == EvalChain(left, ops, es, s, py)
    decreases es, 0
  {
    if ops != [] && es != [] {
      EvalMeansPython(es[0], false, s, py);
      var r := Eval(es[0], s, py).value;
      if py.cmp(ops[0], left, r).value { ChainMeansPython(r, ops[1..], es[1..], s, py); }
    }
  }

  /** Off the fragment it does not: `(2 or 3) == 2` is true in Python, and the
      evaluator compares `True` with 2. */
  lemma OrAsValueDiffers(py: Python)
    requires py.cmp(Eq, Num(2.0), Num(2.0)) == Ok(true)
    requires py.cmp(Eq, Bool(true), Num(2.0)) == Ok(false)
    ensures var e := Compare(BoolOps(Or, [Const(Num(2.0)), Const(Num(3.0))]), [Eq], [Const(Num(2.0))]);
            Ref(e, map[], py) == Ok(Bool(true)) && Eval(e, map[], py) == Ok(Bool(false))
  {
    var two, three := Const(Num(2.0)), Const(Num(3.0));
    assert [two, three][1..] == [three] && [three][1..] == [];
    assert [Num(3.0)] + [] == [Num(3.0)] && [Num(2.0)] + [Num(3.0)] == [Num(2.0), Num(3.0)];
    assert EvalAll([three], map[], py) == Ok([Num(3.0)]);
    assert EvalAll([two, three], map[], py) == Ok([Num(2.0), Num(3.0)]);
    assert Truthy([Num(2.0), Num(3.0)][0]);
    assert EvalChain(Bool(true), [Eq], [two], map[], py) == Ok(Bool(false));
    assert RefShort(Or, [two, three], map[], py) == Ok(Num(2.0));
    assert [Eq][1..] == [] && [two][1..] == [];
  }

  // ---- chained comparisons ----

  /** `a < b < c` as the comparisons it abbreviates: `a < b`, `b < c`. */
  function Pairs(first: Expr, ops: seq<CmpOp>, es: seq<Expr>): seq<Expr>
    requires |ops| == |es|
    decreases es
  {
    if es == [] then []
    else [Compare(first, [ops[0]], [es[0]])] + Pairs(es[0], ops[1..], es[1..])
  }

  /** Evaluates left to right and stops at the first failure or false value. */
  function Conjunction(es: seq<Expr>, state: State, py: Python): Outcome {
    if es == [] then Ok(Bool(true))
    else
      var v := Eval(es[0], state, py);
      if v.Err? then v
      else if !Truthy(v.value) then Ok(Bool(false))
      else Conjunction(es[1..], state, py)
  }

  lemma OneLink(left: Value, ops: seq<CmpOp>, es: seq<Expr>, s: State, py: Python)
    requires |ops| == |es| > 0
    ensures EvalChain(left, ops, es, s, py) ==
              var r := Eval(es[0], s, py);
              if r.Err? then r
              else
                var c := py.cmp(ops[0], left, r.value);
                if c.Err? then Err(c.error)
                else if !c.value then Ok(Bool(false))
                else EvalChain(r.value, ops[1..], es[1..], s, py)
  {
  }

  /** A chained comparison is the conjunction of its adjacent pairs, failures
      included. */
  lemma {:induction false} ChainIsConjunction(
    first: Expr, ops: seq<CmpOp>, es: seq<Expr>, s: State, py: Python)
    requires |ops| == |es| > 0
    ensures Eval(Compare(first, ops, es), s, py) == Conjunction(Pairs(first, ops, es), s, py)
    decreases |es|
  {
    var head := Compare(first, [ops[0]], [es[0]]);
    var rest := Pairs(es[0], ops[1..], es[1..]);
    assert Pairs(first, ops, es)[0] == head && Pairs(first, ops, es)[1..] == rest;
    assert [ops[0]][1..] == [] && [es[0]][1..] == [];
    var l, r := Eval(first, s, py), Eval(es[0], s, py);
    if l.Ok? {
      OneLink(l.value, ops, es, s, py);
      OneLink(l.value, [ops[0]], [es[0]], s, py);
      if |es| > 1 && r.Ok? {
        ChainIsConjunction(es[0], ops[1..], es[1..], s, py);
      }
    }
  }

  // ---- templates ----

  /** A dotted path; the pattern gives every path at least one part. */
  type Path = p: seq<string> | |p| > 0 witness ["x"]

  datatype Piece = Plaintext(text: string) | Hole(path: Path)

  type Pattern = seq<Piece>

  /** `hasattr`/`getattr` on values that are neither dicts nor indexed lists. */
  type Attributes = (Value, string) -> Option<Value>

  /** One part of a path. */
  function Descend(v: Value, part: string, attrs: Attributes): Option<Value> {
    if v.Dict? then
      if part in v.entries then Some(v.entries[part]) else None
    else if v.List? && part != "" && AllDigits(part) then
      var i := ToNat(part);
      if i < |v.items| then Some(v.items[i]) else None
    else attrs(v, part)
  }

  function Walk(v: Value, parts: seq<string>, attrs: Attributes): Option<Value>
    decreases parts
  {
    if parts == [] then Some(v)
    else
      var next := Descend(v, parts[0], attrs);
      if next.None? then None else Walk(next.value, parts[1..], attrs)
  }

  function Find(path: Path, state: State, attrs: Attributes): Option<Value> {
    Walk(Dict(state), path, attrs)
  }

  /** The walk of `resolve`, part by part. */
  method Resolve(path: Path, state: State, attrs: Attributes) returns (r: Option<Value>)
    ensures r == Find(path, state, attrs)
    ensures path[0] !in state ==> r.None?
  {
    var value := Dict(state);
    var i := 0;
    while i < |path|
      invariant 0 <= i <= |path|
      invariant Find(path, state, attrs) == Walk(value, path[i..], attrs)
      invariant i == 0 ==> value == Dict(state)
      invariant i > 0 ==> path[0] in state
    {
      assert path[i..][1..] == path[i + 1..];
      var next := Descend(value, path[i], attrs);
      if next.None? {
        return None;
      }
      value := next.value;
      i := i + 1;
    }
    return Some(value);
  }

  /** The last part of a path: a key of a dict, a number in a list, and an
      attribute of anything else, or of a list where it is no number. */
  lemma PartIs(v: Value, part: string, attrs: Attributes)
    ensures var r := Walk(v, [part], attrs);
            match v
            case Dict(entries) => r == if part in entries then Some(entries[part]) else None
            case List(items) =>
              if part == "" || exists i :: 0 <= i < |part| && !('0' <= part[i] <= '9') then r == attrs(v, part)
              else r == if ToNat(part) < |items| then Some(items[ToNat(part)]) else None
            case _ => r == attrs(v, part)
  {
    assert [part][1..] == [];
    var next := Descend(v, part, attrs);
    assert next.Some? ==> Walk(next.value, [part][1..], attrs) == next;
  }

  /** And a longer path goes on from there. */
  lemma {:induction false} WalkConcat(v: Value, a: seq<string>, b: seq<string>, attrs: Attributes)
    ensures Walk(v, a + b, attrs) ==
            match Walk(v, a, attrs)
            case None => None
            case Some(u) => Walk(u, b, attrs)
    decreases a
  {
    if a == [] {
      assert a + b == b;
    } else {
      assert (a + b)[1..] == a[1..] + b;
      var next := Descend(v, a[0], attrs);
      if next.Some? { WalkConcat(next.value, a[1..], b, attrs); }
    }
  }

  /** `reads`: the root name of every placeholder. */
  function Roots(t: Pattern): set<string> {
    set i | 0 <= i < |t| && t[i].Hole? :: t[i].path[0]
  }

  /** `render` in strict mode; an error carries the path that was not found. */
  function Render(t: Pattern, state: State, show: Value -> string, attrs: Attributes): Result<string, Path> {
    if t == [] then Ok("")
    else
      var piece := match t[0]
        case Plaintext(text) => Ok(text)
        case Hole(path) =>
          var v := Find(path, state, attrs);
          if v.None? then Err(path) else Ok(show(v.value));
      if piece.Err? then piece
      else
        var rest := Render(t[1..], state, show, attrs);
        if rest.Err? then rest else Ok(piece.value + rest.value)
  }

  /** Rendering fails exactly when some placeholder does not resolve. */
  lemma {:induction false} RenderSucceedsIff(t: Pattern, state: State, show: Value -> string, attrs: Attributes)
    ensures Render(t, state, show, attrs).Ok? <==>
            forall i :: 0 <= i < |t| && t[i].Hole? ==> Find(t[i].path, state, attrs).Some?
  {
    if t != [] {
      RenderSucceedsIff(t[1..], state, show, attrs);
      assert t == [t[0]] + t[1..];
      if Render(t, state, show, attrs).Ok? {
        forall i | 0 <= i < |t| && t[i].Hole? ensures Find(t[i].path, state, attrs).Some? {
          if i > 0 { assert t[i] == t[1..][i - 1]; }
        }
      }
      if forall i :: 0 <= i < |t| && t[i].Hole? ==> Find(t[i].path, state, attrs).Some? {
        forall i | 0 <= i < |t[1..]| && t[1..][i].Hole?
          ensures Find(t[1..][i].path, state, attrs).Some?
        {
          assert t[1..][i] == t[i + 1];
        }
      }
    }
  }

  /** Text is rendered as it is, a placeholder as the string of its value. */
  lemma RenderPiece(text: string, path: Path, state: State, show: Value -> string, attrs: Attributes)
    ensures Render([Plaintext(text)], state, show, attrs) == Ok(text)
    ensures Render([Hole(path)], state, show, attrs) ==
            match Find(path, state, attrs)
            case None => Err(path)
            case Some(v) => Ok(show(v))
  {
    assert [Plaintext(text)][1..] == [] && [Hole(path)][1..] == [];
    assert text + "" == text;
    assert forall v :: show(v) + "" == show(v);
  }

  /** The first of two results that failed, or both texts. */
  function Joined(x: Result<string, Path>, y: Result<string, Path>): Result<string, Path> {
    if x.Err? then x else if y.Err? then y else Ok(x.value + y.value)
  }

  lemma RenderCons(piece: Piece, rest: Pattern, state: State, show: Value -> string, attrs: Attributes)
    ensures Render([piece] + rest, state, show, attrs) ==
            Joined(Render([piece], state, show, attrs), Render(rest, state, show, attrs))
  {
    assert ([piece] + rest)[1..] == rest && [piece][1..] == [];
    match piece
    case Plaintext(text) => RenderPiece(text, ["x"], state, show, attrs);
    case Hole(path) => RenderPiece("", path, state, show, attrs);
  }

  /** A template is rendered piece by piece, up to the first that fails. */
  lemma {:induction false} RenderConcat(
    a: Pattern, b: Pattern, state: State, show: Value -> string, attrs: Attributes)
    ensures Render(a + b, state, show, attrs) ==
            Joined(Render(a, state, show, attrs), Render(b, state, show, attrs))
  {
    if a == [] {
      assert a + b == b;
      NothingRenders(state, show, attrs);
      assert forall y: string :: "" + y == y;
    } else {
      hide Render;
      RenderConcat(a[1..], b, state, show, attrs);
      RenderCons(a[0], a[1..], state, show, attrs);
      RenderCons(a[0], a[1..] + b, state, show, attrs);
      assert a == [a[0]] + a[1..] && a + b == [a[0]] + (a[1..] + b);
      var x, y := Render([a[0]], state, show, attrs), Render(a[1..], state, show, attrs);
      var z := Render(b, state, show, attrs);
      if x.Ok? && y.Ok? && z.Ok? { assert (x.value + y.value) + z.value == x.value + (y.value + z.value); }
    }
  }

  lemma NothingRenders(state: State, show: Value -> string, attrs: Attributes)
    ensures Render([], state, show, attrs) == Ok("")
  {
  }

  /** A template with a root that state lacks never renders. */
  lemma MissingRootFails(t: Pattern, state: State, show: Value -> string, attrs: Attributes, root: string)
    requires root in Roots(t) && root !in state
    ensures Render(t, state, show, attrs).Err?
  {
    var i :| 0 <= i < |t| && t[i].Hole? && t[i].path[0] == root;
    assert Find(t[i].path, state, attrs).None?;
    RenderSucceedsIff(t, state, show, attrs);
  }

  /** When every root is present, a failure is never about a root: the path
      that was not found starts in state and breaks further down. */
  lemma {:induction false} PresentRootsFailDeeper(
    t: Pattern, state: State, show: Value -> string, attrs: Attributes)
    requires Roots(t) <= state.Keys
    ensures var r := Render(t, state, show, attrs); r.Err? ==> r.error[0] in state && |r.error| > 1
  {
    if t != [] {
      forall i | 0 <= i < |t[1..]| && t[1..][i].Hole? ensures t[1..][i].path[0] in Roots(t) {
        assert t[1..][i] == t[i + 1];
      }
      PresentRootsFailDeeper(t[1..], state, show, attrs);
      if t[0].Hole? {
        var path := t[0].path;
        assert path[0] in Roots(t);
        assert Find(path, state, attrs) == Walk(state[path[0]], path[1..], attrs);
      }
    }
  }

  /** Rendering depends on state only through the roots it reads. */
  lemma {:induction false} RenderFrame(
    t: Pattern, s: State, u: State, show: Value -> string, attrs: Attributes)
    requires AgreeOn(Roots(t), s, u)
    ensures Render(t, s, show, attrs) == Render(t, u, show, attrs)
  {
    if t != [] {
      forall i | 0 <= i < |t[1..]| && t[1..][i].Hole? ensures t[1..][i].path[0] in Roots(t) {
        assert t[1..][i] == t[i + 1];
      }
      RenderFrame(t[1..], s, u, show, attrs);
      if t[0].Hole? { assert t[0].path[0] in Roots(t); }
    }
  }
}
