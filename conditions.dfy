/** The condition language of rules: a boolean tree whose leaves compare a
    dotted-path lookup in the evaluation context with a literal. */
module Conditions {
  import opened Json

  datatype LeafOp = Eq | Neq | Gte | Lte | In | HasTag | UnknownOp(name: string)

  /** A condition tree. `Absent` is a null or missing node. */
  datatype Cond =
    | Absent
    | And(nodes: seq<Cond>)
    | Or(nodes: seq<Cond>)
    | Not(node: Cond)
    | Leaf(op: LeafOp, path: string, value: Value)

  /** `s.split('.')`: never empty, and no piece contains a dot. */
  function Split(s: string): (parts: seq<string>)
    ensures |parts| >= 1
    ensures forall i | 0 <= i < |parts| :: '.' !in parts[i]
  {
    if s == [] then [""]
    else if s[0] == '.' then [""] + Split(s[1..])
    else
      var rest := Split(s[1..]);
      assert '.' !in rest[0];
      [[s[0]] + rest[0]] + rest[1..]
  }

  /** `parts.join('.')`. */
  function Join(parts: seq<string>): string
    requires |parts| >= 1
  {
    if |parts| == 1 then parts[0] else parts[0] + "." + Join(parts[1..])
  }

  lemma {:induction false} JoinSplit(s: string)
    ensures Join(Split(s)) == s
  {
    if s != [] {
      JoinSplit(s[1..]);
      if s[0] != '.' {
        var rest := Split(s[1..]);
        if |rest| > 1 {
          assert ([[s[0]] + rest[0]] + rest[1..])[1..] == rest[1..];
        }
      }
    }
  }

  lemma {:induction false} SplitDot(p: string, q: string)
    ensures Split(p + "." + q) == Split(p) + Split(q)
  {
    if p == [] {
      assert (p + "." + q)[1..] == q;
    } else {
      assert (p + "." + q)[1..] == p[1..] + "." + q;
      SplitDot(p[1..], q);
    }
  }

  lemma {:induction false} SplitWithoutDot(p: string)
    requires '.' !in p
    ensures Split(p) == [p]
  {
    if p != [] {
      assert p[0] != '.' && '.' !in p[1..] by { assert p == [p[0]] + p[1..]; }
      SplitWithoutDot(p[1..]);
    }
  }

  lemma {:induction false} SplitJoin(parts: seq<string>)
    requires |parts| >= 1
    requires forall i | 0 <= i < |parts| :: '.' !in parts[i]
    ensures Split(Join(parts)) == parts
  {
    SplitWithoutDot(parts[0]);
    if |parts| > 1 {
      SplitJoin(parts[1..]);
      SplitDot(parts[0], Join(parts[1..]));
    }
  }

  /** One step of the path `reduce`: index a truthy value, else undefined. */
  function Step(o: Value, key: string): Value {
    if Truthy(o) then Get(o, key) else Undefined
  }

  /** `keys.reduce(Step, o)`, left to right. */
  function Walk(o: Value, keys: seq<string>): Value
    decreases |keys|
  {
    if keys == [] then o else Walk(Step(o, keys[0]), keys[1..])
  }

  /** `readPath(obj, path)`: a falsy start reads as undefined whatever the
      path, and a path without a dot is a single property read. */
  function ReadPath(obj: Value, path: string): (r: Value)
    ensures !Truthy(obj) ==> r == Undefined
    ensures '.' !in path ==> r == Step(obj, path)
  {
    if !Truthy(obj) then WalkFromFalsy(obj, Split(path)); Walk(obj, Split(path))
    else if '.' !in path then
      SplitWithoutDot(path);
      assert Walk(obj, [path]) == Walk(Step(obj, path), []);
      Walk(obj, Split(path))
    else Walk(obj, Split(path))
  }

  lemma {:induction false} WalkFromFalsy(o: Value, keys: seq<string>)
    requires !Truthy(o) && keys != []
    ensures Walk(o, keys) == Undefined
    decreases |keys|
  {
    if |keys| > 1 {
      WalkFromFalsy(Undefined, keys[1..]);
    }
  }

  lemma {:induction false} WalkAppend(o: Value, a: seq<string>, b: seq<string>)
    ensures Walk(o, a + b) == Walk(Walk(o, a), b)
    decreases |a|
  {
    if a != [] {
      assert (a + b)[1..] == a[1..] + b;
      WalkAppend(Step(o, a[0]), a[1..], b);
    } else {
      assert a + b == b;
    }
  }

  /** Reading "p.q" is reading q inside the value read at p. */
  lemma ReadPathDot(ctx: Value, p: string, q: string)
    ensures ReadPath(ctx, p + "." + q) == ReadPath(ReadPath(ctx, p), q)
  {
    SplitDot(p, q);
    WalkAppend(ctx, Split(p), Split(q));
  }

  /** Once a prefix of the path reads as a missing or falsy value, the whole
      path reads as undefined. */
  lemma ReadPathThroughFalsy(ctx: Value, p: string, q: string)
    requires !Truthy(ReadPath(ctx, p))
    ensures ReadPath(ctx, p + "." + q) == Undefined
  {
    ReadPathDot(ctx, p, q);
    WalkFromFalsy(ReadPath(ctx, p), Split(q));
  }

  /** A leaf comparison between the looked-up value and the literal. */
  predicate EvalLeaf(op: LeafOp, left: Value, literal: Value) {
    match op
    case Eq => StrictEquals(left, literal)
    case Neq => !StrictEquals(left, literal)
    case Gte =>
      var l, r := ToNumber(left), ToNumber(literal);
      l.Some? && r.Some? && l.value >= r.value
    case Lte =>
      var l, r := ToNumber(left), ToNumber(literal);
      l.Some? && r.Some? && l.value <= r.value
    case In => literal.Arr? && Includes(literal.items, left)
    case HasTag => left.Arr? && Includes(left.items, literal)
    case UnknownOp(_) => false
  }

  /** `evalCondition(node, ctx)`, evaluated sequentially. */
  predicate Eval(c: Cond, ctx: Value)
    decreases c
  {
    match c
    case Absent => true
    case And(ns) => forall i | 0 <= i < |ns| :: Eval(ns[i], ctx)
    case Or(ns) => exists i | 0 <= i < |ns| :: Eval(ns[i], ctx)
    case Not(n) => !Eval(n, ctx)
    case Leaf(op, path, lit) => EvalLeaf(op, ReadPath(ctx, path), lit)
  }

  lemma AbsentHolds(ctx: Value)
    ensures Eval(Absent, ctx)
  {
  }

  lemma AndIsEvery(ns: seq<Cond>, ctx: Value)
    ensures Eval(And(ns), ctx) <==> forall i | 0 <= i < |ns| :: Eval(ns[i], ctx)
    ensures Eval(And([]), ctx)
  {
  }

  lemma OrIsSome(ns: seq<Cond>, ctx: Value)
    ensures Eval(Or(ns), ctx) <==> exists i | 0 <= i < |ns| :: Eval(ns[i], ctx)
    ensures !Eval(Or([]), ctx)
  {
  }

  lemma NotNegates(n: Cond, ctx: Value)
    ensures Eval(Not(n), ctx) <==> !Eval(n, ctx)
  {
  }

  lemma EqNeqComplement(path: string, lit: Value, ctx: Value)
    ensures Eval(Leaf(Neq, path, lit), ctx) <==> !Eval(Leaf(Eq, path, lit), ctx)
  {
  }

  lemma InNeedsListLiteral(path: string, lit: Value, ctx: Value)
    ensures !lit.Arr? ==> !Eval(Leaf(In, path, lit), ctx)
    ensures lit.Arr? ==> (Eval(Leaf(In, path, lit), ctx) <==>
                          exists i | 0 <= i < |lit.items| :: StrictEquals(lit.items[i], ReadPath(ctx, path)))
  {
  }

  lemma HasTagNeedsList(path: string, lit: Value, ctx: Value)
    ensures !ReadPath(ctx, path).Arr? ==> !Eval(Leaf(HasTag, path, lit), ctx)
  {
  }

  lemma UnknownOpIsFalse(name: string, path: string, lit: Value, ctx: Value)
    ensures !Eval(Leaf(UnknownOp(name), path, lit), ctx)
  {
  }

  /** Numeric comparisons with a value that converts to NaN are both
      false. */
  lemma NaNComparesFalse(ctx: Value, path: string, lit: Value)
    requires ToNumber(ReadPath(ctx, path)).None?
    ensures !Eval(Leaf(Gte, path, lit), ctx)
    ensures !Eval(Leaf(Lte, path, lit), ctx)
  {
  }

  /** A key an object does not have reads as undefined. */
  lemma MissingKeyReadsUndefined(ctx: Value, p: string, k: string)
    requires ReadPath(ctx, p).Obj? && '.' !in k && k !in ReadPath(ctx, p).fields
    ensures ReadPath(ctx, p + "." + k) == Undefined
  {
    ReadPathDot(ctx, p, k);
  }

  /** Numeric comparisons against a missing path are both false (NaN),
      whether the path stops at a falsy value or at a missing key. */
  lemma MissingPathComparesFalse(ctx: Value, p: string, q: string, lit: Value)
    requires !Truthy(ReadPath(ctx, p)) || (ReadPath(ctx, p).Obj? && '.' !in q && q !in ReadPath(ctx, p).fields)
    ensures !Eval(Leaf(Gte, p + "." + q, lit), ctx)
    ensures !Eval(Leaf(Lte, p + "." + q, lit), ctx)
  {
    if !Truthy(ReadPath(ctx, p)) {
      ReadPathThroughFalsy(ctx, p, q);
    } else {
      MissingKeyReadsUndefined(ctx, p, q);
    }
    NaNComparesFalse(ctx, p + "." + q, lit);
  }

  /** A string field's `length` reads as its number of UTF-16 units,
      except for the empty string: it is falsy, so the read stops there. */
  lemma StringLengthRead(ctx: Value, p: string, s: string)
    requires ctx.Obj? && '.' !in p && p in ctx.fields && ctx.fields[p] == Str(s)
    ensures ReadPath(ctx, p + "." + "length") == if s == [] then Undefined else Num(Utf16Units(s))
  {
    ReadPathDot(ctx, p, "length");
    assert ReadPath(ctx, p) == Str(s);
    ReadLength(s, "length");
  }

  lemma ReadLength(s: string, k: string)
    requires k == "length"
    ensures ReadPath(Str(s), k) == if s == [] then Undefined else Num(Utf16Units(s))
  {
    assert '.' !in k;
    if s != [] {
      assert Get(Str(s), k) == Num(Utf16Units(s));
    }
  }

  lemma EmojiUnits(s: string)
    requires s == "a\U{1F600}"
    ensures Utf16Units(s) == 3
  {
    assert s == [s[0]] + [s[1]];
    AstralUnits(s[1], []);
    assert [s[1]] + [] == [s[1]];
  }

  /** `length` counts UTF-16 units: a one-letter string followed by an
      emoji has length 3, so a `gte 3` leaf on it holds. */
  lemma AstralLength(ctx: Value, s: string)
    requires s == "a\U{1F600}" && ctx == Obj(map["preset" := Str(s)])
    ensures ReadPath(ctx, "preset.length") == Num(3)
    ensures Eval(Leaf(Gte, "preset.length", Num(3)), ctx)
  {
    var p := "preset";
    assert p + "." + "length" == "preset.length";
    StringLengthRead(ctx, p, s);
    EmojiUnits(s);
  }

  /** The dotted paths the leaves of a condition read. */
  function Paths(c: Cond): set<string>
    decreases c
  {
    match c
    case Absent => {}
    case And(ns) => set i, p | 0 <= i < |ns| && p in Paths(ns[i]) :: p
    case Or(ns) => set i, p | 0 <= i < |ns| && p in Paths(ns[i]) :: p
    case Not(n) => Paths(n)
    case Leaf(_, path, _) => {path}
  }

  /** A condition looks at the context only through the paths of its
      leaves: two contexts that read alike there evaluate it alike. */
  lemma {:induction false} EvalDependsOnPaths(c: Cond, ctx1: Value, ctx2: Value)
    requires forall p | p in Paths(c) :: ReadPath(ctx1, p) == ReadPath(ctx2, p)
    ensures Eval(c, ctx1) == Eval(c, ctx2)
    decreases c
  {
    match c
    case Absent =>
    case And(ns) =>
      forall i | 0 <= i < |ns|
        ensures Eval(ns[i], ctx1) == Eval(ns[i], ctx2)
      {
        assert forall p | p in Paths(ns[i]) :: p in Paths(c);
        EvalDependsOnPaths(ns[i], ctx1, ctx2);
      }
    case Or(ns) =>
      forall i | 0 <= i < |ns|
        ensures Eval(ns[i], ctx1) == Eval(ns[i], ctx2)
      {
        assert forall p | p in Paths(ns[i]) :: p in Paths(c);
        EvalDependsOnPaths(ns[i], ctx1, ctx2);
      }
    case Not(n) =>
      EvalDependsOnPaths(n, ctx1, ctx2);
    case Leaf(_, path, _) =>
      assert path in Paths(c);
  }
}
