/** Rule selection: the active rules of a game for a trigger, the ones whose
    condition holds, ordered by specificity, then priority, then creation. */
module Rules {
  import opened EngineTypes
  import opened Json
  import opened Conditions
  import opened Store

  /** A rule as the engine uses it, with defaults filled in. */
  datatype Rule = Rule(
    id: Id, scope: string, trigger: Trigger, conditions: Cond,
    effects: seq<Effect>, priority: int, specificity: int, enabled: bool)

  predicate IsActive(row: RuleRow, gameId: Id, trigger: Trigger) {
    row.gameId == gameId && row.enabled && row.trigger == trigger
  }

  /** The rows the query selects, in table (creation) order. */
  function ActiveRows(rows: seq<RuleRow>, gameId: Id, trigger: Trigger): (r: seq<RuleRow>)
    ensures forall row :: row in r <==> row in rows && IsActive(row, gameId, trigger)
  {
    if rows == [] then []
    else
      var rest := ActiveRows(rows[1..], gameId, trigger);
      if IsActive(rows[0], gameId, trigger) then [rows[0]] + rest else rest
  }

  predicate CreationOrdered(rows: seq<RuleRow>) {
    forall i, j | 0 <= i < j < |rows| :: rows[i].createdAt <= rows[j].createdAt
  }

  /** The selected rows come out in ascending creation time. */
  lemma {:induction false} ActiveRowsCreationOrdered(rows: seq<RuleRow>, gameId: Id, trigger: Trigger)
    requires CreationOrdered(rows)
    ensures CreationOrdered(ActiveRows(rows, gameId, trigger))
  {
    if rows != [] {
      ActiveRowsCreationOrdered(rows[1..], gameId, trigger);
      var rest := ActiveRows(rows[1..], gameId, trigger);
      forall j | 0 <= j < |rest|
        ensures rows[0].createdAt <= rest[j].createdAt
      {
        assert rest[j] in rows[1..];
      }
    }
  }

  /** The effect column as a list: a single effect is wrapped. */
  function EffectsAsList(stored: StoredEffects): seq<Effect> {
    match stored
    case EffectList(items) => items
    case SingleEffect(item) => [item]
  }

  /** One row mapped to a rule: null conditions stay absent, priority and
      specificity default to 0. */
  function Normalise(row: RuleRow): Rule {
    Rule(row.id, row.scope, row.trigger, row.conditions, EffectsAsList(row.effects),
         row.priority.GetOr(0), row.specificity.GetOr(0), row.enabled)
  }

  /** `fetchActiveRules(gameId, trigger)`. */
  function FetchActiveRules(rows: seq<RuleRow>, gameId: Id, trigger: Trigger): (r: seq<Rule>)
    ensures |r| == |ActiveRows(rows, gameId, trigger)|
  {
    var active := ActiveRows(rows, gameId, trigger);
    seq(|active|, i requires 0 <= i < |active| => Normalise(active[i]))
  }

  /** Each fetched rule comes from an enabled row of the game for the
      trigger, and carries its effects as a list and its priority and
      specificity with 0 for null. */
  lemma FetchedRulesAreNormalised(rows: seq<RuleRow>, gameId: Id, trigger: Trigger, i: nat)
    requires i < |FetchActiveRules(rows, gameId, trigger)|
    ensures var r := FetchActiveRules(rows, gameId, trigger)[i];
            var row := ActiveRows(rows, gameId, trigger)[i];
            && row in rows && row.gameId == gameId && row.enabled
            && r.id == row.id && r.trigger == trigger && r.enabled
            && r.effects == (if row.effects.EffectList? then row.effects.items else [row.effects.item])
            && r.priority == (if row.priority.Some? then row.priority.value else 0)
            && r.specificity == (if row.specificity.Some? then row.specificity.value else 0)
  {
    var active := ActiveRows(rows, gameId, trigger);
    assert active[i] in active;
  }

  /** The sort comparator: negative when `a` goes first. */
  function Compare(a: Rule, b: Rule): int {
    if b.specificity != a.specificity then b.specificity - a.specificity
    else if b.priority != a.priority then b.priority - a.priority
    else 0
  }

  /** Ordered for the comparator: specificity descending, then priority
      descending. */
  predicate Sorted(s: seq<Rule>) {
    forall i, j | 0 <= i < j < |s| :: Compare(s[i], s[j]) <= 0
  }

  /** The rules of `s` with the given specificity and priority, in order. */
  function KeyFilter(s: seq<Rule>, specificity: int, priority: int): (r: seq<Rule>)
    ensures forall z | z in r :: z in s && z.specificity == specificity && z.priority == priority
  {
    if s == [] then []
    else
      var rest := KeyFilter(s[1..], specificity, priority);
      if s[0].specificity == specificity && s[0].priority == priority then [s[0]] + rest else rest
  }

  /** Stability: rules with equal keys keep their relative order. */
  ghost predicate SameTieOrder(a: seq<Rule>, b: seq<Rule>) {
    forall sp: int, pr: int :: KeyFilter(a, sp, pr) == KeyFilter(b, sp, pr)
  }

  /** Places `x` after every rule that does not strictly follow it. */
  function Insert(ys: seq<Rule>, x: Rule): seq<Rule> {
    if ys == [] then [x]
    else if Compare(x, ys[0]) < 0 then [x] + ys
    else [ys[0]] + Insert(ys[1..], x)
  }

  /** The stable sort `Array.prototype.sort` performs with `Compare`. */
  function SortRules(s: seq<Rule>): seq<Rule> {
    if s == [] then [] else Insert(SortRules(s[..|s| - 1]), s[|s| - 1])
  }

  lemma {:induction false} KeyFilterAppend(a: seq<Rule>, b: seq<Rule>, sp: int, pr: int)
    ensures KeyFilter(a + b, sp, pr) == KeyFilter(a, sp, pr) + KeyFilter(b, sp, pr)
  {
    if a == [] {
      assert a + b == b;
    } else {
      assert (a + b)[1..] == a[1..] + b;
      KeyFilterAppend(a[1..], b, sp, pr);
    }
  }

  lemma {:induction false} InsertPermutation(ys: seq<Rule>, x: Rule)
    ensures multiset(Insert(ys, x)) == multiset(ys) + multiset{x}
  {
    if ys != [] && Compare(x, ys[0]) >= 0 {
      InsertPermutation(ys[1..], x);
      assert ys == [ys[0]] + ys[1..];
    }
  }

  lemma {:induction false} InsertSorted(ys: seq<Rule>, x: Rule)
    requires Sorted(ys)
    ensures Sorted(Insert(ys, x))
  {
    if ys == [] {
    } else if Compare(x, ys[0]) < 0 {
      var r := [x] + ys;
      forall i, j | 0 <= i < j < |r| ensures Compare(r[i], r[j]) <= 0 {
        assert r[j] == ys[j - 1];
        if i > 0 { assert r[i] == ys[i - 1]; }
        else { assert Compare(ys[0], ys[j - 1]) <= 0; }
      }
    } else {
      var tail := Insert(ys[1..], x);
      InsertSorted(ys[1..], x);
      InsertPermutation(ys[1..], x);
      var r := [ys[0]] + tail;
      forall i, j | 0 <= i < j < |r| ensures Compare(r[i], r[j]) <= 0 {
        assert r[j] == tail[j - 1];
        if i > 0 {
          assert r[i] == tail[i - 1];
        } else {
          assert tail[j - 1] in multiset(ys[1..]) + multiset{x};
          if tail[j - 1] != x {
            var k :| 0 <= k < |ys[1..]| && ys[1..][k] == tail[j - 1];
            assert ys[k + 1] == tail[j - 1];
          }
        }
      }
    }
  }

  lemma {:induction false} InsertKeyFilter(ys: seq<Rule>, x: Rule, sp: int, pr: int)
    requires Sorted(ys)
    ensures KeyFilter(Insert(ys, x), sp, pr) ==
            KeyFilter(ys, sp, pr) + (if x.specificity == sp && x.priority == pr then [x] else [])
  {
    if ys == [] {
    } else if Compare(x, ys[0]) < 0 {
      assert ([x] + ys)[1..] == ys;
      if x.specificity == sp && x.priority == pr {
        NoTieAfter(ys, x);
      }
    } else {
      var tail := ys[1..];
      assert Sorted(tail);
      InsertKeyFilter(tail, x, sp, pr);
      assert ([ys[0]] + Insert(tail, x))[1..] == Insert(tail, x);
    }
  }

  /** Every rule of a sorted sequence whose head strictly follows `x` has a
      key other than `x`'s. */
  lemma NoTieAfter(ys: seq<Rule>, x: Rule)
    requires Sorted(ys) && ys != [] && Compare(x, ys[0]) < 0
    ensures KeyFilter(ys, x.specificity, x.priority) == []
  {
    var f := KeyFilter(ys, x.specificity, x.priority);
    if f != [] {
      var z := f[0];
      assert z in f;
      var k :| 0 <= k < |ys| && ys[k] == z;
      assert Compare(ys[0], ys[k]) <= 0 by { if k > 0 { } }
      assert false;
    }
  }

  lemma {:induction false} SortRulesSorted(s: seq<Rule>)
    ensures Sorted(SortRules(s))
  {
    if s != [] {
      SortRulesSorted(s[..|s| - 1]);
      InsertSorted(SortRules(s[..|s| - 1]), s[|s| - 1]);
    }
  }

  lemma {:induction false} SortRulesPermutation(s: seq<Rule>)
    ensures multiset(SortRules(s)) == multiset(s)
  {
    if s != [] {
      SortRulesPermutation(s[..|s| - 1]);
      InsertPermutation(SortRules(s[..|s| - 1]), s[|s| - 1]);
      assert s == s[..|s| - 1] + [s[|s| - 1]];
    }
  }

  lemma {:induction false} SortRulesTies(s: seq<Rule>, sp: int, pr: int)
    ensures KeyFilter(SortRules(s), sp, pr) == KeyFilter(s, sp, pr)
  {
    if s != [] {
      var init, last := s[..|s| - 1], s[|s| - 1];
      SortRulesTies(init, sp, pr);
      SortRulesSorted(init);
      InsertKeyFilter(SortRules(init), last, sp, pr);
      KeyFilterAppend(init, [last], sp, pr);
      assert s == init + [last];
    }
  }

  /** The sort yields a sorted permutation that keeps equal-key rules in
      their input order. */
  lemma SortRulesCorrect(s: seq<Rule>)
    ensures Sorted(SortRules(s))
    ensures multiset(SortRules(s)) == multiset(s)
    ensures SameTieOrder(SortRules(s), s)
  {
    SortRulesSorted(s);
    SortRulesPermutation(s);
    forall sp: int, pr: int ensures KeyFilter(SortRules(s), sp, pr) == KeyFilter(s, sp, pr) {
      SortRulesTies(s, sp, pr);
    }
  }

  /** In a sorted sequence the head does not strictly follow any element. */
  lemma HeadFirst(b: seq<Rule>, x: Rule)
    requires Sorted(b) && x in b
    ensures Compare(b[0], x) <= 0
  {
    var j :| 0 <= j < |b| && b[j] == x;
    if j > 0 { assert Compare(b[0], b[j]) <= 0; }
  }

  lemma NonEmptyKeyFilter(a: seq<Rule>)
    requires a != []
    ensures KeyFilter(a, a[0].specificity, a[0].priority) != []
  {
  }

  lemma HeadsAgree(a: seq<Rule>, b: seq<Rule>)
    requires a != [] && b != []
    requires Sorted(a) && Sorted(b)
    requires SameTieOrder(a, b)
    ensures a[0] == b[0]
  {
    var x, y := a[0], b[0];
    assert KeyFilter(a, x.specificity, x.priority) == KeyFilter(b, x.specificity, x.priority);
    assert KeyFilter(a, y.specificity, y.priority) == KeyFilter(b, y.specificity, y.priority);
    assert x in KeyFilter(a, x.specificity, x.priority);
    assert y in KeyFilter(b, y.specificity, y.priority);
    HeadFirst(b, x);
    HeadFirst(a, y);
    assert KeyFilter(a, x.specificity, x.priority)[0] == x;
    assert KeyFilter(b, y.specificity, y.priority)[0] == y;
  }

  lemma TailsTieOrder(a: seq<Rule>, b: seq<Rule>)
    requires a != [] && b != [] && a[0] == b[0]
    requires SameTieOrder(a, b)
    ensures SameTieOrder(a[1..], b[1..])
  {
    forall sp: int, pr: int ensures KeyFilter(a[1..], sp, pr) == KeyFilter(b[1..], sp, pr) {
      var head := if a[0].specificity == sp && a[0].priority == pr then [a[0]] else [];
      assert KeyFilter(a, sp, pr) == head + KeyFilter(a[1..], sp, pr);
      assert KeyFilter(b, sp, pr) == head + KeyFilter(b[1..], sp, pr);
      assert KeyFilter(a, sp, pr) == KeyFilter(b, sp, pr);
      assert (head + KeyFilter(a[1..], sp, pr))[|head|..] == KeyFilter(a[1..], sp, pr);
      assert (head + KeyFilter(b[1..], sp, pr))[|head|..] == KeyFilter(b[1..], sp, pr);
    }
  }

  /** A sorted arrangement that keeps every tie in input order is unique: any
      stable sort with this comparator returns exactly `SortRules(s)`. */
  lemma {:induction false} SortedStableUnique(a: seq<Rule>, b: seq<Rule>)
    requires Sorted(a) && Sorted(b)
    requires SameTieOrder(a, b)
    ensures a == b
    decreases |a|
  {
    if a == [] || b == [] {
      if a != [] {
        NonEmptyKeyFilter(a);
        assert false;
      } else if b != [] {
        NonEmptyKeyFilter(b);
        assert false;
      }
    } else {
      HeadsAgree(a, b);
      TailsTieOrder(a, b);
      assert Sorted(a[1..]) && Sorted(b[1..]);
      SortedStableUnique(a[1..], b[1..]);
      assert a == [a[0]] + a[1..] && b == [b[0]] + b[1..];
    }
  }

  /** The rules whose condition holds in `ctx`, in input order. */
  function Passing(all: seq<Rule>, ctx: Value): (r: seq<Rule>)
    ensures forall z :: z in r <==> z in all && Eval(z.conditions, ctx)
  {
    if all == [] then []
    else
      var last := all[|all| - 1];
      assert all == all[..|all| - 1] + [last];
      Passing(all[..|all| - 1], ctx) + (if Eval(last.conditions, ctx) then [last] else [])
  }

  /** `getApplicableRules(gameId, trigger, ...)` for the evaluation context `ctx`. */
  function ApplicableRules(rows: seq<RuleRow>, gameId: Id, trigger: Trigger, ctx: Value): seq<Rule> {
    SortRules(Passing(FetchActiveRules(rows, gameId, trigger), ctx))
  }

  /** `getApplicableRules`: filters the fetched rules with the loop of
      `FilterPassing`, then sorts.
      `ctx` is the context `buildEvalContext` returns. */
  method GetApplicableRules(rows: seq<RuleRow>, gameId: Id, trigger: Trigger, ctx: Value)
    returns (rs: seq<Rule>)
    ensures rs == ApplicableRules(rows, gameId, trigger, ctx)
    ensures forall r :: r in rs <==> r in FetchActiveRules(rows, gameId, trigger) && Eval(r.conditions, ctx)
    ensures multiset(rs) == multiset(Passing(FetchActiveRules(rows, gameId, trigger), ctx))
    ensures Sorted(rs)
    ensures SameTieOrder(rs, Passing(FetchActiveRules(rows, gameId, trigger), ctx))
  {
    var all := FetchActiveRules(rows, gameId, trigger);
    var passing := FilterPassing(all, ctx);
    rs := SortRules(passing);
    SortedPassing(all, ctx);
  }

  /** The `for` loop of `getApplicableRules`: keeps, in order, the rules
      whose condition holds. */
  method FilterPassing(all: seq<Rule>, ctx: Value) returns (passing: seq<Rule>)
    ensures passing == Passing(all, ctx)
  {
    passing := [];
    for i := 0 to |all|
      invariant passing == Passing(all[..i], ctx)
    {
      PassingStep(all, i, ctx);
      if Eval(all[i].conditions, ctx) {
        passing := passing + [all[i]];
      }
    }
    assert all[..|all|] == all;
  }

  lemma PassingStep(all: seq<Rule>, i: nat, ctx: Value)
    requires i < |all|
    ensures Passing(all[..i + 1], ctx)
            == Passing(all[..i], ctx) + (if Eval(all[i].conditions, ctx) then [all[i]] else [])
  {
    assert all[..i + 1][..i] == all[..i];
  }

  /** The sorted passing rules are exactly the fetched rules whose condition
      holds, as a sorted, tie-stable permutation of the passing list. */
  lemma SortedPassing(all: seq<Rule>, ctx: Value)
    ensures var rs := SortRules(Passing(all, ctx));
            && (forall r :: r in rs <==> r in all && Eval(r.conditions, ctx))
            && multiset(rs) == multiset(Passing(all, ctx))
            && Sorted(rs)
            && SameTieOrder(rs, Passing(all, ctx))
  {
    var passing := Passing(all, ctx);
    SortRulesCorrect(passing);
    assert forall r :: r in SortRules(passing) <==> r in multiset(passing);
  }
}
