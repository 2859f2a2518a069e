/** Conditional form fields and the fixpoint loop that removes the values of invisible ones. */
module PolicyPrune {
  import opened Wrappers
  import opened Json
  import opened DottedPath
  import opened PolicyPath

  /** A visibility condition. `allowed` is the `is` list (a single `is` value is a list of one). */
  datatype When = When(path: Path, allowed: Option<seq<Json>>, falsy: bool)

  /** A field without conditions has `when == []`. */
  datatype Field = Field(path: Path, when: seq<When>)

  predicate IsFalsy(value: Option<Json>) {
    match value
    case None => true
    case Some(Null) => true
    case Some(Bool(b)) => !b
    case Some(Str(s)) => s == ""
    case Some(Arr(items)) => items == []
    case _ => false
  }

  /** `Object.is` never identifies two distinct arrays or objects, so only scalars can be allowed. */
  predicate IsScalar(value: Json) {
    !value.Arr? && !value.Obj?
  }

  predicate Matches(obj: JsonObject, rule: When) {
    var value := Get(obj, rule.path);
    if rule.falsy then IsFalsy(value)
    else if rule.allowed.Some? then
      value.Some? && IsScalar(value.value) && value.value in rule.allowed.value
    else !IsFalsy(value)
  }

  predicate Visible(obj: JsonObject, field: Field) {
    forall rule | rule in field.when :: Matches(obj, rule)
  }

  /** The loop body acts on this field: it is invisible and still holds a value. */
  predicate Clearable(obj: JsonObject, field: Field) {
    !Visible(obj, field) && Get(obj, field.path).Some?
  }

  ghost predicate Stable(obj: JsonObject, fields: seq<Field>) {
    forall field | field in fields :: Visible(obj, field) || Get(obj, field.path) == None
  }

  /** How many listed fields hold a value. */
  function Remaining(obj: JsonObject, fields: seq<Field>): nat {
    if fields == [] then 0
    else (if Get(obj, fields[0].path).Some? then 1 else 0) + Remaining(obj, fields[1..])
  }

  lemma {:induction false} RemainingShrinks(obj: JsonObject, path: Path, fields: seq<Field>)
    ensures Remaining(Clear(obj, path), fields) <= Remaining(obj, fields)
  {
    if fields != [] {
      ClearShrinks(obj, path, fields[0].path);
      RemainingShrinks(obj, path, fields[1..]);
    }
  }

  lemma {:induction false} RemainingDrops(obj: JsonObject, field: Field, fields: seq<Field>)
    requires field in fields && Get(obj, field.path).Some?
    ensures Remaining(Clear(obj, field.path), fields) < Remaining(obj, fields)
  {
    GetSet(obj, field.path, None);
    if fields[0] == field {
      RemainingShrinks(obj, field.path, fields[1..]);
    } else {
      ClearShrinks(obj, field.path, fields[0].path);
      RemainingDrops(obj, field, fields[1..]);
    }
  }

  /** One sweep of the `for` loop. */
  function Sweep(obj: JsonObject, fields: seq<Field>): JsonObject {
    if fields == [] then obj
    else Sweep(if Clearable(obj, fields[0]) then Clear(obj, fields[0].path) else obj, fields[1..])
  }

  lemma {:induction false} SweepProgress(obj: JsonObject, fields: seq<Field>, all: seq<Field>)
    requires forall field | field in fields :: field in all
    ensures Sweep(obj, fields) == obj || Remaining(Sweep(obj, fields), all) < Remaining(obj, all)
    ensures Sweep(obj, fields) == obj <==> forall field | field in fields :: !Clearable(obj, field)
    decreases |fields|
  {
    if fields != [] {
      if Clearable(obj, fields[0]) {
        RemainingDrops(obj, fields[0], all);
        SweepProgress(Clear(obj, fields[0].path), fields[1..], all);
      } else {
        SweepProgress(obj, fields[1..], all);
      }
    }
  }

  /** Sweeps until a sweep changes nothing: what the method below computes. */
  function Pruned(obj: JsonObject, fields: seq<Field>): JsonObject
    decreases Remaining(obj, fields)
  {
    SweepProgress(obj, fields, fields);
    if Sweep(obj, fields) == obj then obj else Pruned(Sweep(obj, fields), fields)
  }

  /** `pruneInvisiblePolicyFields`, loop for loop. It terminates on every object and field list. */
  method PruneInvisiblePolicyFields(obj: JsonObject, fields: seq<Field>) returns (next: JsonObject)
    ensures next == Pruned(obj, fields)
    ensures Stable(next, fields)
  {
    next := obj;
    var changed := true;
    while changed
      invariant Pruned(next, fields) == Pruned(obj, fields)
      invariant !changed ==> Pruned(next, fields) == next
      decreases Remaining(next, fields), changed
    {
      changed := false;
      ghost var start := next;
      SweepProgress(start, fields, fields);
      for i := 0 to |fields|
        invariant Sweep(next, fields[i..]) == Sweep(start, fields)
        invariant changed ==> Remaining(next, fields) < Remaining(start, fields)
        invariant !changed ==> next == start
      {
        assert fields[i..][1..] == fields[i + 1..];
        if !Visible(next, fields[i]) {
          if Get(next, fields[i].path) != None {
            RemainingDrops(next, fields[i], fields);
            next := Clear(next, fields[i].path);
            changed := true;
          }
        }
      }
    }
    PrunedStable(obj, fields);
  }

  // ---- What every pruning gives ----

  lemma {:induction false} PrunedStable(obj: JsonObject, fields: seq<Field>)
    ensures Stable(Pruned(obj, fields), fields)
    decreases Remaining(obj, fields)
  {
    SweepProgress(obj, fields, fields);
    if Sweep(obj, fields) != obj {
      PrunedStable(Sweep(obj, fields), fields);
    }
  }

  lemma {:induction false} PruneFixpoint(obj: JsonObject, fields: seq<Field>)
    ensures Pruned(obj, fields) == obj <==> Stable(obj, fields)
  {
    SweepProgress(obj, fields, fields);
    PrunedStable(obj, fields);
    if Sweep(obj, fields) == obj {
      assert forall field | field in fields :: !Clearable(obj, field);
    }
  }

  /** Pruning again changes nothing. */
  lemma {:induction false} PruneIdempotent(obj: JsonObject, fields: seq<Field>)
    ensures Pruned(Pruned(obj, fields), fields) == Pruned(obj, fields)
  {
    PrunedStable(obj, fields);
    PruneFixpoint(Pruned(obj, fields), fields);
  }

  // ---- What a condition asks for, in values ----

  /** The values that count as nothing. */
  predicate IsNothing(value: Option<Json>) {
    || value == None || value == Some(Null) || value == Some(Bool(false)) || value == Some(Str(""))
    || value == Some(Arr([]))
  }

  /** What a condition asks of the value at its path. */
  predicate IsMet(obj: JsonObject, rule: When) {
    var value := Get(obj, rule.path);
    if rule.falsy then IsNothing(value)
    else if rule.allowed.Some? then
      value.Some? && value.value in rule.allowed.value && !value.value.Arr? && !value.value.Obj?
    else !IsNothing(value)
  }

  lemma FalsyIff(value: Option<Json>)
    ensures IsFalsy(value) <==> IsNothing(value)
  {}

  /** A condition matches if and only if it is met in these terms. */
  lemma MatchesIff(obj: JsonObject, rule: When)
    ensures Matches(obj, rule) <==> IsMet(obj, rule)
  {
    FalsyIff(Get(obj, rule.path));
  }

  /** Where a field keeps a value, each of its conditions is met by the value the rule reads in the result. */
  lemma {:induction false} PlainConditionMet(obj: JsonObject, fields: seq<Field>, field: Field, rule: When)
    requires field in fields && rule in field.when && Get(Pruned(obj, fields), field.path).Some?
    requires !rule.falsy && rule.allowed.None?
    ensures var value := Get(Pruned(obj, fields), rule.path);
            value.Some? && value.value != Null && value.value != Bool(false) && value.value != Str("")
            && value.value != Arr([])
  {
    PrunedStable(obj, fields);
    MatchesIff(Pruned(obj, fields), rule);
  }

  lemma {:induction false} FalsyConditionMet(obj: JsonObject, fields: seq<Field>, field: Field, rule: When)
    requires field in fields && rule in field.when && Get(Pruned(obj, fields), field.path).Some?
    requires rule.falsy
    ensures var value := Get(Pruned(obj, fields), rule.path);
            value == None || value == Some(Null) || value == Some(Bool(false)) || value == Some(Str(""))
            || value == Some(Arr([]))
  {
    PrunedStable(obj, fields);
    MatchesIff(Pruned(obj, fields), rule);
  }

  lemma {:induction false} IsConditionMet(obj: JsonObject, fields: seq<Field>, field: Field, rule: When)
    requires field in fields && rule in field.when && Get(Pruned(obj, fields), field.path).Some?
    requires !rule.falsy && rule.allowed.Some?
    ensures var value := Get(Pruned(obj, fields), rule.path);
            value.Some? && value.value in rule.allowed.value && !value.value.Arr? && !value.value.Obj?
  {
    PrunedStable(obj, fields);
    MatchesIff(Pruned(obj, fields), rule);
  }

  /** An object in which every field with a value has its conditions met is left as it is. */
  lemma {:induction false} AllMetIsUnchanged(obj: JsonObject, fields: seq<Field>)
    requires forall field, rule | field in fields && rule in field.when && Get(obj, field.path).Some? ::
               IsMet(obj, rule)
    ensures Pruned(obj, fields) == obj
  {
    forall field | field in fields && Get(obj, field.path).Some?
      ensures Visible(obj, field)
    {
      forall rule | rule in field.when
        ensures Matches(obj, rule)
      {
        assert IsMet(obj, rule);
        MatchesIff(obj, rule);
      }
    }
    PruneFixpoint(obj, fields);
  }

  /** A field with one condition that is not met is gone after pruning, and its emptied ancestors with it. */
  lemma {:induction false} UnmetIsCleared(obj: JsonObject, field: Field, rule: When)
    requires field.when == [rule] && !rule.falsy && rule.allowed.None?
    requires IsNothing(Get(obj, rule.path)) && Get(obj, field.path).Some?
    ensures Pruned(obj, [field]) == Clear(obj, field.path)
  {
    var next := Clear(obj, field.path);
    MatchesIff(obj, rule);
    assert !Matches(obj, field.when[0]);
    assert Sweep(obj, [field]) == Sweep(next, []) == next;
    GetSet(obj, field.path, None);
    assert next != obj;
    assert Stable(next, [field]);
    PruneFixpoint(next, [field]);
  }

  /** `trace` lists fields that are cleared one after the other, each while it is invisible and
      defined. */
  ghost predicate ClearsTo(obj: JsonObject, trace: seq<Field>, fields: seq<Field>, result: JsonObject)
    decreases |trace|
  {
    if trace == [] then obj == result
    else trace[0] in fields && Clearable(obj, trace[0])
         && ClearsTo(Clear(obj, trace[0].path), trace[1..], fields, result)
  }

  lemma {:induction false} ClearsToConcat(obj: JsonObject, s: seq<Field>, t: seq<Field>, fields: seq<Field>,
                                          middle: JsonObject, result: JsonObject)
    requires ClearsTo(obj, s, fields, middle) && ClearsTo(middle, t, fields, result)
    ensures ClearsTo(obj, s + t, fields, result)
    decreases |s|
  {
    if s == [] {
      assert s + t == t;
    } else {
      ClearsToConcat(Clear(obj, s[0].path), s[1..], t, fields, middle, result);
      assert (s + t)[1..] == s[1..] + t;
    }
  }

  lemma {:induction false} SweepTrace(obj: JsonObject, fields: seq<Field>, all: seq<Field>)
    returns (trace: seq<Field>)
    requires forall field | field in fields :: field in all
    ensures ClearsTo(obj, trace, all, Sweep(obj, fields))
    decreases |fields|
  {
    if fields == [] {
      trace := [];
    } else if Clearable(obj, fields[0]) {
      var rest := SweepTrace(Clear(obj, fields[0].path), fields[1..], all);
      trace := [fields[0]] + rest;
      assert trace[1..] == rest;
    } else {
      trace := SweepTrace(obj, fields[1..], all);
    }
  }

  /** Pruning only ever clears listed fields, each while it is invisible and defined. */
  lemma {:induction false} PrunedTrace(obj: JsonObject, fields: seq<Field>) returns (trace: seq<Field>)
    ensures ClearsTo(obj, trace, fields, Pruned(obj, fields))
    decreases Remaining(obj, fields)
  {
    SweepProgress(obj, fields, fields);
    if Sweep(obj, fields) == obj {
      trace := [];
    } else {
      var first := SweepTrace(obj, fields, fields);
      var rest := PrunedTrace(Sweep(obj, fields), fields);
      ClearsToConcat(obj, first, rest, fields, Sweep(obj, fields), Pruned(obj, fields));
      trace := first + rest;
    }
  }

  lemma {:induction false} TraceFrame(obj: JsonObject, trace: seq<Field>, fields: seq<Field>,
                                      result: JsonObject, path: Path)
    requires ClearsTo(obj, trace, fields, result)
    requires forall field | field in fields && field.when != [] :: !Related(field.path, path)
    ensures Get(result, path) == Get(obj, path)
    decreases |trace|
  {
    if trace != [] {
      SetFrame(obj, trace[0].path, None, path);
      TraceFrame(Clear(obj, trace[0].path), trace[1..], fields, result, path);
    }
  }

  /** Pruning keeps the value of every path unrelated to the conditional fields. */
  lemma {:induction false} PruneFrame(obj: JsonObject, fields: seq<Field>, path: Path)
    requires forall field | field in fields && field.when != [] :: !Related(field.path, path)
    ensures Get(Pruned(obj, fields), path) == Get(obj, path)
  {
    var trace := PrunedTrace(obj, fields);
    TraceFrame(obj, trace, fields, Pruned(obj, fields), path);
  }

  // ---- Independence of the field order ----

  /** No `falsy` condition reads a path related to that of a conditional field. */
  ghost predicate OrderFree(fields: seq<Field>) {
    forall field, other, rule |
      field in fields && other in fields && rule in other.when && rule.falsy && field.when != [] ::
      !Related(field.path, rule.path)
  }

  /** What is invisible stays invisible. */
  lemma {:induction false} InvisibleStays(obj: JsonObject, cleared: Field, field: Field, fields: seq<Field>)
    requires OrderFree(fields) && cleared in fields && field in fields && cleared.when != []
    requires !Visible(obj, field)
    ensures !Visible(Clear(obj, cleared.path), field)
  {
    var rule :| rule in field.when && !Matches(obj, rule);
    if rule.falsy {
      SetFrame(obj, cleared.path, None, rule.path);
    } else {
      ClearShrinks(obj, cleared.path, rule.path);
    }
  }

  /** A normal form that clears in some arbitrary but fixed order. */
  ghost function Normal(obj: JsonObject, fields: seq<Field>): JsonObject
    decreases Remaining(obj, fields)
  {
    if exists field :: field in fields && Clearable(obj, field) then
      var field :| field in fields && Clearable(obj, field);
      RemainingDrops(obj, field, fields);
      Normal(Clear(obj, field.path), fields)
    else obj
  }

  /** Two clears of the same object meet again after at most one clear each. */
  lemma {:induction false} LocalConfluence(obj: JsonObject, f: Field, g: Field, fields: seq<Field>)
    returns (meet: JsonObject)
    requires OrderFree(fields) && f in fields && g in fields
    requires Clearable(obj, f) && Clearable(obj, g)
    ensures meet == Clear(obj, f.path)
            || (Clearable(Clear(obj, f.path), g) && meet == Clear(Clear(obj, f.path), g.path))
    ensures meet == Clear(obj, g.path)
            || (Clearable(Clear(obj, g.path), f) && meet == Clear(Clear(obj, g.path), f.path))
  {
    InvisibleStays(obj, f, g, fields);
    InvisibleStays(obj, g, f, fields);
    if !Related(f.path, g.path) {
      SetCommutes(obj, f.path, None, g.path, None);
      SetFrame(obj, f.path, None, g.path);
      SetFrame(obj, g.path, None, f.path);
      meet := Clear(Clear(obj, f.path), g.path);
    } else if f.path <= g.path {
      meet := Clear(obj, f.path);
      MeetBelow(obj, f.path, g.path);
    } else {
      meet := Clear(obj, g.path);
      MeetBelow(obj, g.path, f.path);
    }
  }

  lemma MeetBelow(obj: JsonObject, p: Path, q: Path)
    requires p <= q
    ensures Clear(obj, p) == if Get(Clear(obj, q), p).Some? then Clear(Clear(obj, q), p) else Clear(obj, q)
  {
    if Get(Clear(obj, q), p).Some? {
      ClearAbsorbs(obj, p, q);
    } else {
      ClearBelowEmpties(obj, p, q);
    }
  }

  lemma {:induction false} ClearKeepsNormal(obj: JsonObject, f: Field, fields: seq<Field>)
    requires OrderFree(fields) && f in fields && Clearable(obj, f)
    ensures Normal(Clear(obj, f.path), fields) == Normal(obj, fields)
    decreases Remaining(obj, fields)
  {
    var g :| g in fields && Clearable(obj, g) && Normal(obj, fields) == Normal(Clear(obj, g.path), fields);
    var meet := LocalConfluence(obj, f, g, fields);
    RemainingDrops(obj, f, fields);
    RemainingDrops(obj, g, fields);
    if meet != Clear(obj, f.path) {
      ClearKeepsNormal(Clear(obj, f.path), g, fields);
    }
    if meet != Clear(obj, g.path) {
      ClearKeepsNormal(Clear(obj, g.path), f, fields);
    }
  }

  lemma {:induction false} TraceKeepsNormal(obj: JsonObject, trace: seq<Field>, fields: seq<Field>, result: JsonObject)
    requires OrderFree(fields) && ClearsTo(obj, trace, fields, result)
    ensures Normal(result, fields) == Normal(obj, fields)
    decreases |trace|
  {
    if trace != [] {
      ClearKeepsNormal(obj, trace[0], fields);
      TraceKeepsNormal(Clear(obj, trace[0].path), trace[1..], fields, result);
    }
  }

  /** Confluence: clearing invisible defined fields in any order, until none is left, ends in the
      object that pruning computes. */
  lemma {:induction false} AnyOrderPrunesAlike(obj: JsonObject, trace: seq<Field>, fields: seq<Field>,
                                               result: JsonObject)
    requires OrderFree(fields) && ClearsTo(obj, trace, fields, result) && Stable(result, fields)
    ensures result == Pruned(obj, fields)
  {
    var own := PrunedTrace(obj, fields);
    PrunedStable(obj, fields);
    TraceKeepsNormal(obj, trace, fields, result);
    TraceKeepsNormal(obj, own, fields, Pruned(obj, fields));
    assert Normal(result, fields) == result;
    assert Normal(Pruned(obj, fields), fields) == Pruned(obj, fields);
  }

  lemma {:induction false} TraceOfOtherList(obj: JsonObject, trace: seq<Field>, fields: seq<Field>,
                                            others: seq<Field>, result: JsonObject)
    requires ClearsTo(obj, trace, fields, result)
    requires forall field | field in fields :: field in others
    ensures ClearsTo(obj, trace, others, result)
    decreases |trace|
  {
    if trace != [] {
      TraceOfOtherList(Clear(obj, trace[0].path), trace[1..], fields, others, result);
    }
  }

  /** The result depends on which fields are listed, not on their order or repetition. */
  lemma {:induction false} PruneOrderIndependent(obj: JsonObject, fields: seq<Field>, others: seq<Field>)
    requires OrderFree(fields)
    requires forall field :: field in fields <==> field in others
    ensures Pruned(obj, fields) == Pruned(obj, others)
  {
    var trace := PrunedTrace(obj, others);
    TraceOfOtherList(obj, trace, others, fields, Pruned(obj, others));
    PrunedStable(obj, others);
    AnyOrderPrunesAlike(obj, trace, fields, Pruned(obj, others));
  }

  /** The theorem is about field lists without related falsy conditions, as all lists of the forms are. For
      others the order can matter: two fields that hide each other. */
  lemma FalsyOrderMatters(f: Field, g: Field, obj: JsonObject)
    requires |f.path| == 1 && |g.path| == 1 && f.path != g.path
    requires f.when == [When(g.path, None, true)] && g.when == [When(f.path, None, true)]
    requires obj == map[f.path[0] := Bool(true), g.path[0] := Bool(true)]
    ensures Pruned(obj, [f, g]) == map[g.path[0] := Bool(true)]
    ensures Pruned(obj, [g, f]) == map[f.path[0] := Bool(true)]
  {
    MutualHiding(f, g, obj);
    MutualHiding(g, f, obj);
  }

  lemma MutualHiding(f: Field, g: Field, obj: JsonObject)
    requires |f.path| == 1 && |g.path| == 1 && f.path != g.path
    requires f.when == [When(g.path, None, true)] && g.when == [When(f.path, None, true)]
    requires obj == map[f.path[0] := Bool(true), g.path[0] := Bool(true)]
    ensures Pruned(obj, [f, g]) == map[g.path[0] := Bool(true)]
  {
    var next := map[g.path[0] := Bool(true)];
    assert !Matches(obj, f.when[0]);
    assert Clear(obj, f.path) == next;
    assert Visible(next, g);
    assert [f, g][1..] == [g];
    assert Sweep(obj, [f, g]) == Sweep(next, [g]) == next;
    assert Stable(next, [f, g]);
    PruneFixpoint(next, [f, g]);
  }
}
