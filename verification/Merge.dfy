/** The recursive merge of sandbox configuration, and the folding of hook fragments. */
module Merge {
  import opened Options

  /** Parsed JSON: `Leaf` stands for everything that is not an object. */
  datatype Json = Leaf(text: string) | Dict(fields: map<string, Json>)

  const EMPTY := Dict(map[])

  /** `override` merged into `base`; anything but two objects is replaced. */
  function Merge(base: Json, override: Json): Json
    decreases base
  {
    if base.Dict? && override.Dict? then
      Dict(map k | k in base.fields.Keys + override.fields.Keys ::
        if k in base.fields && k in override.fields then Merge(base.fields[k], override.fields[k])
        else if k in override.fields then override.fields[k]
        else base.fields[k])
    else override
  }

  method DeepMerge(base: map<string, Json>, override: map<string, Json>) returns (result: map<string, Json>)
    ensures Dict(result) == Merge(Dict(base), Dict(override))
    decreases Dict(base)
  {
    result := base;
    var keys := override.Keys;
    while keys != {}
      invariant keys <= override.Keys
      invariant result.Keys == base.Keys + (override.Keys - keys)
      invariant forall k | k in result ::
        result[k] == if k in keys || k !in override then base[k]
                     else if k in base then Merge(base[k], override[k]) else override[k]
    {
      var key :| key in keys;
      var value := override[key];
      if key in result && result[key].Dict? && value.Dict? {
        var nested := DeepMerge(result[key].fields, value.fields);
        result := result[key := Dict(nested)];
      } else {
        result := result[key := value];
      }
      keys := keys - {key};
    }
  }

  // ------------------------------------------------------------------ laws by path

  /** The value found by following object fields. */
  function Lookup(v: Json, path: seq<string>): Option<Json>
    decreases |path|
  {
    if path == [] then Some(v)
    else if v.Dict? && path[0] in v.fields then Lookup(v.fields[path[0]], path[1..])
    else None
  }

  /** The path runs into a non-object on the way. */
  predicate Blocked(v: Json, path: seq<string>)
    decreases |path|
  {
    path != [] && (v.Leaf? || (path[0] in v.fields && Blocked(v.fields[path[0]], path[1..])))
  }

  /** Every look-up in a merge, from look-ups in the two inputs. */
  lemma {:induction false} MergeByPath(base: Json, override: Json, path: seq<string>)
    ensures Lookup(Merge(base, override), path) ==
      match Lookup(override, path)
      case Some(Leaf(_)) => Lookup(override, path)
      case Some(Dict(_)) =>
        if Lookup(base, path).Some? then Some(Merge(Lookup(base, path).value, Lookup(override, path).value))
        else Lookup(override, path)
      case None => if Blocked(override, path) then None else Lookup(base, path)
    decreases |path|
  {
    if path != [] && base.Dict? && override.Dict? {
      var k := path[0];
      if k in base.fields && k in override.fields {
        MergeByPath(base.fields[k], override.fields[k], path[1..]);
      }
    }
  }

  lemma {:induction false} MergeIdentity(v: Json)
    requires v.Dict?
    ensures Merge(EMPTY, v) == v && Merge(v, EMPTY) == v
  {
    assert Merge(EMPTY, v).fields == v.fields;
    assert Merge(v, EMPTY).fields == v.fields;
  }

  // ------------------------------------------------------------------ absorption

  /** Everything `low` says is said again by `high`. */
  predicate Overrides(high: Json, low: Json)
    decreases low
  {
    low.Dict? && high.Dict? ==>
      forall k | k in low.fields :: k in high.fields && Overrides(high.fields[k], low.fields[k])
  }

  lemma {:induction false} AbsorbedIff(low: Json, high: Json)
    ensures Merge(low, high) == high <==> Overrides(high, low)
    decreases low
  {
    if low.Dict? && high.Dict? {
      forall k | k in low.fields && k in high.fields
        ensures Merge(low.fields[k], high.fields[k]) == high.fields[k] <==> Overrides(high.fields[k], low.fields[k])
      {
        AbsorbedIff(low.fields[k], high.fields[k]);
      }
      var m := Merge(low, high);
      if m == high {
        forall k | k in low.fields
          ensures k in high.fields && Overrides(high.fields[k], low.fields[k])
        {
          assert k in m.fields;
          assert m.fields[k] == Merge(low.fields[k], high.fields[k]);
        }
      }
      if Overrides(high, low) {
        assert m.fields == high.fields;
      }
    }
  }

  lemma {:induction false} MergedOverrides(base: Json, override: Json)
    ensures Overrides(Merge(base, override), override) && Overrides(override, override)
    decreases override
  {
    if override.Dict? {
      forall k | k in override.fields
        ensures Overrides(override.fields[k], override.fields[k])
        ensures base.Dict? && k in base.fields ==>
                  Overrides(Merge(base.fields[k], override.fields[k]), override.fields[k])
      {
        MergedOverrides(if base.Dict? && k in base.fields then base.fields[k] else override.fields[k],
                        override.fields[k]);
      }
    }
  }

  /** Merging the same override twice is merging it once. */
  lemma {:induction false} MergeTwice(base: Json, override: Json)
    ensures Merge(Merge(base, override), override) == Merge(base, override)
    decreases base
  {
    if base.Dict? && override.Dict? {
      var once := Merge(base, override);
      var twice := Merge(once, override);
      assert once.fields.Keys == twice.fields.Keys;
      forall k | k in once.fields ensures twice.fields[k] == once.fields[k] {
        if k in override.fields {
          if k in base.fields {
            MergeTwice(base.fields[k], override.fields[k]);
          } else {
            MergedOverrides(override.fields[k], override.fields[k]);
            AbsorbedIff(override.fields[k], override.fields[k]);
          }
        }
      }
      assert once.fields == twice.fields;
    } else {
      MergedOverrides(override, override);
      AbsorbedIff(override, override);
    }
  }

  // ------------------------------------------------------------------ associativity

  /** Where the middle replaces an object by a non-object, the last must say again all the first said. */
  predicate Associable(a: Json, b: Json, c: Json)
    decreases a
  {
    if a.Dict? && c.Dict? then
      if b.Dict? then
        forall k | k in a.fields && k in b.fields && k in c.fields ::
          Associable(a.fields[k], b.fields[k], c.fields[k])
      else Overrides(c, a)
    else true
  }

  /** The merge is associative exactly there. */
  lemma {:induction false} AssociativeIff(a: Json, b: Json, c: Json)
    ensures Merge(Merge(a, b), c) == Merge(a, Merge(b, c)) <==> Associable(a, b, c)
    decreases a
  {
    if a.Dict? && c.Dict? {
      if b.Dict? {
        AssociativeFields(a, b, c);
      } else {
        AbsorbedIff(a, c);
      }
    }
  }

  lemma {:induction false} AssociativeFields(a: Json, b: Json, c: Json)
    requires a.Dict? && b.Dict? && c.Dict?
    ensures Merge(Merge(a, b), c) == Merge(a, Merge(b, c)) <==> Associable(a, b, c)
    decreases a, 0
  {
    var left, right := Merge(Merge(a, b), c), Merge(a, Merge(b, c));
    assert left.fields.Keys == right.fields.Keys;
    forall k | k in left.fields
      ensures left.fields[k] == right.fields[k] <==>
              (k in a.fields && k in b.fields && k in c.fields ==>
                Associable(a.fields[k], b.fields[k], c.fields[k]))
    {
      if k in a.fields && k in b.fields && k in c.fields {
        AssociativeIff(a.fields[k], b.fields[k], c.fields[k]);
      }
    }
    if left == right {
      forall k | k in a.fields && k in b.fields && k in c.fields
        ensures Associable(a.fields[k], b.fields[k], c.fields[k])
      {
        assert k in left.fields && left.fields[k] == right.fields[k];
      }
    }
    if Associable(a, b, c) {
      assert left.fields == right.fields;
    }
  }

  /** Associativity fails on the smallest such input. */
  lemma NotAssociative()
    ensures var a, b, c := Dict(map["env" := Dict(map["X" := Leaf("1")])]),
                           Dict(map["env" := Leaf("null")]),
                           Dict(map["env" := Dict(map["Y" := Leaf("2")])]);
            Merge(Merge(a, b), c) != Merge(a, Merge(b, c))
  {
    var a, b, c := Dict(map["env" := Dict(map["X" := Leaf("1")])]),
                   Dict(map["env" := Leaf("null")]),
                   Dict(map["env" := Dict(map["Y" := Leaf("2")])]);
    assert "X" in a.fields["env"].fields && "X" !in c.fields["env"].fields;
    assert !Overrides(c.fields["env"], a.fields["env"]);
    assert !Associable(a.fields["env"], b.fields["env"], c.fields["env"]);
    AssociativeIff(a, b, c);
  }

  // ------------------------------------------------------------------ hooks

  /** A hook fails, or prints a JSON value. */
  datatype HookResult = HookFailed | Printed(value: Json)

  /** The fragments that count: failing hooks and hooks printing a non-object are skipped. */
  function Fragments(hooks: seq<HookResult>): (fs: seq<Json>)
    ensures forall f :: f in fs ==> f.Dict?
  {
    if hooks == [] then []
    else
      var last := hooks[|hooks| - 1];
      Fragments(hooks[..|hooks| - 1]) + (if last.Printed? && last.value.Dict? then [last.value] else [])
  }

  /** Fragments merged left to right, starting from `from`. */
  function Fold(from: Json, fs: seq<Json>): Json {
    if fs == [] then from else Merge(Fold(from, fs[..|fs| - 1]), fs[|fs| - 1])
  }

  method RunHooks(hooks: seq<HookResult>) returns (merged: map<string, Json>)
    ensures Dict(merged) == HooksResult(hooks)
  {
    merged := map[];
    for i := 0 to |hooks|
      invariant Dict(merged) == Fold(EMPTY, Fragments(hooks[..i]))
    {
      assert hooks[..i + 1][..i] == hooks[..i];
      var hook := hooks[i];
      if hook.Printed? && hook.value.Dict? {
        ghost var fs := Fragments(hooks[..i]);
        assert (fs + [hook.value])[..|fs|] == fs;
        merged := DeepMerge(merged, hook.value.fields);
      } else {
        assert Fragments(hooks[..i + 1]) == Fragments(hooks[..i]);
      }
    }
    assert hooks[..|hooks|] == hooks;
  }

  lemma {:induction false} FragmentsSplit(front: seq<HookResult>, back: seq<HookResult>)
    ensures Fragments(front + back) == Fragments(front) + Fragments(back)
  {
    if back == [] {
      assert front + back == front;
    } else {
      var before := back[..|back| - 1];
      FragmentsSplit(front, before);
      assert (front + back)[..|front + back| - 1] == front + before;
    }
  }

  lemma {:induction false} FoldSplits(from: Json, fs: seq<Json>, gs: seq<Json>)
    ensures Fold(from, fs + gs) == Fold(Fold(from, fs), gs)
  {
    if gs == [] {
      assert fs + gs == fs;
    } else {
      var before := gs[..|gs| - 1];
      FoldSplits(from, fs, before);
      assert (fs + gs)[..|fs + gs| - 1] == fs + before;
    }
  }

  /** What the hooks come to. */
  function HooksResult(hooks: seq<HookResult>): Json {
    Fold(EMPTY, Fragments(hooks))
  }

  /** A hook that fails or prints a non-object changes nothing, wherever it stands. */
  lemma SkippedHook(front: seq<HookResult>, hook: HookResult, back: seq<HookResult>)
    requires hook.HookFailed? || hook.value.Leaf?
    ensures HooksResult(front + [hook] + back) == HooksResult(front + back)
  {
    FragmentsSplit(front + [hook], back);
    FragmentsSplit(front, [hook]);
    FragmentsSplit(front, back);
    assert Fragments([hook]) == [];
    assert Fragments(front) + [] == Fragments(front);
  }

  /** A hook that prints an object is merged over the result of those before it, and those after it
      are merged over that, one by one. */
  lemma CountedHook(front: seq<HookResult>, value: Json, back: seq<HookResult>)
    requires value.Dict?
    ensures HooksResult([]) == EMPTY
    ensures HooksResult(front + [Printed(value)]) == Merge(HooksResult(front), value)
    ensures HooksResult(front + [Printed(value)] + back) == Fold(HooksResult(front + [Printed(value)]), Fragments(back))
  {
    var hook := Printed(value);
    assert (front + [hook])[..|front|] == front;
    var fs := Fragments(front);
    assert (fs + [value])[..|fs|] == fs;
    FragmentsSplit(front + [hook], back);
    FoldSplits(EMPTY, Fragments(front + [hook]), Fragments(back));
  }

  /** A hook says nothing at a path, nor replaces what is on the way to it. */
  predicate Silent(hook: HookResult, path: seq<string>) {
    hook.Printed? && hook.value.Dict? ==> Lookup(hook.value, path) == None && !Blocked(hook.value, path)
  }

  /** What a hook prints at a path is in the result, unless a later hook says otherwise. */
  lemma {:induction false} LeafReaches(front: seq<HookResult>, value: Json, back: seq<HookResult>,
                                       path: seq<string>, text: string)
    requires value.Dict? && Lookup(value, path) == Some(Leaf(text))
    requires forall hook :: hook in back ==> Silent(hook, path)
    ensures Lookup(HooksResult(front + [Printed(value)] + back), path) == Some(Leaf(text))
  {
    var hooks := front + [Printed(value)];
    if back == [] {
      assert hooks + back == hooks;
      CountedHook(front, value, []);
      MergeByPath(HooksResult(front), value, path);
    } else {
      var before, last := back[..|back| - 1], back[|back| - 1];
      LeafReaches(front, value, before, path, text);
      assert hooks + back == hooks + before + [last] + [] && hooks + before + [] == hooks + before;
      assert last in back;
      if last.Printed? && last.value.Dict? {
        CountedHook(hooks + before, last.value, []);
        assert hooks + before + [last] == hooks + back;
        MergeByPath(HooksResult(hooks + before), last.value, path);
      } else {
        SkippedHook(hooks + before, last, []);
      }
    }
  }

  /** The input handed to the renderer: request, then static template, then hook output. */
  method BuildInput(request: map<string, Json>, template: map<string, Json>, hooks: seq<HookResult>)
    returns (input: map<string, Json>)
    ensures Dict(input) == Merge(Merge(Dict(request), Dict(template)), HooksResult(hooks))
  {
    input := request;
    MergeIdentity(Dict(request));
    if template != map[] {
      input := DeepMerge(input, template);
    }
    MergeIdentity(Dict(input));
    if hooks != [] {
      var config := RunHooks(hooks);
      input := DeepMerge(input, config);
    }
  }

  lemma FusionStep(base: Json, fs: seq<Json>, i: nat)
    requires i < |fs| && Fold(base, fs[..i]) == Merge(base, Fold(EMPTY, fs[..i]))
    ensures Fold(base, fs[..i + 1]) == Merge(base, Fold(EMPTY, fs[..i + 1]))
       <==> Associable(base, Fold(EMPTY, fs[..i]), fs[i])
  {
    assert fs[..i + 1][..i] == fs[..i];
    AssociativeIff(base, Fold(EMPTY, fs[..i]), fs[i]);
  }

  /** Fold fusion: merging the folded fragments into the base is merging each into the base in
      turn, for every number of fragments, exactly when each step may be reassociated. */
  lemma HookFusionIff(base: Json, fs: seq<Json>)
    requires base.Dict?
    ensures (forall i: nat | i <= |fs| :: Fold(base, fs[..i]) == Merge(base, Fold(EMPTY, fs[..i])))
       <==> (forall i: nat | i < |fs| :: Associable(base, Fold(EMPTY, fs[..i]), fs[i]))
  {
    if forall i: nat | i < |fs| :: Associable(base, Fold(EMPTY, fs[..i]), fs[i]) {
      forall i: nat | i <= |fs| ensures Fold(base, fs[..i]) == Merge(base, Fold(EMPTY, fs[..i])) {
        FusionUpTo(base, fs, i);
      }
    }
    if forall i: nat | i <= |fs| :: Fold(base, fs[..i]) == Merge(base, Fold(EMPTY, fs[..i])) {
      forall i: nat | i < |fs| ensures Associable(base, Fold(EMPTY, fs[..i]), fs[i]) {
        FusionStep(base, fs, i);
      }
    }
  }

  lemma {:induction false} FusionUpTo(base: Json, fs: seq<Json>, i: nat)
    requires base.Dict?
    requires i <= |fs| && forall j: nat | j < i :: Associable(base, Fold(EMPTY, fs[..j]), fs[j])
    ensures Fold(base, fs[..i]) == Merge(base, Fold(EMPTY, fs[..i]))
  {
    if i == 0 {
      MergeIdentity(base);
    } else {
      FusionUpTo(base, fs, i - 1);
      FusionStep(base, fs, i - 1);
    }
  }

  // ------------------------------------------------------------------ a condition on the inputs alone

  predicate IsDictAt(v: Json, path: seq<string>) {
    Lookup(v, path).Some? && Lookup(v, path).value.Dict?
  }

  predicate IsLeafAt(v: Json, path: seq<string>) {
    Lookup(v, path).Some? && Lookup(v, path).value.Leaf?
  }

  /** No path is an object in `a`, then a non-object in `b`, then an object in `c`. */
  ghost predicate NoFlip(a: Json, b: Json, c: Json) {
    forall path: seq<string> :: !(IsDictAt(a, path) && IsLeafAt(b, path) && IsDictAt(c, path))
  }

  lemma {:induction false} NoFlipAssociable(a: Json, b: Json, c: Json)
    requires NoFlip(a, b, c)
    ensures Associable(a, b, c)
    decreases a
  {
    if a.Dict? && c.Dict? {
      assert IsDictAt(a, []) && IsDictAt(c, []);
      assert !IsLeafAt(b, []);
      forall k | k in a.fields && k in b.fields && k in c.fields
        ensures Associable(a.fields[k], b.fields[k], c.fields[k])
      {
        forall path: seq<string>
          ensures !(IsDictAt(a.fields[k], path) && IsLeafAt(b.fields[k], path) && IsDictAt(c.fields[k], path))
        {
          var deeper := [k] + path;
          assert deeper[1..] == path;
          assert !(IsDictAt(a, deeper) && IsLeafAt(b, deeper) && IsDictAt(c, deeper));
        }
        NoFlipAssociable(a.fields[k], b.fields[k], c.fields[k]);
      }
    }
  }

  /** A non-object in the fold was a non-object in one of the fragments. */
  lemma {:induction false} LeafFromFragment(fs: seq<Json>, path: seq<string>) returns (j: nat)
    requires IsLeafAt(Fold(EMPTY, fs), path)
    ensures j < |fs| && IsLeafAt(fs[j], path)
  {
    var front, last := fs[..|fs| - 1], fs[|fs| - 1];
    MergeByPath(Fold(EMPTY, front), last, path);
    if IsLeafAt(last, path) {
      j := |fs| - 1;
    } else {
      j := LeafFromFragment(front, path);
    }
  }

  /** The fusion holds when no path goes from object in the base to non-object in one fragment and
      back to object in a later one. */
  lemma HookFusion(base: Json, fs: seq<Json>)
    requires base.Dict?
    requires forall i: nat, j: nat | j < i < |fs| :: NoFlip(base, fs[j], fs[i])
    ensures Fold(base, fs) == Merge(base, Fold(EMPTY, fs))
  {
    forall i: nat | i < |fs| ensures Associable(base, Fold(EMPTY, fs[..i]), fs[i]) {
      forall path: seq<string>
        ensures !(IsDictAt(base, path) && IsLeafAt(Fold(EMPTY, fs[..i]), path) && IsDictAt(fs[i], path))
      {
        if IsLeafAt(Fold(EMPTY, fs[..i]), path) {
          var j := LeafFromFragment(fs[..i], path);
          assert NoFlip(base, fs[j], fs[i]);
        }
      }
      NoFlipAssociable(base, Fold(EMPTY, fs[..i]), fs[i]);
    }
    FusionUpTo(base, fs, |fs|);
    assert fs[..|fs|] == fs;
  }
}
