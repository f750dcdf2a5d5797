/** Event patches over nested mappings (`_merge`, `EventReducer`). */
module EventPatch {
  import opened Wrappers

  /** A JSON-like value: a mapping, or anything else. */
  datatype Value = Leaf(atom: nat) | Node(fields: map<string, Value>)

  /** An event object, or a plain mapping that may wrap its payload. */
  datatype Event = Typed(payload: Value) | Plain(fields: map<string, Value>)

  // ---------------------------------------------------------------- merging

  /** Mappings merge key by key; anything else is replaced. */
  function Merged(base: Value, patch: Value): (r: Value)
    decreases patch
  {
    if base.Node? && patch.Node? then
      Node(map k | k in base.fields.Keys + patch.fields.Keys ::
             if k in patch.fields then
               (if k in base.fields then Merged(base.fields[k], patch.fields[k]) else patch.fields[k])
             else base.fields[k])
    else patch
  }

  /** `_merge`: the loop over the items of the patch, in any order. */
  method Merge(base: Value, patch: Value) returns (r: Value)
    ensures r == Merged(base, patch)
    decreases patch
  {
    if !base.Node? || !patch.Node? { return patch; }
    var result := base.fields;
    var todo := patch.fields.Keys;
    while todo != {}
      invariant todo <= patch.fields.Keys && HalfMerged(base, patch, result, todo)
      decreases |todo|
    {
      var key :| key in todo;
      var merged := patch.fields[key];
      if key in result { merged := Merge(result[key], patch.fields[key]); }
      HalfStep(base, patch, result, todo, key);
      result := result[key := merged];
      todo := todo - {key};
    }
    HalfDone(base, patch, result);
    r := Node(result);
  }

  /** What the patch leaves at one of its keys. */
  function MergedAt(base: Value, patch: Value, k: string): Value
    requires base.Node? && patch.Node? && k in patch.fields
  {
    if k in base.fields then Merged(base.fields[k], patch.fields[k]) else patch.fields[k]
  }

  /** The result with the keys in `todo` still to be merged. */
  predicate HalfMerged(base: Value, patch: Value, result: map<string, Value>, todo: set<string>)
    requires base.Node? && patch.Node?
  {
    && result.Keys == base.fields.Keys + (patch.fields.Keys - todo)
    && forall k :: k in result ==>
                     if k in patch.fields && k !in todo then result[k] == MergedAt(base, patch, k)
                     else k in base.fields && result[k] == base.fields[k]
  }

  lemma HalfStep(base: Value, patch: Value, result: map<string, Value>, todo: set<string>, key: string)
    requires base.Node? && patch.Node? && key in todo && todo <= patch.fields.Keys && HalfMerged(base, patch, result, todo)
    ensures key in result <==> key in base.fields
    ensures key in result ==> result[key] == base.fields[key]
    ensures HalfMerged(base, patch, result[key := MergedAt(base, patch, key)], todo - {key})
  {
  }

  lemma HalfDone(base: Value, patch: Value, result: map<string, Value>)
    requires base.Node? && patch.Node? && HalfMerged(base, patch, result, {})
    ensures Node(result) == Merged(base, patch)
  {
    assert result == Merged(base, patch).fields;
  }

  /** Merging the same patch a second time changes nothing. */
  lemma {:induction false} MergeTwice(base: Value, patch: Value)
    ensures Merged(Merged(base, patch), patch) == Merged(base, patch)
    decreases patch
  {
    if patch.Node? {
      forall k | k in patch.fields ensures Merged(patch.fields[k], patch.fields[k]) == patch.fields[k] {
        MergeSelf(patch.fields[k]);
      }
      if base.Node? {
        forall k | k in patch.fields && k in base.fields
          ensures Merged(Merged(base.fields[k], patch.fields[k]), patch.fields[k]) == Merged(base.fields[k], patch.fields[k])
        {
          MergeTwice(base.fields[k], patch.fields[k]);
        }
        assert Merged(Merged(base, patch), patch).fields == Merged(base, patch).fields;
      } else {
        assert Merged(patch, patch).fields == patch.fields;
      }
    }
  }

  lemma {:induction false} MergeSelf(v: Value)
    ensures Merged(v, v) == v
  {
    if v.Node? {
      forall k | k in v.fields ensures Merged(v.fields[k], v.fields[k]) == v.fields[k] { MergeSelf(v.fields[k]); }
      assert Merged(v, v).fields == v.fields;
    }
  }

  // ---------------------------------------------------------------- events

  /** The patch of an event; `None` is the type error. */
  function PatchOf(e: Event): (p: Option<Value>)
    ensures p.Some? ==> p.value.Node?
  {
    var payload := match e
                   case Typed(payload) => payload
                   case Plain(fields) => if "payload" in fields then fields["payload"] else Node(fields);
    if !payload.Node? then None
    else
      var patch := if "patch" in payload.fields then payload.fields["patch"] else payload;
      if patch.Node? then Some(patch) else None
  }

  function Applied(state: Option<Value>, e: Event): Option<Value> {
    if state.None? || PatchOf(e).None? then None else Some(Merged(state.value, PatchOf(e).value))
  }

  function Replayed(state: Option<Value>, events: seq<Event>): Option<Value> {
    if events == [] then state else Applied(Replayed(state, events[..|events| - 1]), events[|events| - 1])
  }

  /** `EventReducer.apply` */
  method Apply(state: Value, e: Event) returns (r: Option<Value>)
    ensures r == Applied(Some(state), e)
  {
    var patch := PatchOf(e);
    if patch.None? { return None; }
    var merged := Merge(state, patch.value);
    return Some(merged);
  }

  /** `EventReducer.replay` */
  method Replay(events: seq<Event>, initial: Option<Value>) returns (r: Option<Value>)
    ensures r == Replayed(Some(if initial.Some? then initial.value else Node(map[])), events)
  {
    var start := if initial.Some? then initial.value else Node(map[]);
    var state := start;
    for i := 0 to |events|
      invariant Replayed(Some(start), events[..i]) == Some(state)
    {
      assert events[..i + 1][..i] == events[..i];
      var next := Apply(state, events[i]);
      if next.None? {
        ReplayStops(Some(start), events, i + 1);
        return None;
      }
      state := next.value;
    }
    assert events[..|events|] == events;
    return Some(state);
  }

  lemma {:induction false} ReplayStops(state: Option<Value>, events: seq<Event>, i: nat)
    requires i <= |events| && Replayed(state, events[..i]).None?
    ensures Replayed(state, events).None?
    decreases |events| - i
  {
    if i == |events| {
      assert events[..i] == events;
    } else {
      assert events[..i + 1][..i] == events[..i];
      ReplayStops(state, events, i + 1);
    }
  }

  /** Applying an event twice is applying it once, failures included. */
  lemma ApplyTwice(state: Option<Value>, e: Event)
    ensures Applied(Applied(state, e), e) == Applied(state, e)
  {
    if state.Some? && PatchOf(e).Some? { MergeTwice(state.value, PatchOf(e).value); }
  }

  /** A replay may be stopped and resumed anywhere. */
  lemma {:induction false} ReplaySplits(state: Option<Value>, a: seq<Event>, b: seq<Event>)
    ensures Replayed(state, a + b) == Replayed(Replayed(state, a), b)
  {
    if b == [] {
      assert a + b == a;
    } else {
      var n := |b| - 1;
      ReplaySplits(state, a, b[..n]);
      assert (a + b)[..|a| + n] == a + b[..n];
    }
  }

  // ---------------------------------------------------------------- what an event does to the leaves

  /** What a value holds at the end of a path of keys. */
  function At(v: Value, path: seq<string>): Option<Value> {
    if path == [] then Some(v)
    else if v.Node? && path[0] in v.fields then At(v.fields[path[0]], path[1..])
    else None
  }

  /** The patch leaves a mapping on the path without saying anything about the next key. */
  predicate Silent(patch: Value, path: seq<string>) {
    path != [] && patch.Node? && (path[0] in patch.fields ==> Silent(patch.fields[path[0]], path[1..]))
  }

  /** The leaves of a merge are those of the patch, and those of the base on which the patch is silent. */
  lemma {:induction false} MergedLeaf(base: Value, patch: Value, path: seq<string>, atom: nat)
    ensures At(Merged(base, patch), path) == Some(Leaf(atom)) <==>
              At(patch, path) == Some(Leaf(atom)) || (At(base, path) == Some(Leaf(atom)) && Silent(patch, path))
    decreases |path|
  {
    if path != [] && base.Node? && patch.Node? && path[0] in base.fields && path[0] in patch.fields {
      MergedLeaf(base.fields[path[0]], patch.fields[path[0]], path[1..], atom);
    }
  }

  /** The whole event, and where in it the patch is: under "payload" if a mapping has one, and there
      under "patch" if there is one. */
  function Whole(e: Event): Value {
    match e
    case Typed(payload) => payload
    case Plain(fields) => Node(fields)
  }

  function PatchPath(e: Event): seq<string> {
    var outer := if e.Plain? && At(Whole(e), ["payload"]).Some? then ["payload"] else [];
    if At(Whole(e), outer + ["patch"]).Some? then outer + ["patch"] else outer
  }

  lemma PatchIsAt(e: Event)
    ensures At(Whole(e), PatchPath(e)).Some?
    ensures PatchOf(e) == if At(Whole(e), PatchPath(e)).value.Node? then At(Whole(e), PatchPath(e)) else None
  {
    assert ["payload", "patch"][1..] == ["patch"] && ["payload"] + ["patch"] == ["payload", "patch"] && [] + ["patch"] == ["patch"];
    assert forall v, k :: At(v, [k]) == if v.Node? && k in v.fields then Some(v.fields[k]) else None;
  }

  /** Applying an event fails exactly when there is no mapping where its patch should be; else the
      leaves of the new state are those of that mapping, and the old ones it is silent about. */
  lemma AppliedLeaf(state: Value, e: Event, path: seq<string>, atom: nat)
    ensures var patch := At(Whole(e), PatchPath(e)).value;
            && (Applied(Some(state), e).Some? <==> patch.Node?)
            && (patch.Node? ==>
                  (At(Applied(Some(state), e).value, path) == Some(Leaf(atom)) <==>
                     At(patch, path) == Some(Leaf(atom)) || (At(state, path) == Some(Leaf(atom)) && Silent(patch, path))))
  {
    PatchIsAt(e);
    MergedLeaf(state, At(Whole(e), PatchPath(e)).value, path, atom);
  }

  // ---------------------------------------------------------------- compaction

  /** Some key path is a leaf in the first patch and a mapping in the second. */
  ghost predicate Clash(p: Value, q: Value)
    decreases p
  {
    if p.Leaf? then q.Node?
    else q.Node? && exists k :: k in p.fields && k in q.fields && Clash(p.fields[k], q.fields[k])
  }

  /** Without a clash, the two patches are one: the second merged into the first. */
  lemma {:induction false} Compacts(base: Value, p: Value, q: Value)
    requires !Clash(p, q)
    ensures Merged(Merged(base, p), q) == Merged(base, Merged(p, q))
    decreases p
  {
    if p.Node? && q.Node? && base.Node? {
      forall k | k in base.fields && k in p.fields && k in q.fields
        ensures Merged(Merged(base.fields[k], p.fields[k]), q.fields[k]) == Merged(base.fields[k], Merged(p.fields[k], q.fields[k]))
      {
        Compacts(base.fields[k], p.fields[k], q.fields[k]);
      }
      assert Merged(Merged(base, p), q).fields == Merged(base, Merged(p, q)).fields;
    }
  }

  /** One patch that does the work of two, on this base. */
  predicate Stands(base: Value, p: Value, q: Value, r: Value) {
    Merged(Merged(base, p), q) == Merged(base, r)
  }

  /** It does so on every mapping. */
  ghost predicate StandsForAll(p: Value, q: Value, r: Value) {
    forall base :: Stands(base, p, q, r) || !base.Node?
  }

  lemma {:induction false} LongerThan(keys: set<string>) returns (n: nat)
    ensures forall k :: k in keys ==> |k| < n
  {
    n := 0;
    if keys != {} {
      var k :| k in keys;
      var m := LongerThan(keys - {k});
      n := if m > |k| then m else |k| + 1;
    }
  }

  /** At a leaf that the second patch makes a mapping, a single patch must hold that mapping. */
  lemma LeafThenNode(p: Value, q: Value, r: Value, k: string)
    requires p.Node? && q.Node? && r.Node? && Stands(Node(map[]), p, q, r)
    requires k in p.fields && k in q.fields && p.fields[k].Leaf?
    ensures k in r.fields && r.fields[k] == q.fields[k]
  {
    var first := Merged(Node(map[]), p);
    assert first.fields[k] == p.fields[k];
    assert k in Merged(first, q).fields && Merged(first, q).fields[k] == q.fields[k];
    assert Merged(Node(map[]), r).fields.Keys == r.fields.Keys;
  }

  /** With a clash, every single patch goes wrong on some mapping. */
  lemma {:induction false} ClashBreaks(p: Value, q: Value, r: Value) returns (base: Value)
    requires p.Node? && q.Node? && Clash(p, q)
    ensures base.Node? && !Stands(base, p, q, r)
    decreases p
  {
    var empty := Node(map[]);
    base := empty;
    if r.Node? && Stands(empty, p, q, r) {
      var k :| k in p.fields && k in q.fields && Clash(p.fields[k], q.fields[k]);
      assert k in Merged(Merged(empty, p), q).fields;
      var inner: Value;
      if p.fields[k].Leaf? {
        LeafThenNode(p, q, r, k);
        var n := LongerThan(q.fields[k].fields.Keys);
        var spare := seq(n, _ => 'a');
        inner := Node(map[spare := Leaf(0)]);
        assert spare in Merged(inner, r.fields[k]).fields;
      } else {
        inner := ClashBreaks(p.fields[k], q.fields[k], r.fields[k]);
      }
      base := Node(map[k := inner]);
      assert Merged(Merged(base, p), q).fields[k] == Merged(Merged(inner, p.fields[k]), q.fields[k]);
      assert Merged(base, r).fields[k] == Merged(inner, r.fields[k]);
    }
  }

  /** Two patches can be compacted into one for every state exactly when they do not clash. */
  lemma CompactionExactly(p: Value, q: Value)
    requires p.Node? && q.Node?
    ensures (exists r :: StandsForAll(p, q, r)) <==> !Clash(p, q)
  {
    if Clash(p, q) {
      forall r ensures !StandsForAll(p, q, r) {
        var base := ClashBreaks(p, q, r);
      }
    } else {
      forall base ensures Stands(base, p, q, Merged(p, q)) { Compacts(base, p, q); }
      assert StandsForAll(p, q, Merged(p, q));
    }
  }

  /** Setting a key to a number and then to a mapping: no single patch does both. */
  lemma LeafThenMapping()
    ensures var p := Node(map["a" := Leaf(1)]);
            var q := Node(map["a" := Node(map["b" := Leaf(2)])]);
            !exists r :: StandsForAll(p, q, r)
  {
    var p := Node(map["a" := Leaf(1)]);
    var q := Node(map["a" := Node(map["b" := Leaf(2)])]);
    assert "a" in p.fields && "a" in q.fields && Clash(p.fields["a"], q.fields["a"]);
    CompactionExactly(p, q);
  }
}
