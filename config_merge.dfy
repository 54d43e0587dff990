/** The configuration merge shared by the API-token middleware and the
    Keycloak integration: a dictionary loaded from YAML is overlaid with an
    environment's overrides, key by key, merging nested dictionaries. A
    dictionary is a sequence of entries in insertion order, as Python keeps
    them. */
module ConfigMerge {
  import opened Wrappers

  datatype Value =
    | Dict(entries: seq<Entry>)
    | List(items: seq<Value>)
    | Str(s: string)
    | Int(i: int)
    | Bool(b: bool)
    | Null

  datatype Entry = Entry(key: string, value: Value)

  function Keys(es: seq<Entry>): set<string> {
    if es == [] then {} else {es[0].key} + Keys(es[1..])
  }

  /** A dictionary holds each key once. */
  predicate UniqueKeys(es: seq<Entry>) {
    forall i, j :: 0 <= i < j < |es| ==> es[i].key != es[j].key
  }

  /** `d.get(key)`: the value stored under `key`, if any. */
  function Lookup(es: seq<Entry>, key: string): (r: Option<Value>)
    ensures r.Some? <==> key in Keys(es)
  {
    if es == [] then None
    else if es[0].key == key then Some(es[0].value)
    else Lookup(es[1..], key)
  }

  /** `d[key] = v`: a present key keeps its place, a new one goes last. */
  function Put(es: seq<Entry>, key: string, v: Value): (r: seq<Entry>)
    ensures Keys(r) == Keys(es) + {key}
    ensures Lookup(r, key) == Some(v)
    ensures forall k :: k != key ==> Lookup(r, k) == Lookup(es, k)
  {
    if es == [] then [Entry(key, v)]
    else if es[0].key == key then [Entry(key, v)] + es[1..]
    else [es[0]] + Put(es[1..], key, v)
  }

  lemma {:induction false} PutKeepsUnique(es: seq<Entry>, key: string, v: Value)
    requires UniqueKeys(es)
    ensures UniqueKeys(Put(es, key, v))
  {
    if es != [] && es[0].key != key {
      PutKeepsUnique(es[1..], key, v);
      var r := Put(es, key, v);
      forall j | 0 < j < |r|
        ensures r[0].key != r[j].key
      {
        assert r[j].key in Keys(r[1..]) by { KeyAt(r[1..], j - 1); }
        assert es[0].key !in Keys(es[1..]) by { NotInKeys(es[1..], es[0].key); }
      }
    }
  }

  lemma {:induction false} KeyAt(es: seq<Entry>, i: nat)
    requires i < |es|
    ensures es[i].key in Keys(es)
  {
    if i > 0 {
      KeyAt(es[1..], i - 1);
    }
  }

  lemma {:induction false} NotInKeys(es: seq<Entry>, key: string)
    requires forall j :: 0 <= j < |es| ==> es[j].key != key
    ensures key !in Keys(es)
  {
    if es != [] {
      NotInKeys(es[1..], key);
    }
  }

  /** `_merge_config(base, override)`: for each override entry in order, a
      dictionary under a key the result already has is merged into the
      existing value, and anything else replaces it. */
  function Merge(base: seq<Entry>, override: seq<Entry>): (r: Result<seq<Entry>>)
    ensures r.Ok? ==> Keys(r.value) == Keys(base) + Keys(override)
    decreases override, 0
  {
    if override == [] then Ok(base)
    else
      var e := override[0];
      var v := if e.value.Dict? && Lookup(base, e.key).Some?
        then MergeValue(Lookup(base, e.key).value, e.value.entries)
        else Ok(e.value);
      if v.Err? then Err(v.error)
      else Merge(Put(base, e.key, v.value), override[1..])
  }

  /** The recursive call on an existing value: only a dictionary can take the
      merge; a list survives an empty override (it has a `copy`) but not an
      assignment by key, and any other value has no `copy` at all. */
  function MergeValue(base: Value, override: seq<Entry>): Result<Value>
    decreases override, 1
  {
    match base
    case Dict(es) =>
      var merged := Merge(es, override);
      if merged.Err? then Err(merged.error) else Ok(Dict(merged.value))
    case List(_) =>
      if override == [] then Ok(base) else Err("TypeError: list indices must be integers or slices, not str")
    case _ => Err("AttributeError: '" + TypeName(base) + "' object has no attribute 'copy'")
  }

  /** The Python type name of a value, as an AttributeError message shows it. */
  function TypeName(v: Value): string {
    match v
    case Dict(_) => "dict"
    case List(_) => "list"
    case Str(_) => "str"
    case Int(_) => "int"
    case Bool(_) => "bool"
    case Null => "NoneType"
  }

  /** The value one override entry leaves under its key, given the result so far. */
  function EntryOutcome(result: seq<Entry>, e: Entry): Result<Value> {
    if e.value.Dict? && Lookup(result, e.key).Some?
    then MergeValue(Lookup(result, e.key).value, e.value.entries)
    else Ok(e.value)
  }

  /** A key the override does not mention keeps its base value. */
  lemma {:induction false} MergeKeepsBase(base: seq<Entry>, override: seq<Entry>, key: string)
    requires Merge(base, override).Ok? && key !in Keys(override)
    ensures Lookup(Merge(base, override).value, key) == Lookup(base, key)
    decreases override
  {
    if override != [] {
      var e := override[0];
      var v := EntryOutcome(base, e);
      MergeKeepsBase(Put(base, e.key, v.value), override[1..], key);
    }
  }

  /** Each override key ends with what its own entry made of the base value:
      the override value itself, or the recursive merge of two dictionaries. */
  lemma {:induction false} MergeOverrides(base: seq<Entry>, override: seq<Entry>, i: nat)
    requires UniqueKeys(override) && Merge(base, override).Ok? && i < |override|
    ensures EntryOutcome(base, override[i]).Ok?
    ensures Lookup(Merge(base, override).value, override[i].key) == Some(EntryOutcome(base, override[i]).value)
    decreases override
  {
    var e := override[0];
    var v := EntryOutcome(base, e);
    var next := Put(base, e.key, v.value);
    if i == 0 {
      NotInKeys(override[1..], e.key);
      MergeKeepsBase(next, override[1..], e.key);
    } else {
      assert override[1..][i - 1] == override[i];
      assert override[i].key != e.key;
      MergeOverrides(next, override[1..], i - 1);
      assert Lookup(next, override[i].key) == Lookup(base, override[i].key);
    }
  }

  /** With distinct override keys, the merge succeeds exactly when every
      override entry can be applied to the base. */
  lemma {:induction false} MergeSucceeds(base: seq<Entry>, override: seq<Entry>)
    requires UniqueKeys(override)
    ensures Merge(base, override).Ok? <==> forall i :: 0 <= i < |override| ==> EntryOutcome(base, override[i]).Ok?
    decreases override
  {
    if override != [] {
      var e := override[0];
      var v := EntryOutcome(base, e);
      if v.Ok? {
        var next := Put(base, e.key, v.value);
        MergeSucceeds(next, override[1..]);
        forall i | 1 <= i < |override|
          ensures EntryOutcome(next, override[i]) == EntryOutcome(base, override[i])
        {
          assert override[i].key != e.key;
        }
        assert forall i :: 1 <= i < |override| ==> override[1..][i - 1] == override[i];
      }
    }
  }

  /** A merge keeps keys unique. */
  lemma {:induction false} MergeKeepsUnique(base: seq<Entry>, override: seq<Entry>)
    requires UniqueKeys(base) && Merge(base, override).Ok?
    ensures UniqueKeys(Merge(base, override).value)
    decreases override
  {
    if override != [] {
      var e := override[0];
      var v := EntryOutcome(base, e);
      PutKeepsUnique(base, e.key, v.value);
      MergeKeepsUnique(Put(base, e.key, v.value), override[1..]);
    }
  }

  /** Overrides without nested dictionaries always apply, and each wins. */
  lemma FlatOverrideWins(base: seq<Entry>, override: seq<Entry>, i: nat)
    requires UniqueKeys(override)
    requires forall j :: 0 <= j < |override| ==> !override[j].value.Dict?
    requires i < |override|
    ensures Merge(base, override).Ok?
    ensures Lookup(Merge(base, override).value, override[i].key) == Some(override[i].value)
  {
    MergeSucceeds(base, override);
    MergeOverrides(base, override, i);
  }
}
