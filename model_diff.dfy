/**
 * `ModelDiffHelper`: a baseline snapshot of a record's fields and an
 * optional later snapshot, and the field-by-field difference between them.
 *
 * A snapshot is what `model_to_dict` returns: an insertion-ordered
 * dictionary, written here as a list of (field name, value) pairs whose
 * names are distinct.
 */
module ModelDiff {
  import opened Wrappers

  type Snapshot<V> = seq<(string, V)>

  /** The field names of a snapshot, in order. */
  function Fields<V>(s: Snapshot<V>): (ks: seq<string>)
    ensures |ks| == |s|
    ensures forall i :: 0 <= i < |s| ==> ks[i] == s[i].0
  {
    if s == [] then [] else [s[0].0] + Fields(s[1..])
  }

  /** No name occurs twice in `ks`. */
  ghost predicate DistinctNames(ks: seq<string>)
  {
    forall i, j :: 0 <= i < j < |ks| ==> ks[i] != ks[j]
  }

  /** A Python dictionary never holds a key twice. */
  ghost predicate DistinctFields<V>(s: Snapshot<V>)
  {
    DistinctNames(Fields(s))
  }

  /** `s.get(k)`: the value stored under `k`, if any. */
  function Get<V>(s: Snapshot<V>, k: string): (r: Option<V>)
    ensures r.Some? <==> k in Fields(s)
    ensures r.Some? ==> exists i :: 0 <= i < |s| && s[i] == (k, r.value)
  {
    if s == [] then None
    else if s[0].0 == k then Some(s[0].1)
    else Get(s[1..], k)
  }

  /** `xs` lists some of the elements of `ys`, in the order `ys` has them. */
  predicate IsSubsequence<T(==)>(xs: seq<T>, ys: seq<T>)
  {
    if xs == [] then true
    else if ys == [] then false
    else if xs[0] == ys[0] then IsSubsequence(xs[1..], ys[1..])
    else IsSubsequence(xs, ys[1..])
  }

  /** Field `k` is in the baseline and holds a different value in `after`. */
  ghost predicate ChangedIn<V>(before: Snapshot<V>, after: Snapshot<V>, k: string)
  {
    Get(before, k).Some? && Get(before, k) != Get(after, k)
  }

  /** The pairs behind `diff`: walking the baseline in order, each field
      whose later value differs is kept with its (old, new) pair. Every
      baseline field must be present in `after`, since the later value is
      looked up by plain indexing, which fails on a missing key. */
  function Changes<V(==)>(before: Snapshot<V>, after: Snapshot<V>): (r: Snapshot<(V, V)>)
    requires forall k :: k in Fields(before) ==> k in Fields(after)
    ensures IsSubsequence(Fields(r), Fields(before))
    ensures DistinctFields(before) ==> forall k :: k in Fields(r) <==> ChangedIn(before, after, k)
    ensures DistinctFields(before) ==> forall k :: k in Fields(r) ==>
              Get(before, k).Some? && Get(after, k).Some? &&
              Get(r, k) == Some((Get(before, k).value, Get(after, k).value))
  {
    if before == [] then []
    else
      var (k, v) := before[0];
      var rest := Changes(before[1..], after);
      assert Fields(before) == [k] + Fields(before[1..]);
      assert DistinctFields(before) ==> DistinctFields(before[1..]) && k !in Fields(before[1..]);
      if v != Get(after, k).value then
        var r := [(k, (v, Get(after, k).value))] + rest;
        assert Fields(r) == [k] + Fields(rest);
        assert r[1..] == rest;
        r
      else
        SubsequenceExtend(Fields(rest), k, Fields(before[1..]));
        rest
  }

  // ---------------------------------------------------------------------
  // The helper object
  // ---------------------------------------------------------------------

  class ModelDiffHelper<V(==)> {
    /** `__initial`, the baseline snapshot. */
    var initial: Snapshot<V>
    /** `_new_object`, the later snapshot, `None` until one is set. */
    var newObject: Option<Snapshot<V>>

    /** Both snapshots are dictionaries, and the later one has every field
        of the baseline (both are snapshots of the same model). */
    ghost predicate Valid()
      reads this
    {
      DistinctFields(initial) &&
      (newObject.Some? ==>
        DistinctFields(newObject.value) &&
        forall k :: k in Fields(initial) ==> k in Fields(newObject.value))
    }

    /** Field `k` changed between the two snapshots held. */
    ghost predicate Changed(k: string)
      reads this
    {
      newObject.Some? && ChangedIn(initial, newObject.value, k)
    }

    /** `ModelDiffHelper(initial)`: a baseline, no later snapshot yet. */
    constructor (initial: Snapshot<V>)
      requires DistinctFields(initial)
      ensures Valid()
      ensures this.initial == initial && newObject == None
    {
      this.initial := initial;
      newObject := None;
    }

    /** `set_changed_model`: record `data` as the later snapshot. On any call
        after the first, the baseline is overwritten too, so both snapshots
        are `data` and nothing is reported as changed. Returns the helper. */
    method SetChangedModel(data: Snapshot<V>) returns (self: ModelDiffHelper<V>)
      requires Valid() && DistinctFields(data)
      requires newObject.None? ==> forall k :: k in Fields(initial) ==> k in Fields(data)
      modifies this
      ensures self == this && Valid()
      ensures newObject == Some(data)
      ensures initial == if old(newObject).Some? then data else old(initial)
      ensures old(newObject).Some? ==> Diff() == [] && !HasChanged()
    {
      if newObject.Some? {
        initial := data;
      }
      newObject := Some(data);
      self := this;
      if old(newObject).Some? {
        NothingChangesAgainstItself(data);
      }
    }

    /** `diff`: each changed field mapped to (old value, new value), in
        baseline order; empty when no later snapshot is set or it is empty. */
    function Diff(): (r: Snapshot<(V, V)>)
      requires Valid()
      reads this
      ensures newObject.None? ==> r == []
      ensures IsSubsequence(Fields(r), Fields(initial))
      ensures forall k :: k in Fields(r) <==> Changed(k)
      ensures forall k :: k in Fields(r) ==>
                Get(initial, k).Some? && Get(newObject.value, k).Some? &&
                Get(r, k) == Some((Get(initial, k).value, Get(newObject.value, k).value))
    {
      if newObject.None? || newObject.value == [] then []
      else Changes(initial, newObject.value)
    }

    /** `has_changed`: some field changed. */
    function HasChanged(): (b: bool)
      requires Valid()
      reads this
      ensures b <==> exists k :: Changed(k)
    {
      var d := Diff();
      if d == [] then false else assert Fields(d)[0] in Fields(d); true
    }

    /** `changed_fields`: the names of the changed fields, in baseline order. */
    function ChangedFields(): (fs: seq<string>)
      requires Valid()
      reads this
      ensures IsSubsequence(fs, Fields(initial))
      ensures forall k :: k in fs <==> Changed(k)
    {
      Fields(Diff())
    }

    /** `get_field_diff(field_name)`: the (old, new) pair of a changed field,
        `None` for a field that did not change. */
    function GetFieldDiff(fieldName: string): (r: Option<(V, V)>)
      requires Valid()
      reads this
      ensures r.Some? <==> Changed(fieldName)
      ensures r.Some? ==> r.value == (Get(initial, fieldName).value, Get(newObject.value, fieldName).value)
    {
      Get(Diff(), fieldName)
    }
  }

  /** A snapshot compared with itself has no changes. */
  lemma NothingChangesAgainstItself<V>(s: Snapshot<V>)
    requires DistinctFields(s)
    ensures Changes(s, s) == []
  {
    var r := Changes(s, s);
    assert forall i :: 0 <= i < |r| ==> !ChangedIn(s, s, Fields(r)[i]);
  }

  lemma {:induction false} SubsequenceDropHead<T>(xs: seq<T>, ys: seq<T>)
    requires xs != [] && IsSubsequence(xs, ys)
    ensures IsSubsequence(xs[1..], ys)
    decreases |ys|, 0
  {
    if xs[0] == ys[0] {
      SubsequenceExtend(xs[1..], ys[0], ys[1..]);
      assert [ys[0]] + ys[1..] == ys;
    } else {
      SubsequenceDropHead(xs, ys[1..]);
      SubsequenceExtend(xs[1..], ys[0], ys[1..]);
      assert [ys[0]] + ys[1..] == ys;
    }
  }

  /** A subsequence stays one when an element is put in front. */
  lemma {:induction false} SubsequenceExtend<T>(xs: seq<T>, y: T, ys: seq<T>)
    requires IsSubsequence(xs, ys)
    ensures IsSubsequence(xs, [y] + ys)
    decreases |ys|, 1
  {
    assert ([y] + ys)[1..] == ys;
    if xs != [] && xs[0] == y {
      SubsequenceDropHead(xs, ys);
    }
  }
}
