/** The resource table (src/res/storage.rs): resources of one kind stored in a
    slot map and addressed by handles. A slot map never hands out a key that
    matches an earlier one, even after a removal; the model draws keys from a
    counter that only grows. Loading a resource is a function parameter. */
module Storage {
  import opened Wrappers

  /** `Handle<T>`: the key of a stored resource. */
  datatype Handle = Handle(key: nat)

  /** The number of leading parameters whose load succeeds: `load_all` stops at the first failure. */
  function FirstFailure<P, T, E>(params: seq<P>, load: P -> Result<T, E>): (n: nat)
    ensures n <= |params|
    ensures forall j :: 0 <= j < n ==> load(params[j]).Ok?
    ensures n < |params| ==> load(params[n]).Err?
    decreases |params|
  {
    if params == [] || load(params[0]).Err? then 0
    else 1 + FirstFailure(params[1..], load)
  }

  class Storage<T> {
    /** The slot map, from key to resource. */
    var slots: map<nat, T>
    /** The next key the slot map will hand out. */
    var nextKey: nat

    /** Every stored key was handed out before. */
    ghost predicate Valid()
      reads this
    {
      forall k :: k in slots ==> k < nextKey
    }

    /** `Storage::new` (and `Default`): an empty table. */
    constructor ()
      ensures Valid() && slots == map[]
    {
      slots := map[];
      nextKey := 0;
    }

    /** `Storage::load`: a failed load returns its error and stores nothing; a successful
        one stores the resource under a key no stored resource had and returns its handle. */
    method Load<P, E>(params: P, load: P -> Result<T, E>) returns (r: Result<Handle, E>)
      requires Valid()
      modifies this
      ensures Valid()
      ensures load(params).Err? ==>
        r == Err(load(params).error) && slots == old(slots) && nextKey == old(nextKey)
      ensures load(params).Ok? ==>
        r == Ok(Handle(old(nextKey))) && r.value.key !in old(slots) &&
        slots == old(slots)[r.value.key := load(params).value] && nextKey == old(nextKey) + 1
    {
      var resource := load(params);
      if resource.Err? {
        return Err(resource.error);
      }
      var key := nextKey;
      slots := slots[key := resource.value];
      nextKey := nextKey + 1;
      r := Ok(Handle(key));
    }

    /** `Storage::load_all`: loads in order and returns the handles in that order; at the
        first failure it returns that error and keeps the resources already stored. */
    method LoadAll<P, E>(params: seq<P>, load: P -> Result<T, E>) returns (r: Result<seq<Handle>, E>)
      requires Valid()
      modifies this
      ensures Valid()
      ensures var n := FirstFailure(params, load);
        nextKey == old(nextKey) + n &&
        (forall k :: k in slots <==> k in old(slots) || old(nextKey) <= k < nextKey) &&
        (forall k :: k in old(slots) ==> slots[k] == old(slots)[k]) &&
        (forall j :: 0 <= j < n ==> slots[old(nextKey) + j] == load(params[j]).value)
      ensures var n := FirstFailure(params, load);
        (r.Ok? <==> n == |params|) &&
        (r.Ok? ==> |r.value| == |params| && forall j :: 0 <= j < |params| ==> r.value[j] == Handle(old(nextKey) + j)) &&
        (r.Err? ==> r.error == load(params[n]).error)
    {
      var handles: seq<Handle> := [];
      var i := 0;
      while i < |params|
        invariant 0 <= i <= |params| && Valid()
        invariant forall j :: 0 <= j < i ==> load(params[j]).Ok?
        invariant nextKey == old(nextKey) + i
        invariant |handles| == i && forall j :: 0 <= j < i ==> handles[j] == Handle(old(nextKey) + j)
        invariant forall k :: k in slots <==> k in old(slots) || old(nextKey) <= k < nextKey
        invariant forall k :: k in old(slots) ==> slots[k] == old(slots)[k]
        invariant forall j :: 0 <= j < i ==> slots[old(nextKey) + j] == load(params[j]).value
      {
        var h := Load(params[i], load);
        if h.Err? {
          FirstFailureAt(params, load, i);
          return Err(h.error);
        }
        handles := handles + [h.value];
        i := i + 1;
      }
      FirstFailureAt(params, load, |params|);
      r := Ok(handles);
    }

    /** `Storage::get`. */
    function Get(h: Handle): (r: Option<T>)
      reads this
      ensures r.Some? <==> h.key in slots
      ensures r.Some? ==> r.value == slots[h.key]
    {
      if h.key in slots then Some(slots[h.key]) else None
    }

    /** `Storage::get_mut`: the caller's edit through the returned reference is the
        function `edit`; it applies to the stored resource, if there is one. */
    method GetMut(h: Handle, edit: T -> T) returns (found: bool)
      requires Valid()
      modifies this
      ensures Valid()
      ensures found <==> h.key in old(slots)
      ensures found ==> slots == old(slots)[h.key := edit(old(slots)[h.key])]
      ensures !found ==> slots == old(slots)
      ensures nextKey == old(nextKey)
    {
      found := h.key in slots;
      if found {
        slots := slots[h.key := edit(slots[h.key])];
      }
    }

    /** `Storage::remove`: returns the stored resource, which is then gone. */
    method Remove(h: Handle) returns (r: Option<T>)
      requires Valid()
      modifies this
      ensures Valid()
      ensures r == if h.key in old(slots) then Some(old(slots)[h.key]) else None
      ensures slots == old(slots) - {h.key} && nextKey == old(nextKey)
      ensures !Contains(h) && Get(h).None?
    {
      r := if h.key in slots then Some(slots[h.key]) else None;
      slots := slots - {h.key};
    }

    /** `Storage::contains`. */
    function Contains(h: Handle): (b: bool)
      reads this
      ensures b <==> Get(h).Some?
    {
      h.key in slots
    }
  }

  /** `FirstFailure` is the index of the first failing load, or the length if none fails. */
  lemma {:induction false} FirstFailureAt<P, T, E>(params: seq<P>, load: P -> Result<T, E>, i: nat)
    requires i <= |params|
    requires forall j :: 0 <= j < i ==> load(params[j]).Ok?
    requires i < |params| ==> load(params[i]).Err?
    ensures FirstFailure(params, load) == i
    decreases i
  {
    if i > 0 {
      assert forall j :: 0 <= j < i - 1 ==> params[1..][j] == params[j + 1];
      FirstFailureAt(params[1..], load, i - 1);
    }
  }
}
