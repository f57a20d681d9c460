/**
 * base::PairStream: an ordered list of (slot name, object) pairs with
 * first-match searches by slot name, by class type and by object identity.
 * The list is a sequence; the searches walk it front to back with a cursor
 * and stop at the first hit, so none of them changes the list.
 */
module BasePairStream {
  import opened Common

  /** base::Pair: a slot name and the object stored under it. */
  datatype Pair<T> = Pair(slot: string, obj: T)

  /** What a search looks for. `ClassType` stands for `isClassType(type)`. */
  datatype Key<!T> =
    | SlotName(name: string)
    | ClassType(isType: T -> bool)
    | SameObject(target: T)

  predicate Matches<T(==)>(key: Key<T>, p: Pair<T>) {
    match key
    case SlotName(name) => p.slot == name
    case ClassType(isType) => isType(p.obj)
    case SameObject(target) => p.obj == target
  }

  /** The index of the first pair that matches `key`, or None when none does. */
  function FirstMatch<T(==)>(pairs: seq<Pair<T>>, key: Key<T>): (r: Option<nat>)
    ensures r.Some? ==> r.value < |pairs| && Matches(key, pairs[r.value])
    ensures r.Some? ==> forall j :: 0 <= j < r.value ==> !Matches(key, pairs[j])
    ensures r.None? <==> forall j :: 0 <= j < |pairs| ==> !Matches(key, pairs[j])
    decreases |pairs|
  {
    if pairs == [] then None
    else if Matches(key, pairs[0]) then Some(0)
    else match FirstMatch(pairs[1..], key)
      case None => None
      case Some(k) => Some(k + 1)
  }

  /** The pair at an optional index. */
  function PairAt<T>(pairs: seq<Pair<T>>, i: Option<nat>): Option<Pair<T>>
    requires i.Some? ==> i.value < |pairs|
  {
    if i.Some? then Some(pairs[i.value]) else None
  }

  /** The first match is determined by the two facts the search loop keeps. */
  lemma FirstMatchAt<T>(pairs: seq<Pair<T>>, key: Key<T>, k: nat)
    requires k < |pairs| && Matches(key, pairs[k])
    requires forall j :: 0 <= j < k ==> !Matches(key, pairs[j])
    ensures FirstMatch(pairs, key) == Some(k)
  {
  }

  /** The cursor walk of findByType/findByName/findName, returning the pair found. */
  method Search<T(==)>(pairs: seq<Pair<T>>, key: Key<T>) returns (p: Option<Pair<T>>)
    ensures p == PairAt(pairs, FirstMatch(pairs, key))
  {
    p := None;
    var i := 0;
    while i < |pairs| && p.None?
      invariant 0 <= i <= |pairs|
      invariant p.None? ==> forall j :: 0 <= j < i ==> !Matches(key, pairs[j])
      invariant p.Some? ==> 0 < i && FirstMatch(pairs, key) == Some(i - 1) && p == Some(pairs[i - 1])
    {
      if Matches(key, pairs[i]) {
        FirstMatchAt(pairs, key, i);
        p := Some(pairs[i]);
      }
      i := i + 1;
    }
  }

  /**
   * findByType(): the first pair whose object is of the given class type,
   * or None. The const and non-const versions are the same walk.
   */
  method FindByType<T(==)>(pairs: seq<Pair<T>>, isType: T -> bool) returns (p: Option<Pair<T>>)
    ensures p.None? <==> forall j :: 0 <= j < |pairs| ==> !isType(pairs[j].obj)
    ensures p.Some? ==> exists k :: 0 <= k < |pairs| && p.value == pairs[k] && isType(pairs[k].obj)
                          && forall j :: 0 <= j < k ==> !isType(pairs[j].obj)
  {
    p := Search(pairs, ClassType(isType));
    var k := FirstMatch(pairs, ClassType(isType));
    if k.Some? {
      assert forall j :: 0 <= j < k.value ==> !Matches(ClassType(isType), pairs[j]);
    } else {
      assert forall j :: 0 <= j < |pairs| ==> !Matches(ClassType(isType), pairs[j]);
    }
  }

  /**
   * findByName(): the first pair whose slot equals `slotname`, or None; a
   * null name finds nothing.
   */
  method FindByName<T(==)>(pairs: seq<Pair<T>>, slotname: Option<string>) returns (p: Option<Pair<T>>)
    ensures slotname.None? ==> p.None?
    ensures slotname.Some? ==> p == PairAt(pairs, FirstMatch(pairs, SlotName(slotname.value)))
  {
    p := None;
    if slotname.Some? {
      p := Search(pairs, SlotName(slotname.value));
    }
  }

  /**
   * findName(): a copy of the slot name of the first pair holding exactly
   * `obj`, or None when `obj` is null or held by no pair.
   */
  method FindName<T(==)>(pairs: seq<Pair<T>>, obj: Option<T>) returns (name: Option<string>)
    ensures obj.None? ==> name.None?
    ensures obj.Some? ==>
      name == (match FirstMatch(pairs, SameObject(obj.value))
               case None => None
               case Some(k) => Some(pairs[k].slot))
  {
    name := None;
    if obj.Some? {
      var p := Search(pairs, SameObject(obj.value));
      if p.Some? {
        name := Some(p.value.slot);
      }
    }
  }

  /** operator==: the two lists hold equal pairs in the same order. */
  function Equal<T(==)>(a: seq<Pair<T>>, b: seq<Pair<T>>): (r: bool)
    ensures r <==> |a| == |b| && forall i :: 0 <= i < |a| ==> a[i] == b[i]
  {
    a == b
  }

  /** operator!=: the negation of operator==. */
  function NotEqual<T(==)>(a: seq<Pair<T>>, b: seq<Pair<T>>): (r: bool)
    ensures r == !Equal(a, b)
  {
    a != b
  }

  /** A lookup by name never finds a later duplicate of an earlier slot name. */
  lemma {:induction false} FirstByNameIgnoresLaterDuplicates<T>(
    pairs: seq<Pair<T>>, extra: seq<Pair<T>>, name: string)
    requires FirstMatch(pairs, SlotName(name)).Some?
    ensures FirstMatch(pairs + extra, SlotName(name)) == FirstMatch(pairs, SlotName(name))
  {
    var k := FirstMatch(pairs, SlotName(name)).value;
    assert (pairs + extra)[k] == pairs[k];
    forall j | 0 <= j < k ensures !Matches(SlotName(name), (pairs + extra)[j]) {
      assert (pairs + extra)[j] == pairs[j];
    }
    FirstMatchAt(pairs + extra, SlotName(name), k);
  }
}
