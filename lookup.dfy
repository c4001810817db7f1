/** First-match lookup by identifier: the linear scan every manager of the
    shop performs (menu item by id, customer by id, order by id). */
module Lookup {
  import opened Results

  /** No element occurs twice (for lists of objects: no object is listed
      under two positions). */
  ghost predicate Distinct<T>(s: seq<T>) {
    forall i, j :: 0 <= i < j < |s| ==> s[i] != s[j]
  }

  /** Position of the first element of `s` whose key is `id`, if any. */
  function FirstIndex<T>(s: seq<T>, key: T -> string, id: string): (r: Option<nat>)
    ensures r.Some? ==> r.value < |s| && key(s[r.value]) == id
    ensures r.Some? ==> forall j :: 0 <= j < r.value ==> key(s[j]) != id
    ensures r.None? ==> forall j :: 0 <= j < |s| ==> key(s[j]) != id
  {
    if s == [] then None
    else if key(s[0]) == id then Some(0)
    else match FirstIndex(s[1..], key, id)
      case None => None
      case Some(k) => Some(k + 1)
  }

  /** The first element of `s` whose key is `id`, if any: it stands at a
      position with no match before it. */
  function Find<T>(s: seq<T>, key: T -> string, id: string): (r: Option<T>)
    ensures r.Some? <==> exists i :: 0 <= i < |s| && key(s[i]) == id
    ensures r.Some? ==> r.value in s && key(r.value) == id
    ensures r.Some? ==> exists i :: 0 <= i < |s| && s[i] == r.value && forall j :: 0 <= j < i ==> key(s[j]) != id
  {
    match FirstIndex(s, key, id)
    case None => None
    case Some(i) => Some(s[i])
  }

  /** Any position that is a match with no match before it is the one
      `FirstIndex` reports. */
  lemma FirstIndexUnique<T>(s: seq<T>, key: T -> string, id: string, i: nat)
    requires i < |s| && key(s[i]) == id
    requires forall j :: 0 <= j < i ==> key(s[j]) != id
    ensures FirstIndex(s, key, id) == Some(i)
  {
  }

  /** Appending an element never changes an existing first match: a later
      element with an id already present is shadowed by the earlier one,
      and it is found only when nothing before it has that id. */
  lemma {:induction false} FirstIndexAppend<T>(s: seq<T>, x: T, key: T -> string, id: string)
    ensures FirstIndex(s + [x], key, id) ==
      match FirstIndex(s, key, id)
      case Some(i) => Some(i)
      case None => if key(x) == id then Some(|s|) else None
  {
    var t := s + [x];
    assert forall j :: 0 <= j < |s| ==> t[j] == s[j];
    match FirstIndex(s, key, id)
    case Some(i) =>
      FirstIndexUnique(t, key, id, i);
    case None =>
      if key(x) == id {
        FirstIndexUnique(t, key, id, |s|);
      } else {
        assert forall j :: 0 <= j < |t| ==> key(t[j]) != id;
      }
  }

  /** Appending an element whose id already occurs changes no lookup at all. */
  lemma FindAppendShadowed<T>(s: seq<T>, x: T, key: T -> string, id: string)
    requires FirstIndex(s, key, key(x)).Some?
    ensures Find(s + [x], key, id) == Find(s, key, id)
  {
    FirstIndexAppend(s, x, key, id);
    var t := s + [x];
    match FirstIndex(s, key, id)
    case Some(i) =>
      assert t[i] == s[i];
    case None =>
      assert key(x) != id by {
        var k := FirstIndex(s, key, key(x)).value;
        assert key(s[k]) == key(x);
      }
  }
}
