/** List updates by record id, as the list pages do them with
    `list.filter(x => x.id !== id)` and `list.map(x => x.id === id ? y : x)`.
    The id of a record is read through `idOf`. */
module Records {

  /** No two records of the list share an id. */
  predicate UniqueIds<T>(s: seq<T>, idOf: T -> int)
  {
    forall i, j :: 0 <= i < j < |s| ==> idOf(s[i]) != idOf(s[j])
  }

  /** `s.filter(x => idOf(x) !== id)`: keeps exactly the records whose id differs. */
  function WithoutId<T(!new)>(s: seq<T>, id: int, idOf: T -> int): (r: seq<T>)
    ensures |r| <= |s|
    ensures forall x :: x in r <==> x in s && idOf(x) != id
  {
    if s == [] then []
    else if idOf(s[0]) != id then [s[0]] + WithoutId(s[1..], id, idOf)
    else WithoutId(s[1..], id, idOf)
  }

  /** Filtering distributes over concatenation, so the records kept stay in
      their original order (together with the membership fact this pins the
      result down). */
  lemma {:induction false} WithoutIdAppend<T(!new)>(a: seq<T>, b: seq<T>, id: int, idOf: T -> int)
    ensures WithoutId(a + b, id, idOf) == WithoutId(a, id, idOf) + WithoutId(b, id, idOf)
  {
    if a != [] {
      assert (a + b)[0] == a[0];
      assert (a + b)[1..] == a[1..] + b;
      WithoutIdAppend(a[1..], b, id, idOf);
      var rest := WithoutId(a[1..], id, idOf);
      assert ([a[0]] + rest) + WithoutId(b, id, idOf) == [a[0]] + (rest + WithoutId(b, id, idOf));
    } else {
      assert a + b == b;
    }
  }

  /** Removing an id that no record carries leaves the list as it was. */
  lemma {:induction false} WithoutAbsentId<T(!new)>(s: seq<T>, id: int, idOf: T -> int)
    requires forall k :: 0 <= k < |s| ==> idOf(s[k]) != id
    ensures WithoutId(s, id, idOf) == s
  {
    if s != [] {
      WithoutAbsentId(s[1..], id, idOf);
    }
  }

  /** With unique ids, removing the id of a record that is present takes out
      exactly that record: the list shrinks by one and the others keep their order. */
  lemma {:induction false} WithoutPresentUniqueId<T(!new)>(s: seq<T>, k: nat, idOf: T -> int)
    requires k < |s| && UniqueIds(s, idOf)
    ensures WithoutId(s, idOf(s[k]), idOf) == s[..k] + s[k + 1..]
    ensures |WithoutId(s, idOf(s[k]), idOf)| == |s| - 1
  {
    var id := idOf(s[k]);
    assert s == s[..k] + [s[k]] + s[k + 1..];
    WithoutIdAppend(s[..k] + [s[k]], s[k + 1..], id, idOf);
    WithoutIdAppend(s[..k], [s[k]], id, idOf);
    WithoutAbsentId(s[..k], id, idOf);
    WithoutAbsentId(s[k + 1..], id, idOf);
    assert WithoutId([s[k]], id, idOf) == [];
  }

  /** `s.map(x => idOf(x) === id ? y : x)`: every record with that id is
      replaced by `y`, every other record stays where it was. */
  function ReplaceId<T>(s: seq<T>, id: int, y: T, idOf: T -> int): (r: seq<T>)
    ensures |r| == |s|
    ensures forall k :: 0 <= k < |s| && idOf(s[k]) != id ==> r[k] == s[k]
    ensures forall k :: 0 <= k < |s| && idOf(s[k]) == id ==> r[k] == y
  {
    seq(|s|, k requires 0 <= k < |s| => if idOf(s[k]) == id then y else s[k])
  }

  /** A replacement that keeps the id keeps the ids unique. */
  lemma ReplaceKeepsUniqueIds<T>(s: seq<T>, id: int, y: T, idOf: T -> int)
    requires UniqueIds(s, idOf) && idOf(y) == id
    ensures UniqueIds(ReplaceId(s, id, y, idOf), idOf)
  {
    var r := ReplaceId(s, id, y, idOf);
    forall i, j | 0 <= i < j < |r|
      ensures idOf(r[i]) != idOf(r[j])
    {
      assert idOf(r[i]) == idOf(s[i]) && idOf(r[j]) == idOf(s[j]);
    }
  }
}
