/** The platform step (components/Step2_Platforms.tsx): a list of
    `{id, quantity}` lines edited by +1/-1 buttons and by clicking a card. */
module Step2Platforms {
  import opened Wrappers
  import opened Types

  /** No two lines share an id: the list behaves as a map keyed by id. */
  predicate UniqueById(ps: seq<PlatformSelection>) {
    forall i, j :: 0 <= i < j < |ps| ==> ps[i].id != ps[j].id
  }

  /** Every stored quantity is at least 1: a line that reaches 0 is dropped. */
  predicate PositiveQuantities(ps: seq<PlatformSelection>) {
    forall i :: 0 <= i < |ps| ==> ps[i].quantity >= 1
  }

  /** The invariant the step keeps on `platforms`; the type alone does not. */
  predicate ValidPlatforms(ps: seq<PlatformSelection>) {
    UniqueById(ps) && PositiveQuantities(ps)
  }

  /** `findIndex(p => p.id === id)`: the first line with that id, or -1. */
  function IndexOf(ps: seq<PlatformSelection>, id: string): (r: int)
    ensures -1 <= r < |ps|
    ensures r >= 0 ==> ps[r].id == id && forall j :: 0 <= j < r ==> ps[j].id != id
    ensures r < 0 ==> forall j :: 0 <= j < |ps| ==> ps[j].id != id
    decreases |ps|
  {
    if ps == [] then -1
    else if ps[0].id == id then 0
    else
      var k := IndexOf(ps[1..], id);
      if k < 0 then -1 else k + 1
  }

  /** `getQuantity`: `find(...)?.quantity || 0`, the quantity on the first
      line with that id, or 0 when there is none. */
  function GetQuantity(ps: seq<PlatformSelection>, id: string): (q: int)
    ensures (forall j :: 0 <= j < |ps| ==> ps[j].id != id) ==> q == 0
    ensures ValidPlatforms(ps) ==> (q > 0 <==> exists j :: 0 <= j < |ps| && ps[j].id == id)
  {
    var i := IndexOf(ps, id);
    if i < 0 then 0 else ps[i].quantity
  }

  /** On a valid list, a selected id reads back the quantity stored on its line. */
  lemma StoredQuantity(ps: seq<PlatformSelection>, j: int)
    requires ValidPlatforms(ps) && 0 <= j < |ps|
    ensures GetQuantity(ps, ps[j].id) == ps[j].quantity
  {
    IndexOfDetermined(ps, j, ps[j].id);
  }

  /** The lines of every other id, in their order. */
  function Others(ps: seq<PlatformSelection>, id: string): seq<PlatformSelection>
    decreases |ps|
  {
    if ps == [] then []
    else if ps[0].id == id then Others(ps[1..], id)
    else [ps[0]] + Others(ps[1..], id)
  }

  /** The list `updateQuantity(id, delta)` publishes. A present line gets
      `quantity + delta`, and is removed if that is 0 or less; an absent id
      with a positive delta is appended with quantity 1, whatever the delta;
      otherwise the list is unchanged. */
  function Updated(ps: seq<PlatformSelection>, id: string, delta: int): seq<PlatformSelection> {
    var i := IndexOf(ps, id);
    if i >= 0 then
      var quantity := ps[i].quantity + delta;
      if quantity <= 0 then ps[..i] + ps[i + 1..]
      else ps[i := ps[i].(quantity := quantity)]
    else if delta > 0 then ps + [PlatformSelection(id, 1)]
    else ps
  }

  /** `currentList.findIndex(p => p.id === id)` on the copied list. */
  method FindIndex(list: array<PlatformSelection>, id: string) returns (index: int)
    ensures index == IndexOf(list[..], id)
  {
    index := 0;
    while index < list.Length
      invariant 0 <= index <= list.Length
      invariant forall j :: 0 <= j < index ==> list[j].id != id
    {
      if list[index].id == id {
        IndexOfDetermined(list[..], index, id);
        return;
      }
      index := index + 1;
    }
    index := -1;
  }

  /** `updateQuantity`: copy the list, look the id up, then drop the line,
      overwrite its quantity in place, or append a new line. `None` means no
      update is issued at all (absent id, non-positive delta). */
  method UpdateQuantity(platforms: seq<PlatformSelection>, id: string, delta: int)
    returns (published: Option<seq<PlatformSelection>>)
    ensures published.None? <==> IndexOf(platforms, id) < 0 && delta <= 0
    ensures published.Some? ==> published.value == Updated(platforms, id, delta)
  {
    var currentList := new PlatformSelection[|platforms|](i requires 0 <= i < |platforms| => platforms[i]);
    assert currentList[..] == platforms;
    var existingIndex := FindIndex(currentList, id);
    if existingIndex >= 0 {
      var newQuantity := currentList[existingIndex].quantity + delta;
      if newQuantity <= 0 {
        published := Some(currentList[..existingIndex] + currentList[existingIndex + 1..]);
        SpliceIsUpdated(platforms, id, delta, published.value);
      } else {
        currentList[existingIndex] := currentList[existingIndex].(quantity := newQuantity);
        published := Some(currentList[..]);
      }
    } else if delta > 0 {
      published := Some(currentList[..] + [PlatformSelection(id, 1)]);
    } else {
      published := None;
    }
  }

  /** Dropping the found line is the removal case of `Updated`. */
  lemma SpliceIsUpdated(ps: seq<PlatformSelection>, id: string, delta: int, r: seq<PlatformSelection>)
    requires 0 <= IndexOf(ps, id) && ps[IndexOf(ps, id)].quantity + delta <= 0
    requires r == ps[..IndexOf(ps, id)] + ps[IndexOf(ps, id) + 1..]
    ensures r == Updated(ps, id, delta)
  {
  }

  /** A click on a platform card adds it (+1) only when it is not selected. */
  method CardClick(platforms: seq<PlatformSelection>, id: string)
    returns (published: Option<seq<PlatformSelection>>)
    ensures published.Some? <==> GetQuantity(platforms, id) <= 0
    ensures published.Some? ==> published.value == Updated(platforms, id, 1)
  {
    var isSelected := GetQuantity(platforms, id) > 0;
    if isSelected {
      published := None;
    } else {
      published := UpdateQuantity(platforms, id, 1);
    }
  }

  /** The first line with the id is at `k`. */
  lemma IndexOfDetermined(ps: seq<PlatformSelection>, k: int, id: string)
    requires 0 <= k < |ps| && ps[k].id == id
    requires forall j :: 0 <= j < k ==> ps[j].id != id
    ensures IndexOf(ps, id) == k
  {
  }

  lemma {:induction false} OthersAppend(a: seq<PlatformSelection>, b: seq<PlatformSelection>, id: string)
    ensures Others(a + b, id) == Others(a, id) + Others(b, id)
    decreases |a|
  {
    if a == [] {
      assert a + b == b;
    } else {
      assert (a + b)[0] == a[0] && (a + b)[1..] == a[1..] + b;
      OthersAppend(a[1..], b, id);
    }
  }

  /** A line carrying `id` is invisible to `Others(_, id)`. */
  lemma OthersSkipsLine(a: seq<PlatformSelection>, line: PlatformSelection, b: seq<PlatformSelection>, id: string)
    requires line.id == id
    ensures Others(a + [line] + b, id) == Others(a + b, id)
  {
    assert a + [line] + b == a + ([line] + b);
    OthersAppend(a, [line] + b, id);
    OthersAppend(a, b, id);
    assert ([line] + b)[0] == line && ([line] + b)[1..] == b;
  }

  /** Lines of other ids keep their values and their relative order, through
      an in-place update, a removal by splice, or an append. */
  lemma UpdatedKeepsOthers(ps: seq<PlatformSelection>, id: string, delta: int)
    ensures Others(Updated(ps, id, delta), id) == Others(ps, id)
  {
    var i := IndexOf(ps, id);
    if i >= 0 {
      var quantity := ps[i].quantity + delta;
      assert ps == ps[..i] + [ps[i]] + ps[i + 1..];
      OthersSkipsLine(ps[..i], ps[i], ps[i + 1..], id);
      if quantity > 0 {
        var line := ps[i].(quantity := quantity);
        assert ps[i := line] == ps[..i] + [line] + ps[i + 1..];
        OthersSkipsLine(ps[..i], line, ps[i + 1..], id);
      }
    } else if delta > 0 {
      var line := PlatformSelection(id, 1);
      assert ps + [line] == ps + [line] + [] && ps + [] == ps;
      OthersSkipsLine(ps, line, [], id);
    }
  }

  /** The quantity of every other id is unchanged. */
  lemma UpdatedOtherQuantities(ps: seq<PlatformSelection>, id: string, delta: int, other: string)
    requires other != id
    ensures GetQuantity(Updated(ps, id, delta), other) == GetQuantity(ps, other)
  {
    var r := Updated(ps, id, delta);
    var i := IndexOf(ps, id);
    var k := IndexOf(ps, other);
    if i >= 0 {
      var quantity := ps[i].quantity + delta;
      if quantity <= 0 {
        assert |r| == |ps| - 1;
        assert forall j :: 0 <= j < i ==> r[j] == ps[j];
        assert forall j :: i <= j < |r| ==> r[j] == ps[j + 1];
        if k < 0 {
          assert forall j :: 0 <= j < |r| ==> r[j].id != other;
        } else if k < i {
          IndexOfDetermined(r, k, other);
        } else {
          assert k != i;
          IndexOfDetermined(r, k - 1, other);
        }
      } else {
        if k >= 0 {
          IndexOfDetermined(r, k, other);
        } else {
          assert forall j :: 0 <= j < |r| ==> r[j].id != other;
        }
      }
    } else if delta > 0 {
      if k >= 0 {
        IndexOfDetermined(r, k, other);
      } else {
        assert forall j :: 0 <= j < |r| ==> r[j].id != other;
      }
    }
  }

  /** For a valid list: a selected id's quantity becomes old + delta, or the
      line disappears (quantity 0) when that is 0 or less; an unselected id
      gets quantity 1 for any positive delta and stays at 0 otherwise. */
  lemma UpdatedQuantity(ps: seq<PlatformSelection>, id: string, delta: int)
    requires ValidPlatforms(ps)
    ensures var q := GetQuantity(ps, id);
      GetQuantity(Updated(ps, id, delta), id)
      == if q > 0 then (if q + delta > 0 then q + delta else 0)
         else if delta > 0 then 1 else 0
  {
    var r := Updated(ps, id, delta);
    var i := IndexOf(ps, id);
    if i >= 0 {
      var quantity := ps[i].quantity + delta;
      if quantity <= 0 {
        assert forall j :: 0 <= j < i ==> r[j] == ps[j];
        assert forall j :: i <= j < |r| ==> r[j] == ps[j + 1];
        assert forall j :: 0 <= j < |r| ==> r[j].id != id;
      } else {
        IndexOfDetermined(r, i, id);
      }
    } else if delta > 0 {
      IndexOfDetermined(r, |ps|, id);
    }
  }

  /** `updateQuantity` keeps lines unique by id with every quantity at least 1. */
  lemma UpdatedValid(ps: seq<PlatformSelection>, id: string, delta: int)
    requires ValidPlatforms(ps)
    ensures ValidPlatforms(Updated(ps, id, delta))
  {
    var r := Updated(ps, id, delta);
    var i := IndexOf(ps, id);
    if i >= 0 && ps[i].quantity + delta <= 0 {
      assert forall j :: 0 <= j < i ==> r[j] == ps[j];
      assert forall j :: i <= j < |r| ==> r[j] == ps[j + 1];
    }
  }

  /** An absent id with a positive delta is appended at the end with quantity 1. */
  lemma NewLineAppended(ps: seq<PlatformSelection>, id: string, delta: int)
    requires forall j :: 0 <= j < |ps| ==> ps[j].id != id
    requires delta > 0
    ensures Updated(ps, id, delta) == ps + [PlatformSelection(id, 1)]
  {
  }

  /** +1 then -1 on an unselected id gives back the original list. */
  lemma AddThenRemove(ps: seq<PlatformSelection>, id: string)
    requires forall j :: 0 <= j < |ps| ==> ps[j].id != id
    ensures Updated(Updated(ps, id, 1), id, -1) == ps
  {
    var r := ps + [PlatformSelection(id, 1)];
    IndexOfDetermined(r, |ps|, id);
    assert r[..|ps|] == ps && r[|ps| + 1..] == [];
  }

  /** On a valid list, clicking an unselected card appends that platform once. */
  lemma CardClickAppends(ps: seq<PlatformSelection>, id: string)
    requires ValidPlatforms(ps) && GetQuantity(ps, id) <= 0
    ensures Updated(ps, id, 1) == ps + [PlatformSelection(id, 1)]
  {
  }
}
