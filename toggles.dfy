/** The multi-select steps: features (components/Step3_Features.tsx), support
    tiers (components/Step4_Support.tsx) and integrations
    (components/Step6_Integrations.tsx) all flip membership of one id with the
    same `includes` / `filter` / spread expression, written here once. */
module Toggles {
  import opened Wrappers
  import opened Types
  import opened Catalog
  import opened App

  /** `s.filter(y => y !== x)`: every occurrence of `x` dropped, the rest in order. */
  function Without(s: seq<string>, x: string): (r: seq<string>)
    ensures x !in r
    ensures forall y :: y != x ==> (y in r <==> y in s)
    ensures multiset(r)[x] == 0 && forall y :: y != x ==> multiset(r)[y] == multiset(s)[y]
    ensures x !in s ==> r == s
    decreases |s|
  {
    if s == [] then []
    else
      assert s == [s[0]] + s[1..];
      if s[0] == x then Without(s[1..], x)
      else [s[0]] + Without(s[1..], x)
  }

  /** The shared toggle: remove a present element, append an absent one. */
  function Toggle(s: seq<string>, x: string): seq<string> {
    if x in s then Without(s, x) else s + [x]
  }

  /** Filtering distributes over concatenation, so it keeps relative order. */
  lemma {:induction false} WithoutAppend(a: seq<string>, b: seq<string>, x: string)
    ensures Without(a + b, x) == Without(a, x) + Without(b, x)
    decreases |a|
  {
    if a == [] {
      assert a + b == b;
    } else {
      assert (a + b)[0] == a[0] && (a + b)[1..] == a[1..] + b;
      WithoutAppend(a[1..], b, x);
    }
  }

  /** A sub-list picked by filtering keeps distinctness. */
  lemma {:induction false} WithoutKeepsDistinct(s: seq<string>, x: string)
    requires Distinct(s)
    ensures Distinct(Without(s, x))
    decreases |s|
  {
    if s != [] {
      assert Distinct(s[1..]) by {
        forall i, j | 0 <= i < j < |s[1..]| ensures s[1..][i] != s[1..][j] {
          assert s[1..][i] == s[i + 1] && s[1..][j] == s[j + 1];
        }
      }
      WithoutKeepsDistinct(s[1..], x);
      if s[0] != x {
        var rest := Without(s[1..], x);
        assert s[0] !in s[1..];
        assert s[0] !in rest;
        forall i, j | 0 <= i < j < |[s[0]] + rest| ensures ([s[0]] + rest)[i] != ([s[0]] + rest)[j] {
          if i == 0 {
            assert ([s[0]] + rest)[j] == rest[j - 1];
          } else {
            assert ([s[0]] + rest)[i] == rest[i - 1] && ([s[0]] + rest)[j] == rest[j - 1];
          }
        }
      }
    }
  }

  /** A present element is removed entirely; the other elements keep their
      number of occurrences and their relative order. */
  lemma TogglePresent(s: seq<string>, x: string)
    requires x in s
    ensures Toggle(s, x) == Without(s, x)
    ensures x !in Toggle(s, x)
    ensures forall y :: y != x ==> multiset(Toggle(s, x))[y] == multiset(s)[y]
  {
  }

  /** An absent element is appended at the end. */
  lemma ToggleAbsent(s: seq<string>, x: string)
    requires x !in s
    ensures Toggle(s, x) == s + [x]
  {
  }

  /** Toggling flips the membership of `x` and of nothing else. */
  lemma ToggleFlipsOnlyX(s: seq<string>, x: string)
    ensures x in Toggle(s, x) <==> x !in s
    ensures forall y :: y != x ==> (y in Toggle(s, x) <==> y in s)
  {
  }

  /** A duplicate-free list stays duplicate-free. */
  lemma ToggleKeepsDistinct(s: seq<string>, x: string)
    requires Distinct(s)
    ensures Distinct(Toggle(s, x))
  {
    if x in s {
      WithoutKeepsDistinct(s, x);
    }
  }

  /** Toggling twice: from absent it is an exact round trip; from present
      only membership comes back, with `x` moved to the end. */
  lemma ToggleTwice(s: seq<string>, x: string)
    ensures x !in s ==> Toggle(Toggle(s, x), x) == s
    ensures x in s ==> Toggle(Toggle(s, x), x) == Without(s, x) + [x]
    ensures forall y :: y in Toggle(Toggle(s, x), x) <==> y in s
  {
    if x !in s {
      assert x in s + [x];
      WithoutAppend(s, [x], x);
      assert Without([x], x) == [] by { assert [x][1..] == []; }
    }
  }

  /** On a duplicate-free list with `x` last, the double toggle is exact. */
  lemma ToggleTwiceAtEnd(s: seq<string>, x: string)
    requires Distinct(s + [x])
    ensures Toggle(Toggle(s + [x], x), x) == s + [x]
  {
    assert x !in s by {
      forall i | 0 <= i < |s| ensures s[i] != x {
        assert (s + [x])[i] == s[i] && (s + [x])[|s|] == x;
      }
    }
    WithoutAppend(s, [x], x);
    assert Without([x], x) == [] by { assert [x][1..] == []; }
  }

  /** `toggleFeature`: the update it issues writes only `features`. */
  function ToggleFeature(data: WizardData, id: string): (fields: Patch)
    ensures Merge(data, fields) == data.(features := Toggle(data.features, id))
  {
    NoChange.(features := Some(Toggle(data.features, id)))
  }

  /** `toggleSupport`: the update it issues writes only `support`. */
  function ToggleSupport(data: WizardData, id: string): (fields: Patch)
    ensures Merge(data, fields) == data.(support := Toggle(data.support, id))
  {
    NoChange.(support := Some(Toggle(data.support, id)))
  }

  /** `toggleIntegration`: the update it issues writes only `integrations`. */
  function ToggleIntegration(data: WizardData, name: string): (fields: Patch)
    ensures Merge(data, fields) == data.(integrations := Toggle(data.integrations, name))
  {
    NoChange.(integrations := Some(Toggle(data.integrations, name)))
  }

  /** Integration tiles are keyed by name, and names are unique across the
      catalog, so toggling a catalog name changes the selected state of
      exactly one tile. */
  lemma ToggleIntegrationOneTile(selected: seq<string>, k: int)
    requires 0 <= k < |IntegrationNames(IntegrationCategories)|
    ensures var names := IntegrationNames(IntegrationCategories);
      forall j :: 0 <= j < |names| ==>
        ((names[j] in Toggle(selected, names[k])) != (names[j] in selected) <==> j == k)
  {
    var names := IntegrationNames(IntegrationCategories);
    IntegrationNamesUnique();
    ToggleFlipsOnlyX(selected, names[k]);
  }
}
