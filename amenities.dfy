/**
 * The amenity filter panel: toggling an amenity in the selection, clearing
 * the selection, and the two action buttons.
 */
module AmenityFilter {
  import opened Lists

  /** The amenity ids the panel offers, in grid order. */
  const Amenities: seq<string> := ["EV Charging", "Security", "24/7", "Covered", "Valet", "Premium", "Shuttle"]

  function Without(id: string): string -> bool {
    (a: string) => a != id
  }

  /** `toggleAmenity(id)`: drop every occurrence of a selected id, or append an unselected one. */
  function Toggle(selected: seq<string>, id: string): seq<string> {
    if id in selected then Filter(selected, Without(id)) else selected + [id]
  }

  /** A button is highlighted when its id is in the selection. */
  predicate IsSelected(selected: seq<string>, id: string) {
    id in selected
  }

  /**
   * Toggling a selected id removes every occurrence of it and keeps the other
   * ids in their order; toggling an unselected id appends it at the end.
   */
  lemma ToggleSpec(selected: seq<string>, id: string)
    ensures id in selected ==>
      id !in Toggle(selected, id) &&
      IsSubsequence(Toggle(selected, id), selected) &&
      forall a :: a != id ==> (a in Toggle(selected, id) <==> a in selected)
    ensures id !in selected ==> Toggle(selected, id) == selected + [id]
  {
    if id in selected {
      FilterSubsequence(selected, Without(id));
      FilterMembers(selected, Without(id), id);
      forall a | a != id ensures a in Toggle(selected, id) <==> a in selected {
        FilterMembers(selected, Without(id), a);
      }
    }
  }

  /** A toggle flips the highlight of its own button and of no other. */
  lemma ToggleFlips(selected: seq<string>, id: string, other: string)
    ensures IsSelected(Toggle(selected, id), id) == !IsSelected(selected, id)
    ensures other != id ==> IsSelected(Toggle(selected, id), other) == IsSelected(selected, other)
  {
    ToggleSpec(selected, id);
  }

  /** Toggling keeps a selection free of repetitions. */
  lemma ToggleKeepsNoDup(selected: seq<string>, id: string)
    requires NoDup(selected)
    ensures NoDup(Toggle(selected, id))
  {
    if id in selected {
      FilterNoDup(selected, Without(id));
    } else {
      var r := selected + [id];
      forall i, j | 0 <= i < j < |r| ensures r[i] != r[j] {
        if j == |selected| { assert r[i] == selected[i]; }
      }
    }
  }

  /** Dropping an id keeps the count of every other id and removes it entirely. */
  lemma {:induction false} FilterOutCounts(s: seq<string>, id: string)
    ensures multiset(Filter(s, Without(id))) == multiset(s)[id := 0]
  {
    if s != [] {
      FilterOutCounts(s[1..], id);
      assert s == [s[0]] + s[1..];
    }
  }

  /** In a list without repetitions each element occurs at most once. */
  lemma {:induction false} NoDupCount(s: seq<string>, x: string)
    requires NoDup(s)
    ensures multiset(s)[x] <= 1
  {
    if s != [] {
      assert NoDup(s[1..]) by {
        forall i, j | 0 <= i < j < |s[1..]| ensures s[1..][i] != s[1..][j] {
          assert s[1..][i] == s[i + 1] && s[1..][j] == s[j + 1];
        }
      }
      NoDupCount(s[1..], x);
      assert s == [s[0]] + s[1..];
      if x == s[0] {
        forall j | 0 <= j < |s[1..]| ensures s[1..][j] != x {
          assert s[1..][j] == s[j + 1];
        }
        assert x !in multiset(s[1..]);
      }
    }
  }

  /**
   * Toggling the same id twice restores the selection when the id was not
   * selected, and otherwise moves it to the end: on a selection without
   * repetitions the same ids are selected, with the same counts.
   */
  lemma ToggleTwice(selected: seq<string>, id: string)
    ensures id !in selected ==> Toggle(Toggle(selected, id), id) == selected
    ensures id in selected ==> Toggle(Toggle(selected, id), id) == Filter(selected, Without(id)) + [id]
    ensures NoDup(selected) ==> multiset(Toggle(Toggle(selected, id), id)) == multiset(selected)
  {
    if id !in selected {
      FilterAppend(selected, [id], Without(id));
      FilterAll(selected, Without(id));
      assert Filter([id], Without(id)) == [];
      assert selected + [id] + [] == selected + [id];
      FilterMembers(selected + [id], Without(id), id);
      assert Toggle(Toggle(selected, id), id) == Filter(selected + [id], Without(id));
    } else {
      FilterMembers(selected, Without(id), id);
      if NoDup(selected) {
        FilterOutCounts(selected, id);
        NoDupCount(selected, id);
      }
    }
  }

  /** When the id is the last one selected, toggling it twice restores the selection exactly. */
  lemma ToggleTwiceLast(selected: seq<string>, id: string)
    requires NoDup(selected) && selected != [] && selected[|selected| - 1] == id
    ensures Toggle(Toggle(selected, id), id) == selected
  {
    var prefix := selected[..|selected| - 1];
    assert selected == prefix + [id];
    assert id !in prefix by {
      forall j | 0 <= j < |prefix| ensures prefix[j] != id {
        assert prefix[j] == selected[j];
      }
    }
    FilterAppend(prefix, [id], Without(id));
    FilterAll(prefix, Without(id));
    assert Filter([id], Without(id)) == [];
    assert prefix + [] == prefix;
    ToggleTwice(selected, id);
  }

  /** Toggling a selected id that is not last twice reorders the selection. */
  lemma ToggleTwiceReorders()
    ensures Toggle(Toggle(["Security", "Valet"], "Security"), "Security") == ["Valet", "Security"]
  {
    var s: seq<string> := ["Security", "Valet"];
    assert Filter(s, Without("Security")) == ["Valet"] by {
      assert s[1..] == ["Valet"];
      assert Filter(s[1..][1..], Without("Security")) == [];
    }
  }

  /** `clearAll`: the selection becomes empty. */
  function ClearAll(selected: seq<string>): (r: seq<string>)
    ensures forall id :: !IsSelected(r, id)
  {
    []
  }

  /** Clear All is enabled only while something is selected. */
  predicate ClearAllEnabled(selected: seq<string>) {
    |selected| != 0
  }

  /** The number on the Apply button. */
  function ApplyCount(selected: seq<string>): nat {
    |selected|
  }

  /**
   * Clear All is enabled exactly when some amenity is highlighted, and after
   * it nothing is highlighted, Clear All is disabled and Apply shows 0.
   */
  lemma ClearAllSpec(selected: seq<string>)
    ensures ClearAllEnabled(selected) <==> exists id :: IsSelected(selected, id)
    ensures !ClearAllEnabled(ClearAll(selected)) && ApplyCount(ClearAll(selected)) == 0
  {
    if ClearAllEnabled(selected) {
      assert IsSelected(selected, selected[0]);
    }
  }
}
