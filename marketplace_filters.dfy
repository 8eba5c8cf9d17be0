/** The marketplace filter panel: the marketplace checkboxes, whose selection
    belongs to the page and is reported through `onFilterChange`, and the
    status and equipment checkboxes, whose selections the panel keeps itself
    (and never forwards). */
module MarketplaceFilters {
  import opened Seqs
  import opened Types

  /** No value occurs twice. */
  predicate Distinct(s: seq<string>) {
    forall i, j :: 0 <= i < j < |s| ==> s[i] != s[j]
  }

  /** The list `handleMarketplaceToggle` emits: a selected id loses its first
      occurrence (`indexOf` then `splice(index, 1)`), an unselected one is
      pushed at the end. */
  function ToggledMarketplaces(selected: seq<string>, id: string): seq<string> {
    match FirstIndex(selected, (s: string) => s == id)
    case Some(i) => selected[..i] + selected[i + 1..]
    case None => selected + [id]
  }

  /** The list `toggleStatus` and `toggleEquipment` compute: a selected id is
      filtered out, every occurrence of it, an unselected one is appended. */
  function ToggledOption(selected: seq<string>, id: string): seq<string> {
    if id in selected then Filter(selected, (s: string) => s != id)
    else selected + [id]
  }

  /** `marketplaces.map(m => m.id)`: the list Select All emits. */
  function Ids(marketplaces: seq<Marketplace>): (r: seq<string>)
    ensures |r| == |marketplaces|
    ensures forall i :: 0 <= i < |r| ==> r[i] == marketplaces[i].id
  {
    seq(|marketplaces|, i requires 0 <= i < |marketplaces| => marketplaces[i].id)
  }

  /** The number on the Clear Filters button; the button is shown exactly
      when the number is not zero, that is when some selection is non-empty. */
  function BadgeCount(marketplaces: seq<string>, status: seq<string>, equipment: seq<string>): (n: nat)
    ensures n == 0 <==> marketplaces == [] && status == [] && equipment == []
    ensures n >= |marketplaces| && n >= |status| && n >= |equipment|
  {
    |marketplaces| + |status| + |equipment|
  }

  /** The marketplace toggle removes one copy of a selected id or adds one
      copy of an unselected id, and keeps the other ids where they were. */
  lemma ToggleMarketplaceCounts(selected: seq<string>, id: string)
    ensures id in selected ==> multiset(ToggledMarketplaces(selected, id)) == multiset(selected) - multiset{id}
    ensures id !in selected ==> multiset(ToggledMarketplaces(selected, id)) == multiset(selected) + multiset{id}
  {
    match FirstIndex(selected, (s: string) => s == id)
    case Some(i) =>
      assert selected == selected[..i] + [selected[i]] + selected[i + 1..];
    case None =>
  }

  /** On a selection without repeats, the marketplace toggle flips the
      toggled id, leaves every other id as it was, and keeps the selection
      free of repeats. */
  lemma ToggleMarketplaceFlips(selected: seq<string>, id: string)
    requires Distinct(selected)
    ensures var r := ToggledMarketplaces(selected, id);
      && (id in r <==> id !in selected)
      && (forall x :: x != id ==> (x in r <==> x in selected))
      && Distinct(r)
  {
    var k := FirstIndex(selected, (s: string) => s == id);
    if k.Some? {
      var i := k.value;
      assert selected == selected[..i] + [selected[i]] + selected[i + 1..];
      DropKeepsDistinct(selected, i);
    } else {
      var r := selected + [id];
      forall a, b | 0 <= a < b < |r|
        ensures r[a] != r[b]
      {
        if b == |selected| {
          assert r[a] == selected[a];
        }
      }
    }
  }

  /** Removing one position from a list without repeats leaves a list
      without repeats that no longer holds the removed value. */
  lemma DropKeepsDistinct(s: seq<string>, i: nat)
    requires Distinct(s) && i < |s|
    ensures Distinct(s[..i] + s[i + 1..])
    ensures s[i] !in s[..i] + s[i + 1..]
  {
    var r := s[..i] + s[i + 1..];
    forall a | 0 <= a < |r|
      ensures r[a] == s[if a < i then a else a + 1]
    {
    }
    forall a, b | 0 <= a < b < |r|
      ensures r[a] != r[b]
    {
      assert r[a] == s[if a < i then a else a + 1];
      assert r[b] == s[if b < i then b else b + 1];
    }
  }

  /** In a list without repeats, filtering out one element's value removes
      exactly that position. */
  lemma FilterDropsOne(s: seq<string>, i: nat)
    requires Distinct(s) && i < |s|
    ensures Filter(s, (x: string) => x != s[i]) == s[..i] + s[i + 1..]
  {
    var p := (x: string) => x != s[i];
    assert s == s[..i] + [s[i]] + s[i + 1..];
    forall j | 0 <= j < |s[..i]|
      ensures p(s[..i][j])
    {
      assert s[..i][j] == s[j];
    }
    forall j | i + 1 <= j < |s|
      ensures p(s[j])
    {
    }
    FilterDropsOnly(s[..i], s[i], s[i + 1..], p);
  }

  /** Toggling an unselected marketplace twice gives back the selection. */
  lemma ToggleMarketplaceTwice(selected: seq<string>, id: string)
    requires id !in selected
    ensures ToggledMarketplaces(ToggledMarketplaces(selected, id), id) == selected
  {
    var p := (s: string) => s == id;
    assert FirstIndex(selected, p).None?;
    FirstIndexAppended(selected, id, p);
    assert (selected + [id])[..|selected|] == selected;
  }

  /** The status/equipment toggle flips the toggled id whatever the
      selection holds, and leaves every other id as it was. */
  lemma ToggleOptionFlips(selected: seq<string>, id: string)
    ensures var r := ToggledOption(selected, id);
      && (id in r <==> id !in selected)
      && (forall x :: x != id ==> (x in r <==> x in selected))
  {
    var r := ToggledOption(selected, id);
    if id in selected {
      forall x | x in r
        ensures x != id && x in selected
      {
        var k :| 0 <= k < |r| && r[k] == x;
      }
      forall x | x != id && x in selected
        ensures x in r
      {
        var k :| 0 <= k < |selected| && selected[k] == x;
      }
    }
  }

  /** Toggling an unselected option twice gives back the selection. */
  lemma ToggleOptionTwice(selected: seq<string>, id: string)
    requires id !in selected
    ensures ToggledOption(ToggledOption(selected, id), id) == selected
  {
    var p := (s: string) => s != id;
    FilterAppend(selected, [id], p);
    FilterKeepsAll(selected, p);
  }

  /** On a selection without repeats the two toggles agree: removing the
      first occurrence is removing every occurrence. */
  lemma TogglesAgree(selected: seq<string>, id: string)
    requires Distinct(selected)
    ensures ToggledOption(selected, id) == ToggledMarketplaces(selected, id)
  {
    var k := FirstIndex(selected, (s: string) => s == id);
    if k.Some? {
      FilterDropsOne(selected, k.value);
    }
  }

  /** The panel. `selectedMarketplaces` is the page's selection as last
      passed in; the panel never writes it, it only emits a new list, and
      `emitted` records every list passed to `onFilterChange`, in order. */
  class FilterPanel {
    const marketplaces: seq<Marketplace>
    var selectedMarketplaces: seq<string>
    var search: string
    var selectedStatus: seq<string>
    var selectedEquipment: seq<string>
    var showFilters: bool
    var emitted: seq<seq<string>>

    constructor (marketplaces: seq<Marketplace>, selectedMarketplaces: seq<string>)
      ensures this.marketplaces == marketplaces && this.selectedMarketplaces == selectedMarketplaces
      ensures search == "" && selectedStatus == [] && selectedEquipment == []
      ensures !showFilters && emitted == []
    {
      this.marketplaces := marketplaces;
      this.selectedMarketplaces := selectedMarketplaces;
      search := "";
      selectedStatus := [];
      selectedEquipment := [];
      showFilters := false;
      emitted := [];
    }

    /** The page renders the panel again with a new selection. */
    method Receive(selection: seq<string>)
      modifies this
      ensures selectedMarketplaces == selection
      ensures search == old(search) && selectedStatus == old(selectedStatus)
      ensures selectedEquipment == old(selectedEquipment) && showFilters == old(showFilters)
      ensures emitted == old(emitted)
    {
      selectedMarketplaces := selection;
    }

    /** `handleSearch`: the text is kept and only the marketplace selection
        is forwarded. */
    method HandleSearch(value: string)
      modifies this
      ensures search == value && emitted == old(emitted) + [selectedMarketplaces]
      ensures selectedMarketplaces == old(selectedMarketplaces)
      ensures selectedStatus == old(selectedStatus) && selectedEquipment == old(selectedEquipment)
      ensures showFilters == old(showFilters)
    {
      search := value;
      UpdateFilters(selectedMarketplaces);
    }

    /** `handleMarketplaceToggle`: works on a copy of the selection, removes
        the first occurrence of a selected id or pushes an unselected one,
        and emits the copy; the selection passed in is left as it was. */
    method HandleMarketplaceToggle(marketplaceId: string)
      modifies this
      ensures emitted == old(emitted) + [ToggledMarketplaces(selectedMarketplaces, marketplaceId)]
      ensures selectedMarketplaces == old(selectedMarketplaces)
      ensures search == old(search) && selectedStatus == old(selectedStatus)
      ensures selectedEquipment == old(selectedEquipment) && showFilters == old(showFilters)
    {
      var next := selectedMarketplaces;
      var index := FirstIndex(next, (s: string) => s == marketplaceId);
      if index.Some? {
        next := next[..index.value] + next[index.value + 1..];
      } else {
        next := next + [marketplaceId];
      }
      emitted := emitted + [next];
    }

    /** `handleSelectAll`: emits every marketplace id, in catalogue order. */
    method HandleSelectAll()
      modifies this
      ensures emitted == old(emitted) + [Ids(marketplaces)]
      ensures selectedMarketplaces == old(selectedMarketplaces)
      ensures search == old(search) && selectedStatus == old(selectedStatus)
      ensures selectedEquipment == old(selectedEquipment) && showFilters == old(showFilters)
    {
      emitted := emitted + [Ids(marketplaces)];
    }

    /** `handleSelectNone`: emits the empty list. */
    method HandleSelectNone()
      modifies this
      ensures emitted == old(emitted) + [[]]
      ensures selectedMarketplaces == old(selectedMarketplaces)
      ensures search == old(search) && selectedStatus == old(selectedStatus)
      ensures selectedEquipment == old(selectedEquipment) && showFilters == old(showFilters)
    {
      emitted := emitted + [[]];
    }

    /** `toggleStatus`: the panel's own status selection is toggled; the
        page only hears the unchanged marketplace selection. */
    method ToggleStatus(id: string)
      modifies this
      ensures selectedStatus == ToggledOption(old(selectedStatus), id)
      ensures emitted == old(emitted) + [selectedMarketplaces]
      ensures selectedMarketplaces == old(selectedMarketplaces)
      ensures search == old(search) && selectedEquipment == old(selectedEquipment)
      ensures showFilters == old(showFilters)
    {
      selectedStatus := ToggledOption(selectedStatus, id);
      UpdateFilters(selectedMarketplaces);
    }

    /** `toggleEquipment`: as `toggleStatus`, for the equipment selection. */
    method ToggleEquipment(id: string)
      modifies this
      ensures selectedEquipment == ToggledOption(old(selectedEquipment), id)
      ensures emitted == old(emitted) + [selectedMarketplaces]
      ensures selectedMarketplaces == old(selectedMarketplaces)
      ensures search == old(search) && selectedStatus == old(selectedStatus)
      ensures showFilters == old(showFilters)
    {
      selectedEquipment := ToggledOption(selectedEquipment, id);
      UpdateFilters(selectedMarketplaces);
    }

    /** `updateFilters`: of the four filters only the marketplace list
        reaches the page. */
    method UpdateFilters(marketplaceIds: seq<string>)
      modifies this
      ensures emitted == old(emitted) + [marketplaceIds]
      ensures selectedMarketplaces == old(selectedMarketplaces)
      ensures search == old(search) && selectedStatus == old(selectedStatus)
      ensures selectedEquipment == old(selectedEquipment) && showFilters == old(showFilters)
    {
      emitted := emitted + [marketplaceIds];
    }

    /** `clearFilters`: search, status and equipment are emptied and the
        empty marketplace list is emitted twice, once directly and once
        through `updateFilters`. */
    method ClearFilters()
      modifies this
      ensures search == "" && selectedStatus == [] && selectedEquipment == []
      ensures emitted == old(emitted) + [[], []]
      ensures selectedMarketplaces == old(selectedMarketplaces)
      ensures showFilters == old(showFilters)
    {
      search := "";
      emitted := emitted + [[]];
      selectedStatus := [];
      selectedEquipment := [];
      UpdateFilters([]);
    }

    /** The Show/Hide Filters button. */
    method ToggleShowFilters()
      modifies this
      ensures showFilters == !old(showFilters)
      ensures selectedMarketplaces == old(selectedMarketplaces)
      ensures search == old(search) && selectedStatus == old(selectedStatus)
      ensures selectedEquipment == old(selectedEquipment) && emitted == old(emitted)
    {
      showFilters := !showFilters;
    }
  }
}
