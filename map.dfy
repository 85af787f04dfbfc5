/** The map component (week4/lost-item-map/src/components/lost-item-map.tsx):
    the authoritative item list, the list currently shown as markers, the
    adding mode, the chosen location and the transient marker, together with
    the handlers and effects that change them. */
module MapView {
  import opened Types
  import opened Search
  import opened Form

  /** The key the whole list is stored under. */
  const StorageKey: string := "lost-items"

  /** `localStorage.getItem`: the stored string, or nothing. */
  function GetItem(store: map<string, string>, key: string): (saved: Option<string>)
  {
    if key in store then Some(store[key]) else None
  }

  /** The initial list: nothing saved (or the empty string, which is falsy)
      gives the empty list; otherwise the saved text is parsed. `None` stands
      for a parse that throws, which the component does not catch. */
  function InitialItems(saved: Option<string>, parse: string -> Option<seq<LostItem>>): (items: Option<seq<LostItem>>)
  {
    match saved
    case None => Some([])
    case Some(s) => if s == "" then Some([]) else parse(s)
  }

  /** `JSON.parse` reads back the text `JSON.stringify` wrote for this one
      list, and that text is not the empty string. */
  predicate ReadsBack(serialize: seq<LostItem> -> string, parse: string -> Option<seq<LostItem>>, items: seq<LostItem>)
  {
    serialize(items) != "" && parse(serialize(items)) == Some(items)
  }

  /** The positions of the markers drawn for `items`, one per item, in order. */
  function MarkerPositions(items: seq<LostItem>): (r: seq<LngLat>)
    ensures |r| == |items|
    ensures forall i :: 0 <= i < |items| ==> r[i] == MarkerPosition(items[i].location)
  {
    if items == [] then [] else [MarkerPosition(items[0].location)] + MarkerPositions(items[1..])
  }

  /** At startup the list is empty when nothing, or the empty string, is saved. */
  lemma NothingSavedStartsEmpty(store: map<string, string>, parse: string -> Option<seq<LostItem>>)
    requires StorageKey !in store || store[StorageKey] == ""
    ensures InitialItems(GetItem(store, StorageKey), parse) == Some([])
  {
  }

  /** Whatever list was written under the key is read back, unchanged, by the
      next start-up, provided the parser reads back what the serialiser wrote
      for that list. */
  lemma ReloadRestores(store: map<string, string>, items: seq<LostItem>,
                                          serialize: seq<LostItem> -> string, parse: string -> Option<seq<LostItem>>)
    requires ReadsBack(serialize, parse, items)
    ensures InitialItems(GetItem(store[StorageKey := serialize(items)], StorageKey), parse) == Some(items)
  {
  }

  class LostItemMap {
    var lostItems: seq<LostItem>
    var displayedItems: seq<LostItem>
    var isAddingItem: bool
    var selectedLocation: Option<LngLat>
    /** The `tempMarker` state: where the transient marker was placed, if one
        is held. */
    var tempMarker: Option<LngLat>
    /** The browser's key/value storage. */
    var storage: map<string, string>
    /** The report form, mounted exactly while the component is in adding mode. */
    var form: ReportForm?
    const search: SearchPanel
    const serialize: seq<LostItem> -> string

    /** The stored copy is always the serialisation of the whole list, the
        shown list is always drawn from the whole list in order, the transient
        marker sits exactly at the chosen location, and the form is mounted
        exactly in adding mode. */
    ghost predicate Valid()
      reads this
    {
      && StorageKey in storage && storage[StorageKey] == serialize(lostItems)
      && IsSubsequence(displayedItems, lostItems)
      && tempMarker == selectedLocation
      && (form != null <==> isAddingItem)
    }

    /** Mounting: the list is read from storage, then the two list effects run
        once, showing the whole list and writing it back. */
    constructor (store: map<string, string>, serialize: seq<LostItem> -> string,
                 parse: string -> Option<seq<LostItem>>, lower: CaseFold)
      requires InitialItems(GetItem(store, StorageKey), parse).Some?
      ensures Valid()
      ensures lostItems == InitialItems(GetItem(store, StorageKey), parse).value
      ensures displayedItems == lostItems
      ensures storage == store[StorageKey := serialize(lostItems)]
      ensures !isAddingItem && selectedLocation == None && tempMarker == None && form == null
      ensures fresh(search) && search.searchTerm == "" && search.selectedCategory == All && search.lower == lower
      ensures this.serialize == serialize
    {
      var items := InitialItems(GetItem(store, StorageKey), parse).value;
      lostItems := items;
      isAddingItem := false;
      selectedLocation := None;
      tempMarker := None;
      form := null;
      search := new SearchPanel(lower);
      this.serialize := serialize;
      displayedItems := items;
      storage := store[StorageKey := serialize(items)];
      new;
      SubsequenceReflexive(items);
    }

    /** The markers currently drawn for the shown items. */
    ghost function ShownMarkers(): seq<LngLat>
      reads this
    {
      MarkerPositions(displayedItems)
    }

    /** The two effects that run whenever the list changes: the shown list is
        reset to the whole list (dropping any active search filter) and the
        whole list is written to storage. */
    method ItemsChanged()
      modifies this
      ensures displayedItems == lostItems
      ensures storage == old(storage)[StorageKey := serialize(lostItems)]
      ensures lostItems == old(lostItems) && isAddingItem == old(isAddingItem)
      ensures selectedLocation == old(selectedLocation) && tempMarker == old(tempMarker) && form == old(form)
    {
      displayedItems := lostItems;
      storage := storage[StorageKey := serialize(lostItems)];
    }

    /** The header button: flips adding mode. Turning it on mounts a fresh
        form; turning it off unmounts the form but leaves the chosen location
        and the transient marker as they were. */
    method ToggleAdding()
      requires Valid()
      modifies this
      ensures Valid()
      ensures isAddingItem == !old(isAddingItem)
      ensures isAddingItem ==> fresh(form) && form.formData == InitialDraft
      ensures selectedLocation == old(selectedLocation) && tempMarker == old(tempMarker)
      ensures lostItems == old(lostItems) && displayedItems == old(displayedItems) && storage == old(storage)
    {
      isAddingItem := !isAddingItem;
      if isAddingItem {
        form := new ReportForm();
      } else {
        form := null;
      }
    }

    /** A click on the map at (lng, lat). Outside adding mode nothing happens;
        in adding mode the position becomes the chosen location and the one
        transient marker is moved there. */
    method HandleMapClick(lng: Coord, lat: Coord)
      requires Valid()
      modifies this
      ensures Valid()
      ensures !old(isAddingItem) ==> selectedLocation == old(selectedLocation) && tempMarker == old(tempMarker)
      ensures old(isAddingItem) ==> selectedLocation == Some((lng, lat)) && tempMarker == Some((lng, lat))
      ensures isAddingItem == old(isAddingItem) && form == old(form)
      ensures lostItems == old(lostItems) && displayedItems == old(displayedItems) && storage == old(storage)
    {
      if isAddingItem {
        var newLocation := (lng, lat);
        selectedLocation := Some(newLocation);
        tempMarker := Some(newLocation);
      }
    }

    /** `handleAddItem`: without a chosen location nothing changes. Otherwise
        the record, given the supplied identifier and the chosen location, is
        appended at the end of the list; the list effects then show the whole
        list and store it; adding mode ends, and the chosen location and the
        transient marker are cleared. */
    method HandleAddItem(item: ItemReport, id: string)
      requires Valid()
      modifies this
      ensures Valid()
      ensures old(selectedLocation).None? ==>
        && lostItems == old(lostItems) && displayedItems == old(displayedItems) && storage == old(storage)
        && isAddingItem == old(isAddingItem) && selectedLocation == old(selectedLocation)
        && tempMarker == old(tempMarker) && form == old(form)
      ensures old(selectedLocation).Some? ==>
        && |lostItems| == |old(lostItems)| + 1
        && lostItems[..|old(lostItems)|] == old(lostItems)
        && lostItems[|old(lostItems)|] == LostItem(id, item.title, item.description,
             LocationOf(old(selectedLocation).value), item.category, item.foundAt, item.contactInfo, item.status)
        && displayedItems == lostItems
        && ShownMarkers()[|old(lostItems)|] == old(selectedLocation).value
        && storage == old(storage)[StorageKey := serialize(lostItems)]
        && !isAddingItem && selectedLocation == None && tempMarker == None && form == null
    {
      if selectedLocation.None? {
        return;
      }
      var p := selectedLocation.value;
      var newItem := LostItem(id, item.title, item.description, Location(p.1, p.0),
                              item.category, item.foundAt, item.contactInfo, item.status);
      lostItems := lostItems + [newItem];
      isAddingItem := false;
      form := null;
      selectedLocation := None;
      if tempMarker.Some? {
        tempMarker := None;
      }
      ItemsChanged();
      SubsequenceReflexive(lostItems);
      LocationRoundTrip(p, newItem.location);
    }

    /** `handleCancel`: adding mode ends, the chosen location and the
        transient marker are cleared, and the list is untouched. */
    method HandleCancel()
      requires Valid()
      modifies this
      ensures Valid()
      ensures !isAddingItem && selectedLocation == None && tempMarker == None && form == null
      ensures lostItems == old(lostItems) && displayedItems == old(displayedItems) && storage == old(storage)
    {
      isAddingItem := false;
      form := null;
      selectedLocation := None;
      if tempMarker.Some? {
        tempMarker := None;
      }
    }

    /** Submitting the mounted form: the form builds the record from its draft
        and the chosen location and hands it to `HandleAddItem`. */
    method SubmitReport(id: string, now: string)
      requires Valid() && form != null && RequiredFilled(form.formData)
      modifies this
      ensures Valid()
      ensures old(selectedLocation).None? ==>
        && lostItems == old(lostItems) && displayedItems == old(displayedItems) && storage == old(storage)
        && isAddingItem && selectedLocation == None && form == old(form)
      ensures old(selectedLocation).Some? ==>
        && |lostItems| == |old(lostItems)| + 1
        && lostItems[..|old(lostItems)|] == old(lostItems)
        && lostItems[|old(lostItems)|] == LostItem(id, old(form.formData.title), old(form.formData.description),
             LocationOf(old(selectedLocation).value), old(form.formData.category), now,
             old(form.formData.contactInfo), Unreturned)
        && MarkerPosition(lostItems[|old(lostItems)|].location) == old(selectedLocation).value
        && displayedItems == lostItems
        && storage == old(storage)[StorageKey := serialize(lostItems)]
        && !isAddingItem && selectedLocation == None && tempMarker == None && form == null
    {
      var submitted := form.HandleSubmit(selectedLocation, now);
      if submitted.Some? {
        HandleAddItem(submitted.value, id);
        LocationRoundTrip(old(selectedLocation).value, submitted.value.location);
      }
    }

    /** The query box changed: the shown list becomes the whole list filtered
        by the new query and the current category. */
    method HandleSearch(value: string)
      requires Valid()
      modifies this, search
      ensures Valid()
      ensures search.searchTerm == value && search.selectedCategory == old(search.selectedCategory)
      ensures displayedItems == Filter(lostItems, value, search.selectedCategory, search.lower)
      ensures lostItems == old(lostItems) && storage == old(storage) && isAddingItem == old(isAddingItem)
      ensures selectedLocation == old(selectedLocation) && tempMarker == old(tempMarker) && form == old(form)
    {
      var filtered := search.HandleSearch(lostItems, value);
      displayedItems := filtered;
      FilterIsSubsequence(lostItems, value, search.selectedCategory, search.lower);
    }

    /** The category box changed: the shown list becomes the whole list
        filtered by the current query and the new category. */
    method HandleCategoryChange(category: CategoryFilter)
      requires Valid()
      modifies this, search
      ensures Valid()
      ensures search.selectedCategory == category && search.searchTerm == old(search.searchTerm)
      ensures displayedItems == Filter(lostItems, search.searchTerm, category, search.lower)
      ensures lostItems == old(lostItems) && storage == old(storage) && isAddingItem == old(isAddingItem)
      ensures selectedLocation == old(selectedLocation) && tempMarker == old(tempMarker) && form == old(form)
    {
      var filtered := search.HandleCategoryChange(lostItems, category);
      displayedItems := filtered;
      FilterIsSubsequence(lostItems, search.searchTerm, category, search.lower);
    }
  }

  /** What a later start-up reads from the storage of a valid component is the
      component's list. */
  lemma StoredListReloads(m: LostItemMap, parse: string -> Option<seq<LostItem>>)
    requires m.Valid() && ReadsBack(m.serialize, parse, m.lostItems)
    ensures InitialItems(GetItem(m.storage, StorageKey), parse) == Some(m.lostItems)
  {
    ReloadRestores(m.storage, m.lostItems, m.serialize, parse);
    assert m.storage[StorageKey := m.serialize(m.lostItems)] == m.storage;
  }

  /** The shown list of a valid component never holds more items than the
      whole list. */
  lemma ShownNeverExceedsAll(m: LostItemMap)
    requires m.Valid()
    ensures |m.displayedItems| <= |m.lostItems|
    ensures forall x :: x in m.displayedItems ==> x in m.lostItems
  {
    SubsequenceLength(m.displayedItems, m.lostItems);
    SubsequenceMembers(m.displayedItems, m.lostItems);
  }
}
