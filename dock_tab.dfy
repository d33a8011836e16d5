/**
 * The keyed tab store every dock tab uses: one value per tab id.
 * Only the three operations the install-chart store calls are modelled;
 * the persistence behind the store is not.
 */
module DockTab {
  import opened Wrappers

  type TabId = string

  class DockTabStore<T> {
    /** The stored value of each tab. */
    var data: map<TabId, T>

    constructor ()
      ensures data == map[]
    {
      data := map[];
    }

    /** The tab's value, or None when the tab has none. */
    function GetData(tabId: TabId): (r: Option<T>)
      reads this
      ensures r.Some? <==> tabId in data
      ensures r.Some? ==> r.value == data[tabId]
    {
      if tabId in data then Some(data[tabId]) else None
    }

    /** Replaces (never merges) the tab's value; other tabs keep theirs. */
    method SetData(tabId: TabId, value: T)
      modifies this
      ensures data == old(data)[tabId := value]
    {
      data := data[tabId := value];
    }

    /** Removes the tab's value; other tabs keep theirs. */
    method ClearData(tabId: TabId)
      modifies this
      ensures data == old(data) - {tabId}
    {
      data := data - {tabId};
    }
  }
}
