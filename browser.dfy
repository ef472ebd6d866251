/** The shapes the extension reads from the browser: tabs, and the keys it
    keeps in `chrome.storage.local`. */
module Browser {
  import opened Js

  /** A tab as `chrome.tabs.query` reports it; `url` is missing for tabs the
      extension may not see. */
  datatype Tab = Tab(id: int, url: Option<string>)

  /** The `modelParams` object. Its fields are whatever `parseFloat` and
      `parseInt` produced when the popup saved them. */
  datatype Params = Params(temperature: Value, topP: Value, maxTokens: Value)

  /** A snapshot of the storage keys the extension uses. A missing key reads
      as `None` (or `Undefined`). `set` merges, so a write that names only
      some keys leaves the others as they were. */
  datatype Storage = Storage(
    selectedModel: Option<string>,
    apiHost: Option<string>,
    modelParams: Option<Params>,
    sourceLang: Option<string>,
    targetLang: Option<string>,
    translationColor: Option<string>,
    modelInitialized: Value)

  /** The storage of a browser profile where the extension has never written. */
  const EmptyStorage := Storage(None, None, None, None, None, None, Undefined)

  /** The ids of the tabs whose url passes `eligible`, in tab order. */
  function EligibleIds(tabs: seq<Tab>, eligible: Option<string> -> bool): (ids: seq<int>)
    ensures |ids| <= |tabs|
  {
    if tabs == [] then []
    else
      var last := tabs[|tabs| - 1];
      EligibleIds(tabs[..|tabs| - 1], eligible) + (if eligible(last.url) then [last.id] else [])
  }

  /** An id is selected exactly when some tab carrying it is eligible. */
  lemma {:induction false} EligibleIdsMembership(tabs: seq<Tab>, eligible: Option<string> -> bool, id: int)
    ensures id in EligibleIds(tabs, eligible) <==>
            exists k :: 0 <= k < |tabs| && tabs[k].id == id && eligible(tabs[k].url)
  {
    if tabs != [] {
      var init := tabs[..|tabs| - 1];
      EligibleIdsMembership(init, eligible, id);
      if exists k :: 0 <= k < |tabs| && tabs[k].id == id && eligible(tabs[k].url) {
        var k :| 0 <= k < |tabs| && tabs[k].id == id && eligible(tabs[k].url);
        if k < |tabs| - 1 {
          assert init[k] == tabs[k];
        }
      }
      if id in EligibleIds(init, eligible) {
        var k :| 0 <= k < |init| && init[k].id == id && eligible(init[k].url);
        assert tabs[k] == init[k];
      }
    }
  }

  /** `tabs.forEach(tab => { if (eligible(tab.url)) act(tab.id) })`: the ids
      acted on, in the order the loop reaches them. */
  method SelectTabs(tabs: seq<Tab>, eligible: Option<string> -> bool) returns (ids: seq<int>)
    ensures ids == EligibleIds(tabs, eligible)
  {
    ids := [];
    var i := 0;
    while i < |tabs|
      invariant 0 <= i <= |tabs|
      invariant ids == EligibleIds(tabs[..i], eligible)
    {
      assert tabs[..i + 1][..i] == tabs[..i];
      if eligible(tabs[i].url) {
        ids := ids + [tabs[i].id];
      }
      i := i + 1;
    }
    assert tabs[..i] == tabs;
  }
}
