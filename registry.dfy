/**
 * The browser's table of registered content scripts, as both background scripts see it
 * through `chrome.scripting`: a set of script IDs. Registering an ID that is already there
 * fails and leaves the table as it was; unregistering first asks whether the ID is there.
 */
module Registry {
  /** `registerContentScripts` with one script: a duplicate ID is refused, so the set is unchanged. */
  function AfterRegister(reg: set<string>, id: string): (r: set<string>)
    ensures id in r && reg <= r && r - {id} == reg - {id}
  {
    if id in reg then reg else reg + {id}
  }

  /** `getRegisteredContentScripts` followed, when the ID was found, by `unregisterContentScripts`. */
  function AfterUnregister(reg: set<string>, id: string): (r: set<string>)
    ensures id !in r && r <= reg && r + {id} >= reg
  {
    if id in reg then reg - {id} else reg
  }

  /** Registering after unregistering settles the ID as registered whatever it was, and touches nothing else. */
  lemma ReRegister(reg: set<string>, id: string)
    ensures AfterRegister(AfterUnregister(reg, id), id) == reg + {id}
    ensures AfterRegister(reg, id) == reg + {id} && AfterUnregister(reg, id) == reg - {id}
  {
  }

  /** The registered IDs, updated in place by the two calls. */
  class ScriptRegistry {
    var ids: set<string>

    constructor(ids: set<string>)
      ensures this.ids == ids
    {
      this.ids := ids;
    }

    method Register(id: string)
      modifies this
      ensures ids == AfterRegister(old(ids), id)
    {
      if id !in ids {
        ids := ids + {id};
      }
    }

    method Unregister(id: string)
      modifies this
      ensures ids == AfterUnregister(old(ids), id)
    {
      if id in ids {
        ids := ids - {id};
      }
    }
  }
}
