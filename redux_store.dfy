/**
 * The application-state container, reduced to what the modelled code needs:
 * the ordered log of intents (actions) dispatched to it.
 */
module ReduxStore {
  import opened Js

  /** The intents that the modelled code dispatches. */
  datatype Action =
    | SetRouteAction(pathname: string, query: Option<map<string, string>>)
    | SetLocale(localeSlug: string)
    | SetLocaleRawData(localeStrings: string)
    | SelectPostRevision(revisionId: int)

  class Store {
    /** Every intent dispatched so far, oldest first. */
    var actions: seq<Action>

    constructor ()
      ensures actions == []
    {
      actions := [];
    }

    /** `dispatch`: intents are applied in dispatch order. */
    method Dispatch(a: Action)
      modifies this
      ensures actions == old(actions) + [a]
    {
      actions := actions + [a];
    }
  }
}
