/** The browser's `localStorage`, reduced to the one key the client writes,
    'selectedComponents'. Serialisation to JSON is not modelled: the stored value is the
    list itself. */
module Storage {
  import opened Wrappers
  import opened Catalog

  class LocalStorage {
    /** The list under 'selectedComponents'; `None` when the key is absent. */
    var selectedComponents: Option<seq<ComponentRecord>>

    /** A fresh browser profile: the key is absent. */
    constructor ()
      ensures selectedComponents == None
    {
      selectedComponents := None;
    }
  }
}
