/** Definitions shared by several models. */
module Options {
  datatype Option<T> = None | Some(value: T)
}

module Lifecycle {
  /** cxl_reclaim_state of a CXL page. */
  datatype PageState = None | Resident | Demoting | FreePending | Freeing
}

module Lists {
  ghost predicate NoRepeat<T(!new)>(s: seq<T>) {
    forall i, j :: 0 <= i < j < |s| ==> s[i] != s[j]
  }
}
