/** The resources calls read and write. */
module Stores {
  import opened Json
  import opened Plans

  type Store = map<Resource, Json>

  /** The same content, or none, at each of the resources. */
  ghost predicate SameStore(resources: set<Resource>, a: Store, b: Store) {
    forall r | r in resources :: (r in a <==> r in b) && (r in a ==> a[r] == b[r])
  }
}
