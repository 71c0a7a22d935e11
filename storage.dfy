/**
 * The browser's `localStorage`, reduced to the three keys the application
 * uses. Each key holds the decoded value of its JSON text; `None` means the
 * key is absent.
 */
module Storage {
  import opened Wrappers
  import opened Ledger

  /** The record the test auth service keeps under "user". */
  datatype User = User(id: string, name: string, email: string)

  class LocalStorage {
    /** "consolidatedPeriods": the bolívar dashboard's closed periods. */
    var consolidatedPeriods: Option<seq<Period>>
    /** "consolidatedCopData": the peso dashboard's closed periods. */
    var consolidatedCopData: Option<seq<Period>>
    /** "user": the signed-in test user. */
    var user: Option<User>

    /** An empty storage: no key set. */
    constructor()
      ensures consolidatedPeriods.None? && consolidatedCopData.None? && user.None?
    {
      consolidatedPeriods := None;
      consolidatedCopData := None;
      user := None;
    }
  }
}
