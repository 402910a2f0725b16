/**
 * How the Index's subscription table and a Worker's want-set stay in step.
 * The Index announces the names a registration creates (add message) and
 * the names a disconnection orphans (delete message); a Worker applies
 * them to its want-set. When the want-set equals the table's keys before,
 * it equals them after.
 */
module Consistency {
  import opened Common
  import opened IndexUI
  import WorkerNode

  /** After a UI registers, adding the announced names brings the want-set to the table's new keys. */
  lemma RegistrationKeepsWorkerInStep(us0: map<string, set<string>>, us1: map<string, set<string>>,
                                      ui: string, names: seq<string>, wanted: set<string>)
    requires wanted == us0.Keys
    requires SubscribedAll(us0, us1, ui, names)
    ensures WorkerNode.WithNames(wanted, NewNames(names, us0.Keys)) == us1.Keys
  {
    NewNamesAreTheFreshNames(names, us0.Keys);
  }

  /** After a UI disconnects, deleting the announced names brings the want-set to the table's new keys. */
  lemma DisconnectionKeepsWorkerInStep(us0: map<string, set<string>>, us1: map<string, set<string>>,
                                       ui: string, removed: seq<string>, wanted: set<string>)
    requires wanted == us0.Keys
    requires UnsubscribedAll(us0, us1, ui)
    requires Elements(removed) == Orphaned(us0, ui)
    ensures WorkerNode.WithoutNames(wanted, removed) == us1.Keys
  {
  }
}
