/** The register the marker stores stand for: create if absent, compare and delete. */
module MarkerRegister {
  import opened Results
  import opened RecoveryMarkers

  datatype Change = Created(marker: Marker) | Removed(marker: Marker)

  /** The register after a change; None when the change is not allowed. */
  function Apply(register: Option<Marker>, change: Change): Option<Option<Marker>> {
    match change
    case Created(marker) => if register == None then Some(Some(marker)) else None
    case Removed(marker) => if register == Some(marker) then Some(None) else None
  }

  function Replay(base: Option<Marker>, log: seq<Change>): Option<Option<Marker>> {
    if log == [] then Some(base)
    else
      match Replay(base, log[..|log| - 1])
      case None => None
      case Some(register) => Apply(register, log[|log| - 1])
  }

  lemma ReplayGrows(base: Option<Marker>, log: seq<Change>)
    ensures Replay(base, []) == Some(base)
    ensures forall change :: Replay(base, log).Some? ==> Replay(base, log + [change]) == Apply(Replay(base, log).value, change)
  {
    forall change | Replay(base, log).Some? ensures Replay(base, log + [change]) == Apply(Replay(base, log).value, change) {
      assert (log + [change])[..|log|] == log;
    }
  }
}
