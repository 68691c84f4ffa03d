/** The per-peer record of internal/manager/manager.go and what its critical sections do to it:
    each function is one section under `Manager.mu`, or one call on the mion peer object, whose
    SetConn is an atomic store and whose ClearConnIf is an atomic compare-and-clear. */
module PeerEntries {
  import opened Basics

  /** A tunnel connection, relayed or direct, by order of creation. */
  type Conn = nat

  /** `active` is the connection the mion peer sends through. */
  datatype Entry = Entry(relayConn: Option<Conn>, hasDirectPath: bool, retryingConn: bool, active: Option<Conn>)

  function InstallRelay(e: Entry, c: Conn): Entry { e.(relayConn := Some(c)) }
  function ForgetRelay(e: Entry): Entry { e.(relayConn := None) }
  function ClaimRetry(e: Entry): Entry { e.(retryingConn := true) }
  function ReleaseRetry(e: Entry): Entry { e.(retryingConn := false) }
  function MarkDirect(e: Entry): Entry { e.(hasDirectPath := true) }
  function UnmarkDirect(e: Entry): Entry { e.(hasDirectPath := false) }
  function SetActive(e: Entry, c: Conn): Entry { e.(active := Some(c)) }
  function ClearIf(e: Entry, c: Conn): Entry { if e.active == Some(c) then e.(active := None) else e }
}
