/** The per-instance `memory` map and what Authenticated and GetUsername read from it
    (instance.auth.go). */
module Session {
  import opened Types

  /** The two kinds of value the client stores: the authenticated flag and the identity. */
  datatype Stored = Flag(b: bool) | Identity(data: AuthenticatedData)

  type Memory = map<string, Stored>

  const FlagSlot := "authenticated"
  const IdentitySlot := "authenticatedData"

  /** `memory["authenticated"] == true`. */
  predicate IsAuthenticated(mem: Memory)
  {
    FlagSlot in mem && mem[FlagSlot] == Flag(true)
  }

  /** A set flag comes with a stored identity (GetUsername's type assertion relies on it). */
  predicate Consistent(mem: Memory)
  {
    IsAuthenticated(mem) ==> IdentitySlot in mem && mem[IdentitySlot].Identity?
  }

  /** `GetUsername`: "" unless authenticated, else the stored identity's username. */
  function Username(mem: Memory): string
    requires Consistent(mem)
  {
    if !IsAuthenticated(mem) then "" else mem[IdentitySlot].data.username
  }

  /** The two writes of a successful Authenticate: the flag, then the identity. */
  function Remember(mem: Memory, data: AuthenticatedData): (mem': Memory)
    ensures Consistent(mem') && IsAuthenticated(mem')
    ensures Username(mem') == data.username
    ensures forall k | k in mem && k != FlagSlot && k != IdentitySlot :: k in mem' && mem'[k] == mem[k]
    ensures mem'.Keys == mem.Keys + {FlagSlot, IdentitySlot}
  {
    mem[FlagSlot := Flag(true)][IdentitySlot := Identity(data)]
  }

  /** A later successful Authenticate replaces the stored identity entirely. */
  lemma RememberOverwrites(mem: Memory, first: AuthenticatedData, second: AuthenticatedData)
    ensures Remember(Remember(mem, first), second) == Remember(mem, second)
  {
  }

  /** An instance starts with empty memory: not authenticated, no username. */
  lemma FreshMemoryIsAnonymous()
    ensures Consistent(map[])
    ensures !IsAuthenticated(map[]) && Username(map[]) == ""
  {
  }
}
