/** The supervisor notification address taken from NOTIFY_SOCKET, and the
    outcome of `get_notify_socket`. */
module NotifyAddress {
  import opened Wrappers

  const NUL: char := '\0'
  /** A leading '@' in the environment stands for the NUL byte that selects
      Linux's abstract socket namespace. */
  const ABSTRACT_MARKER: char := '@'

  /** Whether a socket address lies in the abstract namespace. */
  predicate IsAbstract(addr: string) { addr != [] && addr[0] == NUL }

  /** The address `get_notify_socket` connects to, or None when NOTIFY_SOCKET
      is unset or empty (then `addr[0]` is never read). */
  function ResolveNotifyAddress(env: Option<string>): (r: Option<string>)
    ensures r.Some? <==> env.Some? && env.value != []
    ensures r.Some? ==> |r.value| == |env.value| && r.value[1..] == env.value[1..]
    ensures r.Some? && env.value[0] == ABSTRACT_MARKER ==> IsAbstract(r.value)
    ensures r.Some? && env.value[0] != ABSTRACT_MARKER ==> r.value == env.value
  {
    match env
    case None => None
    case Some(addr) =>
      if addr == [] then None
      else if addr[0] == ABSTRACT_MARKER then Some([NUL] + addr[1..])
      else Some(addr)
  }

  /** How an address is spelled in the environment: an abstract address is
      written with '@' in place of its leading NUL. */
  function EnvSpelling(addr: string): (e: string)
    ensures |e| == |addr|
  {
    if IsAbstract(addr) then [ABSTRACT_MARKER] + addr[1..] else addr
  }

  /** An environment value (which cannot start with NUL) is recovered from
      the address it resolves to, and that address is abstract exactly when
      the value starts with '@'. */
  lemma ResolveRoundTrip(addr: string)
    requires addr != [] && addr[0] != NUL
    ensures ResolveNotifyAddress(Some(addr)).Some?
    ensures EnvSpelling(ResolveNotifyAddress(Some(addr)).value) == addr
    ensures IsAbstract(ResolveNotifyAddress(Some(addr)).value) <==> addr[0] == ABSTRACT_MARKER
  {
    if addr[0] == ABSTRACT_MARKER {
      assert [ABSTRACT_MARKER] + ([NUL] + addr[1..])[1..] == addr;
    }
  }

  /** An open datagram connection to the supervisor, named by the address it
      was connected to. */
  datatype Chan = Chan(address: string)

  /** What a call of `get_notify_socket` yields: no socket (no address
      configured), a connected socket, or the exception `connect` raises. */
  datatype Connect = NoAddress | Connected(chan: Chan) | ConnectRaised

  /** `get_notify_socket`, with the success of `connect` as a parameter. */
  function GetNotifySocket(env: Option<string>, connectOk: bool): (c: Connect)
    ensures c.NoAddress? <==> ResolveNotifyAddress(env).None?
    ensures c.Connected? <==> ResolveNotifyAddress(env).Some? && connectOk
    ensures c.Connected? ==> c.chan.address == ResolveNotifyAddress(env).value && c.chan.address != []
  {
    match ResolveNotifyAddress(env)
    case None => NoAddress
    case Some(addr) => if connectOk then Connected(Chan(addr)) else ConnectRaised
  }
}
