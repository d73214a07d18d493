/** The records shared by the eBPF programs and the API server. */
module Types {
  import opened Wire

  /** BACKENDS_ARRAY_CAPACITY, and the capacity of each of the three BPF maps. */
  const CAPACITY: nat := 128

  datatype Option<+T> = None | Some(value: T)

  datatype Backend = Backend(daddr: u32, dport: u32, ifindex: u16)

  const ZERO_BACKEND := Backend(0, 0, 0)

  datatype BackendKey = BackendKey(ip: u32, port: u32)

  datatype ClientKey = ClientKey(ip: u32, port: u32)

  type BackendArray = s: seq<Backend> | |s| == CAPACITY witness seq(CAPACITY, _ => ZERO_BACKEND)

  datatype BackendList = BackendList(backends: BackendArray, backendsLen: u16)

  datatype TcpState = Established | FinWait1 | FinWait2 | Closing | TimeWait | Closed

  datatype Mapping = Mapping(backend: Backend, key: BackendKey, tcpState: Option<TcpState>)

  datatype TcpFlags = TcpFlags(fin: bool, ack: bool, rst: bool)

  /** The contents of BACKENDS, GATEWAY_INDEXES and LB_CONNECTIONS. */
  datatype State = State(
    backends: map<BackendKey, BackendList>,
    indexes: map<BackendKey, u16>,
    conns: map<ClientKey, Mapping>)

  const EMPTY := State(map[], map[], map[])

  /** A bounded BPF hash map accepts an overwrite always and a new key only while not full. */
  predicate CanInsert<K, V>(m: map<K, V>, k: K) {
    k in m || |m| < CAPACITY
  }
}
