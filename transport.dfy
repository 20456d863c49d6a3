/**
 * The transport collaborator of the session: dialing a device and running one
 * command sentence on an open handle. Its real implementation (socket, framing,
 * login, sentence encoding) is not part of this model; it is represented by a
 * scripted oracle. A `Network` says, for every endpoint and credential pair,
 * whether dialing succeeds, and which `Device` answers on the handle obtained.
 * A `Device` answers every command with a reply (a sequence of entries, each a
 * map from field name to value) and a fault status.
 */
module Transport {

  /** One reply entry: field name to value (the identifier lives under ".id"). */
  type Entry = map<string, string>

  /** One command sentence: its command word and its attribute/query words. */
  datatype Command = Command(word: string, args: seq<string>)

  /** Whether a transport call went through, and if not, why. */
  datatype Fault = Ok | Failed(cause: string)

  /** What running a command yields: the reply entries and the call's fault. */
  datatype Outcome = Outcome(entries: seq<Entry>, fault: Fault)

  /** The scripted device behind a handle. */
  datatype Device = Device(respond: Command -> Outcome)

  /** The scripted network: which dials succeed and which device answers. */
  datatype Network = Network(dial: (string, string, string) -> Fault, device: Device)

  /**
   * An open, authenticated handle. It is never mutated: a reconnect replaces the
   * session's handle by a fresh one.
   */
  class Client {
    const endpoint: string
    const username: string
    const password: string
    const device: Device

    constructor (endpoint: string, username: string, password: string, device: Device)
      ensures this.endpoint == endpoint && this.username == username
      ensures this.password == password && this.device == device
    {
      this.endpoint := endpoint;
      this.username := username;
      this.password := password;
      this.device := device;
    }

    /** The reply and fault the device gives for `cmd`. */
    function Run(cmd: Command): Outcome
    {
      device.respond(cmd)
    }
  }

  /**
   * Opens a handle to `endpoint` with the given credentials. On failure no
   * handle is returned.
   */
  method Dial(net: Network, endpoint: string, username: string, password: string)
      returns (c: Client?, fault: Fault)
    ensures fault == net.dial(endpoint, username, password)
    ensures fault.Ok? ==> c != null && fresh(c)
    ensures fault.Ok? ==> c.endpoint == endpoint && c.username == username
    ensures fault.Ok? ==> c.password == password && c.device == net.device
    ensures fault.Failed? ==> c == null
  {
    fault := net.dial(endpoint, username, password);
    if fault.Ok? {
      c := new Client(endpoint, username, password, net.device);
    } else {
      c := null;
    }
  }
}
