# RouterOS session (`Ros`) model

A Dafny model of the `Ros` session object of the `routeros` package (`ros.go`).
A session holds the connection settings (username, password, address, port),
two opaque bookkeeping identifiers (`id`, `bitosisID`), a `Verbose` flag and
the transport handle (`client`). It turns firewall address-list and ARP
intents into RouterOS API command sentences:

- `AddListEntry` sends one `/ip/firewall/address-list/add` with `=list=` and `=address=`.
- `DelListEntries` and `DelListEntry` first send an `/ip/firewall/address-list/print`
  filtered by `?list=` (and `?address=`). Then they send one
  `/ip/firewall/address-list/remove` with `=.id=` per entry of the reply.
- `GetFirewallListsByName` sends the filtered `print` and returns only its error.
- `GetMacByIP` sends `/ip/arp/print` filtered by `?address=`.

Files:

- `transport.dfy` (module `Transport`): the transport, which is not part of
  this model's source. It is a scripted oracle. A `Network` decides, for each
  endpoint and credential triple, whether `Dial` succeeds. It also gives the
  `Device` that answers on the handle. A `Device` answers every `Command` with
  reply entries (maps from field name to value) and a `Fault`. A `Client`
  (handle) never changes; a reconnect replaces it with a fresh one.
- `endpoint.dfy` (module `Addressing`): how the dialed endpoint is built from
  the address and port, and Go's `%d` decimal rendering of an `int`. It also
  holds a reference parser that splits `address:port` at the last colon.
- `ros.dfy` (module `Routeros`): error kinds, the command sentences, the
  specification functions, and class `Ros`. The class has the source's fields
  plus a ghost `log` of every command the session ran, in order. Each method's
  contract gives its whole new state: the fields it changes, the commands it
  appends to `log`, and the error it returns.
- `scenarios.dfy` (module `Scenarios`): client methods against scripted
  devices. They show what a caller can conclude from the contracts alone.

Errors are kinds, not message text:

- `EmptyArgument(op, arg)`: an empty required argument, checked before anything is sent.
- `NotConnected(address)`: no handle.
- `TransportFailure(cause)`: a fault reported by the transport.
- `Nil`: Go's nil error.

Go reads a missing map key as `""`. So an entry without `.id` gives the
sentence `=.id=`, and an ARP entry without `mac-address` gives an empty MAC.
The model keeps both quirks through `Field`.

The model follows `ros.go` where the code departs from the intended design:

- In the delete sweep, the query's error survives only when the reply has no
  entries. Otherwise the last remove's error replaces it.
- `GetMacByIP` with zero or several ARP entries returns an empty MAC and the
  query's own error, with no ambiguity error. The MAC is read before the error
  is checked, so a failed query whose reply holds one entry returns that
  entry's MAC together with the error.
- `Reconnect` never reports a failure.
- The old handle is not closed on reconnect.

## Model

| member | source | states |
|---|---|---|
| Transport.Dial | ros.go:72 | the dial outcome is the network's verdict for (endpoint, username, password); on success a fresh handle bound to that endpoint, those credentials and the network's device; on failure no handle |
| Addressing.NatDigitsRoundTrip | ros.go:69 | the `%d` digits of a natural number are non-empty, all decimal digits, and read back as the number |
| Addressing.DecimalRoundTrip | ros.go:69 | the `%d` rendering of any int, negatives included, parses back to the same int |
| Addressing.DecimalHasNoColon | ros.go:69 | a rendered port is non-empty and contains no colon, so it cannot be confused with the separator |
| Addressing.EndpointRoundTrip | ros.go:67-70 | with a non-zero port the dialed endpoint is exactly address, ":" and the decimal port: splitting at the last colon recovers both, even when the address holds colons |
| Addressing.Decimal | ros.go:69 | Go's `%d` of an int: non-empty, led by a minus sign exactly when the int is negative, all decimal digits after it, and no leading zero unless the int is 0 |
| Addressing.NatDigitsNoLeadingZero | ros.go:69 | the `%d` digits of a natural number start with '0' only for 0: no padding |
| Addressing.Endpoint | ros.go:67-70 | the dialed endpoint always starts with the address, and is the bare address if and only if the port is 0 |
| Routeros.FromFault | ros.go:101-110 | a transport call's fault becomes a nil error exactly when the call went through, and is otherwise a transport error (never a validation or not-connected error) |
| Routeros.AddCommand | ros.go:97-101 | the add sentence is `/ip/firewall/address-list/add` with the list name after `=list=` and the address after `=address=` |
| Routeros.ListQuery | ros.go:119-122 | the list query is `/ip/firewall/address-list/print` with the list name after `?list=` |
| Routeros.EntryQuery | ros.go:170-173 | the entry query is `/ip/firewall/address-list/print` with the list name after `?list=` and the address after `?address=` |
| Routeros.RemoveCommand | ros.go:125-127 | the remove sentence is `/ip/firewall/address-list/remove` with the entry's identifier after `=.id=` |
| Routeros.ArpQuery | ros.go:195-198 | the ARP query is `/ip/arp/print` with the address after `?address=` |
| Routeros.Field | ros.go:126 | a Go map read of a reply entry: the field's value when present, "" when absent |
| Routeros.SweepError | ros.go:122-139 | a sweep over no entries returns the query's error; over some entries, a transport error or nil, nil exactly when the last entry's remove went through |
| Routeros.RemoveCommands | ros.go:123-131 | the removes of a sweep are one per reply entry, in reply order, the i-th carrying `=.id=` and the i-th entry's `.id` field |
| Routeros.MacOf | ros.go:199-201 | a one-entry reply gives that entry's `mac-address` ("" when it has none); zero or several entries give ""; so a non-empty MAC comes only from a one-entry reply carrying it |
| Routeros.RemoveCommandsSnoc | ros.go:123-131 | one more reply entry adds exactly its own remove at the end of the sweep |
| Routeros.Overwrite | ros.go:122-131 | the loop's error variable: the query's error when no entry is found, otherwise whatever the remove commands last wrote, a transport error or nil |
| Routeros.OverwriteIsSweepError | ros.go:122-131 | overwriting the error variable with each remove's error, as the loop does, leaves exactly `SweepError`: every earlier failure, and the query's failure when entries exist, is lost |
| Routeros.Ros.constructor | ros.go:10-19 | a new session is Go's zero value: all settings empty or 0, no handle, nothing issued |
| Routeros.Ros.SetID | ros.go:21-23 | sets `id` and no other field |
| Routeros.Ros.GetID | ros.go:25-27 | returns `id` |
| Routeros.Ros.SetBitosisID | ros.go:29-31 | sets `bitosisID` and no other field |
| Routeros.Ros.GetBitosisID | ros.go:33-35 | returns `bitosisID` |
| Routeros.Ros.SetUsername | ros.go:37-39 | sets `username` and no other field |
| Routeros.Ros.SetPassword | ros.go:41-43 | sets `password` and no other field |
| Routeros.Ros.SetAddress | ros.go:45-47 | sets `address` and no other field |
| Routeros.Ros.GetAddress | ros.go:49-51 | returns `address` |
| Routeros.Ros.SetPort | ros.go:53-55 | sets `port` and no other field |
| Routeros.Ros.Establish | ros.go:66-81 | dials `Endpoint(address, port)` with the stored credentials and overwrites `client` with what the dial returns: a fresh handle and nil on success, no handle and the transport error on failure; nothing else changes and no command is issued |
| Routeros.Ros.Connect | ros.go:57-64 | stores all four settings, then behaves as the connect sequence on them; identifiers, flag and log are unchanged |
| Routeros.Ros.Reconnect | ros.go:83-86 | re-runs the connect sequence on the stored settings, replacing the handle, and always returns nil |
| Routeros.Ros.AddListEntry | ros.go:88-112 | an empty list, then an empty ip, gives a validation error naming the argument; no handle gives not-connected with the address; in all three cases nothing is issued; otherwise exactly one add with `=list=`, `=address=` is issued and its error returned |
| Routeros.Ros.Sweep | ros.go:123-131 | the loop issues exactly the removes of `RemoveCommands` and returns the last remove's error, or the query's error for an empty reply |
| Routeros.Ros.DelListEntries | ros.go:114-141 | empty list: validation error; no handle: not-connected; neither issues anything; otherwise one `?list=` print, then one remove per reply entry in order, returning the sweep's error |
| Routeros.Ros.GetFirewallListsByName | ros.go:143-159 | no validation; no handle: not-connected and nothing issued; otherwise one `?list=` print whose error is returned |
| Routeros.Ros.DelListEntry | ros.go:161-192 | empty list, then empty ip: validation error; no handle: not-connected; none issues anything; otherwise one print filtered by `?list=` and `?address=`, then one remove per reply entry (duplicates included), returning the sweep's error |
| Routeros.Ros.GetMacByIP | ros.go:194-211 | no handle: empty MAC, not-connected, nothing issued; otherwise one `?address=` ARP print, the MAC of a one-entry reply (else ""), and the query's own error |
| Scenarios.SettersAndGetters | ros.go:21-55 | after setting every field, each getter returns the value last set for its own field |
| Scenarios.ConnectDialsAddressAndPort | ros.go:57-72 | connecting to 10.0.0.1 on port 8728 dials "10.0.0.1:8728" |
| Scenarios.DeleteBlockedList | ros.go:114-141 | with entries *1, *2, *3 and one failing remove, all three removes are issued in order after the query, and an error comes back only when the failing one is *3 |
| Scenarios.AddBlockedAddress | ros.go:97-111 | adding 10.0.0.5 to "blocked" issues exactly `/ip/firewall/address-list/add =list=blocked =address=10.0.0.5` |
| Scenarios.MacLookups | ros.go:194-211 | a one-entry ARP reply yields its MAC; a two-entry reply yields "" with no error |
| Scenarios.NotConnectedIssuesNothing | ros.go:100-104 | an unconnected session answers add, both deletes, the list query and the MAC lookup with not-connected naming its address (the lookup also with an empty MAC), checks arguments first, and issues no command |
| Scenarios.ReconnectAfterRefusal | ros.go:83-86 | Connect reports a refused dial, Reconnect reports nil even when refused, and after a successful reconnect an add reaches the device |

## Left out

- `Disconnect` (ros.go:213-216): it only calls the transport's `Close`, and whether that is safe on a missing handle depends on the transport. The transport is not part of this model.
- The wire protocol and transport (`Dial`, `Client`, `Run`, `Reply`, `Close`) are a scripted oracle. A device's answers depend only on the command. So a `print` after a `remove` does not reflect the removal.
- Transport.Dial: a failed dial is modelled as returning no handle. The real `Dial` is not part of this model.
- `Run` always yields a reply. The source reads `r.Re` even after a failed query, which would dereference a nil reply if the transport returned none. The model instead runs the removes over whatever entries the failed query's reply holds.
- Logging (`log.Debugf`, `log.Dump`, `log.Error`) and the `fmt.Printf` of each entry in `GetFirewallListsByName` are diagnostic output only.
- `errors.Wrapf` and `errors.WithStack`: their results are discarded in the source, so they do not change the returned error. Error message text is not modelled; errors are kinds.
- `Verbose` is a field of the class but no core operation reads it.
- Go's 64-bit `int` for `id`, `bitosisID` and `port` is an unbounded `int`. No core operation does arithmetic on them. `%d` rendering is modelled for every int, negatives included.
- Concurrency: the source has none.
