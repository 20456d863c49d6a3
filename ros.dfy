/**
 * The `Ros` session of ros.go: connection settings, the transport handle, and
 * the translation of address-list and ARP intents into command sentences.
 * Every command the session runs is appended to the ghost `log`, so contracts
 * can say which commands an operation issues and in what order.
 */
module Routeros {
  import opened Transport
  import opened Addressing

  /** The errors a session operation returns, by kind; `Nil` is Go's nil error. */
  datatype Error =
    | Nil
    | EmptyArgument(op: string, arg: string)   // a required argument was ""
    | NotConnected(address: string)             // the session holds no handle
    | TransportFailure(cause: string)           // the transport reported a failure

  /** The session error for a transport call's fault. */
  function FromFault(f: Fault): (e: Error)
    ensures e == Nil <==> f.Ok?
    ensures e.Nil? || e.TransportFailure?
  {
    match f
    case Ok => Nil
    case Failed(cause) => TransportFailure(cause)
  }

  const AddWord := "/ip/firewall/address-list/add"
  const PrintWord := "/ip/firewall/address-list/print"
  const RemoveWord := "/ip/firewall/address-list/remove"
  const ArpPrintWord := "/ip/arp/print"

  /** The add sentence: the list name after "=list=", the address after "=address=". */
  function AddCommand(list: string, ip: string): (c: Command)
    ensures c.word == AddWord && |c.args| == 2
    ensures |c.args[0]| >= 6 && c.args[0][..6] == "=list=" && c.args[0][6..] == list
    ensures |c.args[1]| >= 9 && c.args[1][..9] == "=address=" && c.args[1][9..] == ip
  {
    Command(AddWord, ["=list=" + list, "=address=" + ip])
  }

  /** The address-list query filtered by list name. */
  function ListQuery(list: string): (c: Command)
    ensures c.word == PrintWord && |c.args| == 1
    ensures |c.args[0]| >= 6 && c.args[0][..6] == "?list=" && c.args[0][6..] == list
  {
    Command(PrintWord, ["?list=" + list])
  }

  /** The address-list query filtered by list name and address. */
  function EntryQuery(list: string, ip: string): (c: Command)
    ensures c.word == PrintWord && |c.args| == 2
    ensures |c.args[0]| >= 6 && c.args[0][..6] == "?list=" && c.args[0][6..] == list
    ensures |c.args[1]| >= 9 && c.args[1][..9] == "?address=" && c.args[1][9..] == ip
  {
    Command(PrintWord, ["?list=" + list, "?address=" + ip])
  }

  /** The remove sentence: the entry's identifier after "=.id=". */
  function RemoveCommand(id: string): (c: Command)
    ensures c.word == RemoveWord && |c.args| == 1
    ensures |c.args[0]| >= 5 && c.args[0][..5] == "=.id=" && c.args[0][5..] == id
  {
    Command(RemoveWord, ["=.id=" + id])
  }

  /** The ARP query filtered by address. */
  function ArpQuery(ip: string): (c: Command)
    ensures c.word == ArpPrintWord && |c.args| == 1
    ensures |c.args[0]| >= 9 && c.args[0][..9] == "?address=" && c.args[0][9..] == ip
  {
    Command(ArpPrintWord, ["?address=" + ip])
  }

  /** A Go map read: the value under `key`, or "" when the key is absent. */
  function Field(e: Entry, key: string): (v: string)
    ensures key in e ==> v == e[key]
    ensures key !in e ==> v == ""
  {
    if key in e then e[key] else ""
  }

  /** The remove commands for `entries`: one per entry, by its ".id", in order. */
  function RemoveCommands(entries: seq<Entry>): (cmds: seq<Command>)
    ensures |cmds| == |entries|
    ensures forall i :: 0 <= i < |entries| ==> cmds[i] == RemoveCommand(Field(entries[i], ".id"))
  {
    if entries == [] then [] else [RemoveCommand(Field(entries[0], ".id"))] + RemoveCommands(entries[1..])
  }

  /**
   * The error a query-then-remove sweep returns: the error of the remove for
   * the last entry when there is one, otherwise the query's own error.
   */
  function SweepError(dev: Device, queryErr: Error, entries: seq<Entry>): (e: Error)
    ensures entries == [] ==> e == queryErr
    ensures entries != [] ==> e.Nil? || e.TransportFailure?
    ensures entries != [] ==>
      (e == Nil <==> dev.respond(RemoveCommand(Field(entries[|entries| - 1], ".id"))).fault.Ok?)
  {
    if entries == [] then queryErr
    else FromFault(dev.respond(RemoveCommand(Field(entries[|entries| - 1], ".id"))).fault)
  }

  /** The MAC address read from an ARP reply: only a reply of exactly one entry gives one. */
  function MacOf(entries: seq<Entry>): (mac: string)
    ensures |entries| != 1 ==> mac == ""
    ensures |entries| == 1 ==> mac == Field(entries[0], "mac-address")
    ensures mac != "" ==> |entries| == 1 && "mac-address" in entries[0] && entries[0]["mac-address"] == mac
  {
    if |entries| == 1 then Field(entries[0], "mac-address") else ""
  }

  /** Whether `c` is a handle opened on `endpoint` with these credentials to `net`. */
  ghost predicate OpenedOn(c: Client?, net: Network, endpoint: string, username: string, password: string)
  {
    c != null && c.endpoint == endpoint && c.username == username &&
    c.password == password && c.device == net.device
  }

  class Ros {
    var id: int
    var bitosisID: int
    var username: string
    var password: string
    var address: string
    var port: int
    var client: Client?
    var verbose: bool
    /** Every command run through this session, in order. */
    ghost var log: seq<Command>

    /** A session as Go's zero value makes it: nothing set, not connected. */
    constructor ()
      ensures id == 0 && bitosisID == 0 && port == 0
      ensures username == "" && password == "" && address == ""
      ensures client == null && !verbose && log == []
    {
      id, bitosisID := 0, 0;
      username, password, address := "", "", "";
      port := 0;
      client := null;
      verbose := false;
      log := [];
    }

    method SetID(id: int)
      modifies this`id
      ensures this.id == id
    {
      this.id := id;
    }

    method GetID() returns (r: int)
      ensures r == id
    {
      r := id;
    }

    method SetBitosisID(id: int)
      modifies this`bitosisID
      ensures bitosisID == id
    {
      bitosisID := id;
    }

    method GetBitosisID() returns (r: int)
      ensures r == bitosisID
    {
      r := bitosisID;
    }

    method SetUsername(username: string)
      modifies this`username
      ensures this.username == username
    {
      this.username := username;
    }

    method SetPassword(password: string)
      modifies this`password
      ensures this.password == password
    {
      this.password := password;
    }

    method SetAddress(address: string)
      modifies this`address
      ensures this.address == address
    {
      this.address := address;
    }

    method GetAddress() returns (r: string)
      ensures r == address
    {
      r := address;
    }

    method SetPort(port: int)
      modifies this`port
      ensures this.port == port
    {
      this.port := port;
    }

    /**
     * The connect sequence on the stored settings (Go's unexported `connect`):
     * dial the endpoint and keep whatever handle the dial returns.
     */
    method Establish(net: Network) returns (err: Error)
      modifies this`client
      ensures var f := net.dial(Endpoint(address, port), username, password);
        && (f.Ok? ==> err == Nil && fresh(client) && OpenedOn(client, net, Endpoint(address, port), username, password))
        && (f.Failed? ==> err == TransportFailure(f.cause) && client == null)
    {
      var addr := address;
      if port != 0 {
        addr := address + ":" + Decimal(port);
      }
      var fault;
      client, fault := Dial(net, addr, username, password);
      err := FromFault(fault);
    }

    /** Stores the four settings, then runs the connect sequence on them. */
    method Connect(net: Network, username: string, password: string, address: string, port: int)
        returns (err: Error)
      modifies this`username, this`password, this`address, this`port, this`client
      ensures this.username == username && this.password == password
      ensures this.address == address && this.port == port
      ensures var f := net.dial(Endpoint(address, port), username, password);
        && (f.Ok? ==> err == Nil && fresh(client) && OpenedOn(client, net, Endpoint(address, port), username, password))
        && (f.Failed? ==> err == TransportFailure(f.cause) && client == null)
    {
      this.username := username;
      this.password := password;
      this.address := address;
      this.port := port;
      err := Establish(net);
    }

    /**
     * Runs the connect sequence again on the stored settings, replacing the
     * handle, and reports success whatever the dial did.
     */
    method Reconnect(net: Network) returns (err: Error)
      modifies this`client
      ensures err == Nil
      ensures var f := net.dial(Endpoint(address, port), username, password);
        && (f.Ok? ==> fresh(client) && OpenedOn(client, net, Endpoint(address, port), username, password))
        && (f.Failed? ==> client == null)
    {
      var ignored := Establish(net);
      err := Nil;
    }

    method AddListEntry(list: string, ip: string) returns (err: Error)
      modifies this`log
      ensures list == "" ==> err == EmptyArgument("Ros/AddListEntry", "list") && log == old(log)
      ensures list != "" && ip == "" ==> err == EmptyArgument("Ros/AddListEntry", "ip") && log == old(log)
      ensures list != "" && ip != "" && client == null ==> err == NotConnected(address) && log == old(log)
      ensures list != "" && ip != "" && client != null ==>
        && log == old(log) + [AddCommand(list, ip)]
        && err == FromFault(client.Run(AddCommand(list, ip)).fault)
    {
      if list == "" {
        return EmptyArgument("Ros/AddListEntry", "list");
      }
      if ip == "" {
        return EmptyArgument("Ros/AddListEntry", "ip");
      }
      if client != null {
        var cmd := AddCommand(list, ip);
        log := log + [cmd];
        var out := client.Run(cmd);
        err := FromFault(out.fault);
      } else {
        err := NotConnected(address);
      }
    }

    /**
     * The loop shared by DelListEntries and DelListEntry: one remove by ".id"
     * per queried entry, in order, carrying on past failures; `err` starts as
     * the query's error and is overwritten by each remove's. `issued` collects
     * the removes the loop runs, in order; the caller appends them to `log`
     * after the loop, which the command-only device cannot tell apart from
     * logging each one as it is run.
     */
    method Sweep(entries: seq<Entry>, queryErr: Error) returns (err: Error, ghost issued: seq<Command>)
      requires client != null
      ensures issued == RemoveCommands(entries)
      ensures err == SweepError(client.device, queryErr, entries)
    {
      err := queryErr;
      issued := [];
      var i := 0;
      while i < |entries|
        invariant 0 <= i <= |entries|
        invariant issued == RemoveCommands(entries[..i])
        invariant err == SweepError(client.device, queryErr, entries[..i])
      {
        var cmd := RemoveCommand(Field(entries[i], ".id"));
        var out := client.Run(cmd);
        err := FromFault(out.fault);
        RemoveCommandsSnoc(entries[..i], entries[i]);
        assert entries[..i + 1] == entries[..i] + [entries[i]];
        assert entries[..i + 1][i] == entries[i];
        issued := issued + [cmd];
        i := i + 1;
      }
      assert entries[..i] == entries;
    }

    method DelListEntries(list: string) returns (err: Error)
      modifies this`log
      ensures list == "" ==> err == EmptyArgument("Ros/DelListEntries", "list") && log == old(log)
      ensures list != "" && client == null ==> err == NotConnected(address) && log == old(log)
      ensures list != "" && client != null ==>
        var out := client.Run(ListQuery(list));
        && log == old(log) + [ListQuery(list)] + RemoveCommands(out.entries)
        && err == SweepError(client.device, FromFault(out.fault), out.entries)
    {
      if list == "" {
        return EmptyArgument("Ros/DelListEntries", "list");
      }
      if client != null {
        var cmd := ListQuery(list);
        log := log + [cmd];
        var out := client.Run(cmd);
        ghost var issued;
        err, issued := Sweep(out.entries, FromFault(out.fault));
        log := log + issued;
      } else {
        err := NotConnected(address);
      }
    }

    /** Queries by list name; the entries found are not handed back. */
    method GetFirewallListsByName(listName: string) returns (err: Error)
      modifies this`log
      ensures client == null ==> err == NotConnected(address) && log == old(log)
      ensures client != null ==>
        && log == old(log) + [ListQuery(listName)]
        && err == FromFault(client.Run(ListQuery(listName)).fault)
    {
      if client != null {
        var cmd := ListQuery(listName);
        log := log + [cmd];
        var out := client.Run(cmd);
        err := FromFault(out.fault);
      } else {
        err := NotConnected(address);
      }
    }

    method DelListEntry(list: string, ip: string) returns (err: Error)
      modifies this`log
      ensures list == "" ==> err == EmptyArgument("Ros/DelListEntry", "list") && log == old(log)
      ensures list != "" && ip == "" ==> err == EmptyArgument("Ros/DelListEntry", "ip") && log == old(log)
      ensures list != "" && ip != "" && client == null ==> err == NotConnected(address) && log == old(log)
      ensures list != "" && ip != "" && client != null ==>
        var out := client.Run(EntryQuery(list, ip));
        && log == old(log) + [EntryQuery(list, ip)] + RemoveCommands(out.entries)
        && err == SweepError(client.device, FromFault(out.fault), out.entries)
    {
      if list == "" {
        return EmptyArgument("Ros/DelListEntry", "list");
      }
      if ip == "" {
        return EmptyArgument("Ros/DelListEntry", "ip");
      }
      if client != null {
        var cmd := EntryQuery(list, ip);
        log := log + [cmd];
        var out := client.Run(cmd);
        ghost var issued;
        err, issued := Sweep(out.entries, FromFault(out.fault));
        log := log + issued;
      } else {
        err := NotConnected(address);
      }
    }

    method GetMacByIP(ipaddr: string) returns (mac: string, err: Error)
      modifies this`log
      ensures client == null ==> mac == "" && err == NotConnected(address) && log == old(log)
      ensures client != null ==>
        var out := client.Run(ArpQuery(ipaddr));
        && log == old(log) + [ArpQuery(ipaddr)]
        && mac == MacOf(out.entries)
        && err == FromFault(out.fault)
    {
      mac := "";
      if client != null {
        var cmd := ArpQuery(ipaddr);
        log := log + [cmd];
        var out := client.Run(cmd);
        err := FromFault(out.fault);
        if |out.entries| == 1 {
          mac := Field(out.entries[0], "mac-address");
        }
      } else {
        err := NotConnected(address);
      }
    }
  }

  /** Extending the queried entries by one adds its remove command at the end. */
  lemma RemoveCommandsSnoc(entries: seq<Entry>, e: Entry)
    ensures RemoveCommands(entries + [e]) == RemoveCommands(entries) + [RemoveCommand(Field(e, ".id"))]
  {
  }

  /**
   * The error variable of the loop at ros.go:123-131 as the code updates it:
   * it starts as the query's error and each remove overwrites it.
   */
  function Overwrite(dev: Device, err: Error, entries: seq<Entry>): (e: Error)
    ensures entries == [] ==> e == err
    ensures entries != [] ==> e.Nil? || e.TransportFailure?
    decreases |entries|
  {
    if entries == [] then err
    else Overwrite(dev, FromFault(dev.respond(RemoveCommand(Field(entries[0], ".id"))).fault), entries[1..])
  }

  /**
   * Overwriting the error entry by entry leaves exactly the last remove's
   * error (or the query's, when nothing was found): every earlier failure and
   * the query's failure are lost.
   */
  lemma {:induction false} OverwriteIsSweepError(dev: Device, queryErr: Error, entries: seq<Entry>)
    ensures Overwrite(dev, queryErr, entries) == SweepError(dev, queryErr, entries)
    decreases |entries|
  {
    if entries != [] {
      var first := FromFault(dev.respond(RemoveCommand(Field(entries[0], ".id"))).fault);
      OverwriteIsSweepError(dev, first, entries[1..]);
      if |entries| > 1 {
        assert entries[1..][|entries| - 2] == entries[|entries| - 1];
      }
    }
  }
}
