/**
 * Client scenarios: what a caller of `Ros` can conclude from the contracts
 * alone, against small scripted devices.
 */
module Scenarios {
  import opened Transport
  import opened Routeros

  /** A network on which every dial succeeds and `dev` answers. */
  function Accepting(dev: Device): Network
  {
    Network((endpoint: string, username: string, password: string) => Ok, dev)
  }

  /** A network on which every dial is refused. */
  function Refusing(dev: Device): Network
  {
    Network((endpoint: string, username: string, password: string) => Failed("connection refused"), dev)
  }

  /**
   * A device whose list "blocked" holds entries "*1", "*2", "*3", and on which
   * removing the entry `failing` fails.
   */
  function BlockedDevice(failing: string): Device
  {
    Device((cmd: Command) =>
      if cmd == ListQuery("blocked") then
        Outcome([map[".id" := "*1"], map[".id" := "*2"], map[".id" := "*3"]], Ok)
      else if cmd == RemoveCommand(failing) then Outcome([], Failed("no such item"))
      else Outcome([], Ok))
  }

  /** A device whose ARP table answers every query with `rows`. */
  function ArpDevice(rows: seq<Entry>): Device
  {
    Device((cmd: Command) => Outcome(rows, Ok))
  }

  /** Each setter changes only its own field, and each getter returns the last value set. */
  method SettersAndGetters(id: int, tag: int, address: string)
      returns (gotId: int, gotTag: int, gotAddress: string)
    ensures gotId == id && gotTag == tag && gotAddress == address
  {
    var ros := new Ros();
    ros.SetAddress(address);
    ros.SetID(id);
    ros.SetBitosisID(tag);
    ros.SetUsername("admin");
    ros.SetPassword("secret");
    ros.SetPort(8728);
    gotId := ros.GetID();
    gotTag := ros.GetBitosisID();
    gotAddress := ros.GetAddress();
  }

  /** Connecting with a port dials "address:port". */
  method ConnectDialsAddressAndPort() returns (err: Error, ghost endpoint: string)
    ensures err == Nil && endpoint == "10.0.0.1:8728"
  {
    var ros := new Ros();
    err := ros.Connect(Accepting(ArpDevice([])), "admin", "", "10.0.0.1", 8728);
    endpoint := ros.client.endpoint;
    assert Addressing.NatDigits(8728) == Addressing.NatDigits(872) + "8";
    assert Addressing.NatDigits(872) == Addressing.NatDigits(87) + "2";
    assert Addressing.NatDigits(87) == Addressing.NatDigits(8) + "7";
  }

  /**
   * Deleting the list "blocked" issues one query and then one remove per
   * entry, in reply order, even when one remove fails; only the last remove's
   * error comes back.
   */
  method DeleteBlockedList(failing: string) returns (err: Error, ghost issued: seq<Command>)
    ensures issued == [ListQuery("blocked"), RemoveCommand("*1"), RemoveCommand("*2"), RemoveCommand("*3")]
    ensures err != Nil <==> failing == "*3"
  {
    var ros := new Ros();
    var dev := BlockedDevice(failing);
    var connectErr := ros.Connect(Accepting(dev), "admin", "", "10.0.0.1", 0);
    err := ros.DelListEntries("blocked");
    issued := ros.log;
    var rows := [map[".id" := "*1"], map[".id" := "*2"], map[".id" := "*3"]];
    assert dev.respond(ListQuery("blocked")).entries == rows;
    assert RemoveCommands(rows) == [RemoveCommand("*1"), RemoveCommand("*2"), RemoveCommand("*3")];
    assert RemoveCommand("*3") == RemoveCommand(failing) <==> failing == "*3" by {
      if RemoveCommand("*3") == RemoveCommand(failing) {
        assert "=.id=*3" == "=.id=" + failing;
        assert "=.id=*3"[5..] == ("=.id=" + failing)[5..];
      }
    }
  }

  /** Adding "10.0.0.5" to "blocked" issues exactly the one add sentence. */
  method AddBlockedAddress() returns (err: Error, ghost issued: seq<Command>)
    ensures err == Nil
    ensures issued == [Command("/ip/firewall/address-list/add", ["=list=blocked", "=address=10.0.0.5"])]
  {
    var ros := new Ros();
    var connectErr := ros.Connect(Accepting(ArpDevice([])), "admin", "", "10.0.0.1", 0);
    err := ros.AddListEntry("blocked", "10.0.0.5");
    issued := ros.log;
    assert "=list=" + "blocked" == "=list=blocked";
    assert "=address=" + "10.0.0.5" == "=address=10.0.0.5";
  }

  /**
   * A MAC address comes back only from a one-entry ARP reply; two matching
   * entries give an empty MAC and no error.
   */
  method MacLookups() returns (single: string, ambiguous: string, ambiguousErr: Error)
    ensures single == "aa:bb:cc:dd:ee:ff"
    ensures ambiguous == "" && ambiguousErr == Nil
  {
    var row1 := map["address" := "10.0.0.5", "mac-address" := "aa:bb:cc:dd:ee:ff"];
    var row2 := map["address" := "10.0.0.5", "mac-address" := "11:22:33:44:55:66"];
    var one := new Ros();
    var e1 := one.Connect(Accepting(ArpDevice([row1])), "admin", "", "10.0.0.1", 0);
    var err1;
    single, err1 := one.GetMacByIP("10.0.0.5");
    var two := new Ros();
    var e2 := two.Connect(Accepting(ArpDevice([row1, row2])), "admin", "", "10.0.0.1", 0);
    ambiguous, ambiguousErr := two.GetMacByIP("10.0.0.5");
  }

  /**
   * A session never connected refuses every command with "not connected",
   * naming its address, and issues nothing; validation still comes first.
   */
  method NotConnectedIssuesNothing(address: string)
      returns (addErr: Error, delErr: Error, listErr: Error, oneErr: Error, emptyErr: Error,
               mac: string, macErr: Error, ghost issued: seq<Command>)
    ensures addErr == NotConnected(address) && delErr == NotConnected(address)
    ensures listErr == NotConnected(address) && oneErr == NotConnected(address)
    ensures emptyErr == EmptyArgument("Ros/DelListEntry", "ip")
    ensures mac == "" && macErr == NotConnected(address)
    ensures issued == []
  {
    var ros := new Ros();
    ros.SetAddress(address);
    addErr := ros.AddListEntry("blocked", "10.0.0.5");
    delErr := ros.DelListEntries("blocked");
    listErr := ros.GetFirewallListsByName("blocked");
    oneErr := ros.DelListEntry("blocked", "10.0.0.5");
    emptyErr := ros.DelListEntry("blocked", "");
    mac, macErr := ros.GetMacByIP("10.0.0.5");
    issued := ros.log;
  }

  /**
   * Connect reports a refused dial, but Reconnect reports success even when
   * the dial is refused; once a later reconnect succeeds, commands reach the
   * device again.
   */
  method ReconnectAfterRefusal() returns (first: Error, refused: Error, retried: Error, added: Error)
    ensures first == TransportFailure("connection refused")
    ensures refused == Nil && retried == Nil && added == Nil
  {
    var ros := new Ros();
    var dev := ArpDevice([]);
    first := ros.Connect(Refusing(dev), "admin", "", "10.0.0.1", 8728);
    refused := ros.Reconnect(Refusing(dev));
    retried := ros.Reconnect(Accepting(dev));
    added := ros.AddListEntry("blocked", "10.0.0.5");
  }
}
