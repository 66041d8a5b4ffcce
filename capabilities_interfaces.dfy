/**
 * The interface part of the Common.Capabilities completion: the interface
 * list in its fixed order, each interface's commands and events keyed by
 * "<Interface>.<name>", and the synchronizable and authentication-required
 * command lists gathered interface by interface.
 */
module CapabilitiesInterfaces {
  import opened Wrappers

  /** The interfaces HandleCapabilities lists, as InterfaceClass.NameEnum names them. */
  datatype InterfaceName =
    | Common | CardReader | CashDispenser | CashManagement | Crypto | Keyboard | KeyManagement
    | PinPad | TextTerminal | Storage | Printer | Lights | Auxiliaries
  {
    function Text(): string
    {
      match this
      case Common => "Common"
      case CardReader => "CardReader"
      case CashDispenser => "CashDispenser"
      case CashManagement => "CashManagement"
      case Crypto => "Crypto"
      case Keyboard => "Keyboard"
      case KeyManagement => "KeyManagement"
      case PinPad => "PinPad"
      case TextTerminal => "TextTerminal"
      case Storage => "Storage"
      case Printer => "Printer"
      case Lights => "Lights"
      case Auxiliaries => "Auxiliaries"
    }
  }

  /** The order the interfaces are examined and listed in. */
  const InterfaceOrder: seq<InterfaceName> :=
    [Common, CardReader, CashDispenser, CashManagement, Crypto, Keyboard, KeyManagement,
     PinPad, TextTerminal, Storage, Printer, Lights, Auxiliaries]

  /** What the device class reports for one interface it supports; each list may be null. */
  datatype InterfaceSupport = InterfaceSupport(
    commands: Option<seq<string>>,
    events: Option<seq<string>>,
    synchronizableCommands: Option<seq<string>>,
    authenticationRequired: Option<seq<string>>)

  /** The supported version range every command (or every event) of every interface shares. */
  datatype VersionInfo = VersionInfo(versions: string)

  /** InterfaceClass: the name, the command and event dictionaries, and MaximumRequests. */
  datatype InterfaceEntry = InterfaceEntry(
    name: InterfaceName,
    commands: Option<map<string, VersionInfo>>,
    events: Option<map<string, VersionInfo>>,
    maximumRequests: int)

  /** The gathered lists, in the order the handler fills them. */
  datatype Assembly = Assembly(interfaces: seq<InterfaceEntry>, synchronizable: seq<string>, authenticationRequired: seq<string>)

  /** The key a command or event is given: "<Interface>.<name>". */
  function Qualify(n: InterfaceName, x: string): string
  {
    n.Text() + "." + x
  }

  function QualifyAll(n: InterfaceName, xs: seq<string>): (r: seq<string>)
    ensures |r| == |xs| && forall i :: 0 <= i < |xs| ==> r[i] == Qualify(n, xs[i])
  {
    seq(|xs|, i requires 0 <= i < |xs| => Qualify(n, xs[i]))
  }

  predicate Distinct(xs: seq<string>)
  {
    forall i, j :: 0 <= i < j < |xs| ==> xs[i] != xs[j]
  }

  /** Enumerable.ToDictionary with one value for every key: refuses a repeated key. */
  function ToDictionary<V>(keys: seq<string>, v: V): (r: Result<map<string, V>>)
    ensures r.Success? <==> Distinct(keys)
    ensures r.Failure? ==> r.error == DuplicateKeyFault
    ensures r.Success? ==> r.value.Keys == (set k | k in keys) && forall k :: k in r.value ==> r.value[k] == v
  {
    if keys == [] then Success(map[])
    else
      var last := keys[|keys| - 1];
      DistinctAppend(keys[..|keys| - 1], last);
      assert keys[..|keys| - 1] + [last] == keys;
      var rest :- ToDictionary(keys[..|keys| - 1], v);
      if last in rest then Failure(DuplicateKeyFault)
      else
        assert forall k :: k in keys <==> k in keys[..|keys| - 1] || k == last;
        Success(rest[last := v])
  }

  /** A list with one more key is distinct exactly when the shorter one is and lacks that key. */
  lemma DistinctAppend(xs: seq<string>, x: string)
    ensures Distinct(xs + [x]) <==> Distinct(xs) && x !in xs
  {
    var ys := xs + [x];
    if Distinct(ys) {
      forall i, j | 0 <= i < j < |xs| ensures xs[i] != xs[j] {
        assert ys[i] == xs[i] && ys[j] == xs[j];
      }
      forall i | 0 <= i < |xs| ensures xs[i] != x {
        assert ys[i] == xs[i] && ys[|xs|] == x;
      }
    }
    if Distinct(xs) && x !in xs {
      forall i, j | 0 <= i < j < |ys| ensures ys[i] != ys[j] {
        if j < |xs| {
          assert ys[i] == xs[i] && ys[j] == xs[j];
        } else {
          assert ys[i] == xs[i] && ys[j] == x;
        }
      }
    }
  }

  /** Distinct names give distinct keys, and repeated names repeated keys. */
  lemma QualifyPreservesDistinct(n: InterfaceName, xs: seq<string>)
    ensures Distinct(QualifyAll(n, xs)) <==> Distinct(xs)
  {
    var ys := QualifyAll(n, xs);
    forall i, j | 0 <= i < j < |xs| && ys[i] == ys[j]
      ensures xs[i] == xs[j]
    {
      var p := n.Text() + ".";
      assert ys[i] == p + xs[i] && ys[j] == p + xs[j];
      assert xs[i] == (p + xs[i])[|p|..];
      assert xs[j] == (p + xs[j])[|p|..];
    }
  }

  /** A dictionary of one interface's commands or events, null when the list is null. */
  function Dictionary(n: InterfaceName, xs: Option<seq<string>>, v: VersionInfo): (r: Result<Option<map<string, VersionInfo>>>)
    ensures r.Failure? <==> xs.Some? && !Distinct(xs.value)
    ensures r.Failure? ==> r.error == DuplicateKeyFault
    ensures r.Success? ==> (r.value.Some? <==> xs.Some?)
    ensures r.Success? && r.value.Some? ==>
              r.value.value.Keys == (set x | x in xs.value :: Qualify(n, x))
              && forall k :: k in r.value.value ==> r.value.value[k] == v
  {
    if xs.None? then Success(None)
    else
      QualifyPreservesDistinct(n, xs.value);
      var keys := QualifyAll(n, xs.value);
      assert (set k | k in keys) == (set x | x in xs.value :: Qualify(n, x)) by {
        forall k | k in keys ensures k in (set x | x in xs.value :: Qualify(n, x)) {
          var i :| 0 <= i < |keys| && keys[i] == k;
          assert xs.value[i] in xs.value;
        }
        forall x | x in xs.value ensures Qualify(n, x) in keys {
          var i :| 0 <= i < |xs.value| && xs.value[i] == x;
          assert keys[i] == Qualify(n, x);
        }
      }
      var d :- ToDictionary(keys, v);
      Success(Some(d))
  }

  /** The entry for one supported interface; MaximumRequests is always 0. */
  function EntryOf(n: InterfaceName, s: InterfaceSupport, commandVersion: VersionInfo, eventVersion: VersionInfo): (r: Result<InterfaceEntry>)
    ensures r.Failure? <==> (s.commands.Some? && !Distinct(s.commands.value)) || (s.events.Some? && !Distinct(s.events.value))
    ensures r.Failure? ==> r.error == DuplicateKeyFault
    ensures r.Success? ==> r.value.name == n && r.value.maximumRequests == 0
                           && (r.value.commands.Some? <==> s.commands.Some?) && (r.value.events.Some? <==> s.events.Some?)
    ensures r.Success? && r.value.commands.Some? ==>
              r.value.commands.value.Keys == (set x | x in s.commands.value :: Qualify(n, x))
              && forall k :: k in r.value.commands.value ==> r.value.commands.value[k] == commandVersion
    ensures r.Success? && r.value.events.Some? ==>
              r.value.events.value.Keys == (set x | x in s.events.value :: Qualify(n, x))
              && forall k :: k in r.value.events.value ==> r.value.events.value[k] == eventVersion
  {
    var commands :- Dictionary(n, s.commands, commandVersion);
    var events :- Dictionary(n, s.events, eventVersion);
    Success(InterfaceEntry(n, commands, events, 0))
  }

  /** A prefixed list to append: nothing for a null or empty list. */
  function PrefixedList(n: InterfaceName, xs: Option<seq<string>>): seq<string>
  {
    if xs.Some? && |xs.value| > 0 then QualifyAll(n, xs.value) else []
  }

  /** The interfaces of `order` the device supports, in that order. */
  function Listed(supported: map<InterfaceName, InterfaceSupport>, order: seq<InterfaceName>): (r: seq<InterfaceName>)
    ensures |r| <= |order|
    ensures forall n :: n in r <==> n in order && n in supported
  {
    if order == [] then []
    else
      var n := order[|order| - 1];
      Listed(supported, order[..|order| - 1]) + (if n in supported then [n] else [])
  }

  /** One interface's block: nothing for an unsupported interface, else its entry and its prefixed lists appended. */
  function Step(supported: map<InterfaceName, InterfaceSupport>, prev: Assembly, n: InterfaceName,
                commandVersion: VersionInfo, eventVersion: VersionInfo): Result<Assembly>
  {
    if n !in supported then Success(prev)
    else
      var entry :- EntryOf(n, supported[n], commandVersion, eventVersion);
      Success(Assembly(prev.interfaces + [entry],
                       prev.synchronizable + PrefixedList(n, supported[n].synchronizableCommands),
                       prev.authenticationRequired + PrefixedList(n, supported[n].authenticationRequired)))
  }

  /** The lists after the blocks for the interfaces of `order`, one after another. */
  function Collect(supported: map<InterfaceName, InterfaceSupport>, order: seq<InterfaceName>,
                   commandVersion: VersionInfo, eventVersion: VersionInfo): Result<Assembly>
  {
    if order == [] then Success(Assembly([], [], []))
    else
      var prev :- Collect(supported, order[..|order| - 1], commandVersion, eventVersion);
      Step(supported, prev, order[|order| - 1], commandVersion, eventVersion)
  }

  /** The interface part of HandleCapabilities: the Common interface must be reported. */
  function Assemble(supported: map<InterfaceName, InterfaceSupport>, commandVersion: VersionInfo, eventVersion: VersionInfo): Result<Assembly>
  {
    if Common !in supported then Failure(AssertionFault("Common interface must be supported."))
    else Collect(supported, InterfaceOrder, commandVersion, eventVersion)
  }

  /** One interface's block of HandleCapabilities, appending to the lists built so far. */
  method AddInterface(supported: map<InterfaceName, InterfaceSupport>, n: InterfaceName,
                      commandVersion: VersionInfo, eventVersion: VersionInfo,
                      interfaces: seq<InterfaceEntry>, synchronizable: seq<string>, authenticationRequired: seq<string>)
    returns (r: Result<Assembly>)
    ensures r == Step(supported, Assembly(interfaces, synchronizable, authenticationRequired), n, commandVersion, eventVersion)
  {
    if n !in supported {
      return Success(Assembly(interfaces, synchronizable, authenticationRequired));
    }
    var s := supported[n];
    var entry := EntryOf(n, s, commandVersion, eventVersion);
    if entry.Failure? {
      return Failure(entry.error);
    }
    var sync := synchronizable;
    if s.synchronizableCommands.Some? && |s.synchronizableCommands.value| > 0 {
      sync := sync + QualifyAll(n, s.synchronizableCommands.value);
    }
    var auth := authenticationRequired;
    if s.authenticationRequired.Some? && |s.authenticationRequired.value| > 0 {
      auth := auth + QualifyAll(n, s.authenticationRequired.value);
    }
    assert sync == synchronizable + PrefixedList(n, s.synchronizableCommands);
    assert auth == authenticationRequired + PrefixedList(n, s.authenticationRequired);
    r := Success(Assembly(interfaces + [entry.value], sync, auth));
  }

  /** The thirteen interface blocks of HandleCapabilities, run one after another in their fixed order. */
  method BuildInterfaces(supported: map<InterfaceName, InterfaceSupport>, commandVersion: VersionInfo, eventVersion: VersionInfo)
    returns (r: Result<Assembly>)
    ensures r == Assemble(supported, commandVersion, eventVersion)
  {
    if Common !in supported {
      return Failure(AssertionFault("Common interface must be supported."));
    }
    var acc := Assembly([], [], []);
    var i := 0;
    while i < |InterfaceOrder|
      invariant 0 <= i <= |InterfaceOrder|
      invariant Collect(supported, InterfaceOrder[..i], commandVersion, eventVersion) == Success(acc)
    {
      var n := InterfaceOrder[i];
      assert InterfaceOrder[..i + 1][..i] == InterfaceOrder[..i];
      var next := AddInterface(supported, n, commandVersion, eventVersion, acc.interfaces, acc.synchronizable, acc.authenticationRequired);
      if next.Failure? {
        CollectStopsAtFailure(supported, InterfaceOrder, i + 1, commandVersion, eventVersion);
        return next;
      }
      acc := next.value;
      i := i + 1;
    }
    assert InterfaceOrder[..i] == InterfaceOrder;
    r := Success(acc);
  }

  /** A failure in the first k blocks is the failure of the whole sequence. */
  lemma {:induction false} CollectStopsAtFailure(supported: map<InterfaceName, InterfaceSupport>, order: seq<InterfaceName>, k: nat,
                                                 commandVersion: VersionInfo, eventVersion: VersionInfo)
    requires k <= |order|
    requires Collect(supported, order[..k], commandVersion, eventVersion).Failure?
    ensures Collect(supported, order, commandVersion, eventVersion) == Collect(supported, order[..k], commandVersion, eventVersion)
    decreases |order| - k
  {
    if k < |order| {
      assert order[..k + 1][..k] == order[..k];
      CollectStopsAtFailure(supported, order, k + 1, commandVersion, eventVersion);
    } else {
      assert order[..k] == order;
    }
  }

  /** The entries come out one per supported interface, in the order examined, each built from its own support record. */
  lemma {:induction false} CollectEntries(supported: map<InterfaceName, InterfaceSupport>, order: seq<InterfaceName>,
                                          commandVersion: VersionInfo, eventVersion: VersionInfo)
    requires Collect(supported, order, commandVersion, eventVersion).Success?
    ensures var a := Collect(supported, order, commandVersion, eventVersion).value;
            var names := Listed(supported, order);
            |a.interfaces| == |names|
            && forall i :: 0 <= i < |names| ==>
                 names[i] in supported && Success(a.interfaces[i]) == EntryOf(names[i], supported[names[i]], commandVersion, eventVersion)
    decreases |order|
  {
    if order != [] {
      var init := order[..|order| - 1];
      var n := order[|order| - 1];
      var prev := Collect(supported, init, commandVersion, eventVersion);
      assert prev.Success?;
      CollectEntries(supported, init, commandVersion, eventVersion);
      var a := Collect(supported, order, commandVersion, eventVersion).value;
      var names := Listed(supported, order);
      if n in supported {
        var entry := EntryOf(n, supported[n], commandVersion, eventVersion);
        assert a.interfaces == prev.value.interfaces + [entry.value];
        assert names == Listed(supported, init) + [n];
      } else {
        assert a == prev.value;
        assert names == Listed(supported, init);
      }
    }
  }

  /** A prefixed command is in the gathered list exactly when some supported interface of `order` lists it. */
  lemma {:induction false} CollectSynchronizable(supported: map<InterfaceName, InterfaceSupport>, order: seq<InterfaceName>,
                                                 commandVersion: VersionInfo, eventVersion: VersionInfo, x: string)
    requires Collect(supported, order, commandVersion, eventVersion).Success?
    ensures x in Collect(supported, order, commandVersion, eventVersion).value.synchronizable <==>
            exists n :: n in order && n in supported && x in PrefixedList(n, supported[n].synchronizableCommands)
    ensures x in Collect(supported, order, commandVersion, eventVersion).value.authenticationRequired <==>
            exists n :: n in order && n in supported && x in PrefixedList(n, supported[n].authenticationRequired)
    decreases |order|
  {
    if order != [] {
      var front := order[..|order| - 1];
      CollectSynchronizable(supported, front, commandVersion, eventVersion, x);
      assert forall n :: n in order <==> n in front || n == order[|order| - 1];
    }
  }

  /** A repeated command or event name in any supported interface refuses the whole assembly. */
  lemma {:induction false} CollectFailsOnDuplicates(supported: map<InterfaceName, InterfaceSupport>, order: seq<InterfaceName>,
                                                    commandVersion: VersionInfo, eventVersion: VersionInfo)
    ensures Collect(supported, order, commandVersion, eventVersion).Failure? <==>
            exists n :: n in order && n in supported && HasDuplicates(supported[n])
    ensures Collect(supported, order, commandVersion, eventVersion).Failure? ==>
            Collect(supported, order, commandVersion, eventVersion).error == DuplicateKeyFault
    decreases |order|
  {
    if order != [] {
      var front := order[..|order| - 1];
      CollectFailsOnDuplicates(supported, front, commandVersion, eventVersion);
      assert forall n :: n in order <==> n in front || n == order[|order| - 1];
    }
  }

  predicate HasDuplicates(s: InterfaceSupport)
  {
    (s.commands.Some? && !Distinct(s.commands.value)) || (s.events.Some? && !Distinct(s.events.value))
  }

  /** When the first interface examined is supported, it is listed first. */
  lemma {:induction false} FirstSupportedComesFirst(supported: map<InterfaceName, InterfaceSupport>, order: seq<InterfaceName>)
    requires order != [] && order[0] in supported
    ensures Listed(supported, order) != [] && Listed(supported, order)[0] == order[0]
    decreases |order|
  {
    if |order| > 1 {
      var front := order[..|order| - 1];
      assert front[0] == order[0];
      FirstSupportedComesFirst(supported, front);
    }
  }

  /**
   * The interface list: Common first, then the supported interfaces in the
   * fixed order, each entry built from that interface's own report (so its
   * keys are "<Interface>.<name>", all mapped to the one shared version record).
   */
  lemma InterfaceList(supported: map<InterfaceName, InterfaceSupport>, commandVersion: VersionInfo, eventVersion: VersionInfo)
    requires Assemble(supported, commandVersion, eventVersion).Success?
    ensures var a := Assemble(supported, commandVersion, eventVersion).value;
            var names := Listed(supported, InterfaceOrder);
            |a.interfaces| == |names| && names != [] && names[0] == Common && a.interfaces[0].name == Common
            && forall i :: 0 <= i < |names| ==>
                 names[i] in supported && Success(a.interfaces[i]) == EntryOf(names[i], supported[names[i]], commandVersion, eventVersion)
  {
    CollectEntries(supported, InterfaceOrder, commandVersion, eventVersion);
    FirstSupportedComesFirst(supported, InterfaceOrder);
  }

  /**
   * A device that reports every interface gets all of them listed, in the
   * fixed order; the interfaces outside that order (camera, check scanner and
   * the rest) have no name here and are never listed.
   */
  lemma {:induction false} AllInterfacesListed(supported: map<InterfaceName, InterfaceSupport>, order: seq<InterfaceName>)
    requires forall n: InterfaceName :: n in supported
    ensures Listed(supported, order) == order
    decreases |order|
  {
    if order != [] {
      AllInterfacesListed(supported, order[..|order| - 1]);
      assert order[..|order| - 1] + [order[|order| - 1]] == order;
    }
  }
}
