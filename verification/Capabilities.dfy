/**
  The capabilities exchange of RFC 3588 section 5.3: what a CER or CEA carries (`AssembleCE`), what the
  receiver reads from it (`DisassembleCE`) and when it accepts the sender (`ValidatePeer`).
 */
module Capabilities {
  import opened Basics
  import opened AvpContainers

  const RELAY: nat := 0xffff_ffff
  const AAA_SUCCESS: nat := 2001
  const AAA_NO_COMMON_APPLICATION: nat := 5010
  const AAA_NO_COMMON_SECURITY: nat := 5017

  datatype VendorSpecificId = VendorSpecificId(vendorId: nat, authAppId: nat, acctAppId: nat)

  /** The local configuration an exchange is assembled from. */
  datatype LocalConfig = LocalConfig(
    identity: seq<int>,
    realm: seq<int>,
    hostAddress: seq<int>,
    sctp: bool,
    advertised: seq<Option<seq<int>>>,   // advertised host names, None where the name does not resolve
    vendor: nat,
    product: seq<int>,
    originStateId: nat,
    version: nat,
    supportedVendors: seq<nat>,
    authApps: seq<nat>,
    acctApps: seq<nat>,
    vendorSpecific: seq<VendorSpecificId>)

  datatype PeerCapabilities = PeerCapabilities(
    host: seq<int>,
    realm: seq<int>,
    hostIps: seq<seq<int>>,
    vendorId: nat,
    productName: seq<int>,
    originStateId: nat,
    firmware: nat,
    inbandSecurityId: nat,
    supportedVendors: seq<nat>,
    authApps: seq<nat>,
    acctApps: seq<nat>,
    vendorSpecific: seq<VendorSpecificId>)

  const NO_CAPABILITIES: PeerCapabilities := PeerCapabilities([], [], [], 0, [], 0, 0, 0, [], [], [], [])

  function TlsId(tls: bool): nat {
    if tls then 1 else 0
  }

  // ---------------------------------------------------------------- the message

  function U32s(ids: seq<nat>): (vs: seq<AvpValue>)
    ensures |vs| == |ids| && forall i :: 0 <= i < |ids| ==> vs[i] == U32(ids[i])
  {
    seq(|ids|, i requires 0 <= i < |ids| => U32(ids[i]))
  }

  function Addresses(addrs: seq<seq<int>>): (vs: seq<AvpValue>)
    ensures |vs| == |addrs| && forall i :: 0 <= i < |addrs| ==> vs[i] == Octets(addrs[i])
  {
    seq(|addrs|, i requires 0 <= i < |addrs| => Octets(addrs[i]))
  }

  function Resolved(names: seq<Option<seq<int>>>): seq<seq<int>> {
    if names == [] then []
    else
      var last := names[|names| - 1];
      Resolved(names[..|names| - 1]) + (if last.Some? then [last.value] else [])
  }

  function HostIps(cfg: LocalConfig): seq<seq<int>> {
    [cfg.hostAddress] + (if cfg.sctp then Resolved(cfg.advertised) else [])
  }

  function OptionalU32(name: AvpName, n: nat): seq<Avp> {
    if n > 0 then [Avp(name, [U32(n)])] else []
  }

  /** One Vendor-Specific-Application-Id: the ids that are set, each in its own container. */
  function RowAvps(row: VendorSpecificId): seq<Avp> {
    OptionalU32(AuthAppId, row.authAppId) + OptionalU32(AcctAppId, row.acctAppId) + OptionalU32(VendorId, row.vendorId)
  }

  function RowGroups(rows: seq<VendorSpecificId>): (vs: seq<AvpValue>)
    ensures |vs| == |rows| && forall i :: 0 <= i < |rows| ==> vs[i] == Grouped(RowAvps(rows[i]))
  {
    seq(|rows|, i requires 0 <= i < |rows| => Grouped(RowAvps(rows[i])))
  }

  /** A container is only added to the message when it has a value. */
  function Container(name: AvpName, values: seq<AvpValue>): seq<Avp> {
    if values == [] then [] else [Avp(name, values)]
  }

  function ScalarAvps(cfg: LocalConfig, tls: bool): seq<Avp> {
    [ Avp(OriginHost, [Octets(cfg.identity)]),
      Avp(OriginRealm, [Octets(cfg.realm)]),
      Avp(HostIp, Addresses(HostIps(cfg))),
      Avp(VendorId, [U32(cfg.vendor)]),
      Avp(ProductName, [Octets(cfg.product)]),
      Avp(OriginStateId, [U32(cfg.originStateId)]),
      Avp(FirmwareRev, [U32(cfg.version)]),
      Avp(InbandSecId, [U32(TlsId(tls))]) ]
  }

  function CeAvps(cfg: LocalConfig, tls: bool): seq<Avp> {
    Container(SupportedVendorId, U32s(cfg.supportedVendors))
    + Container(AuthAppId, U32s(cfg.authApps))
    + Container(AcctAppId, U32s(cfg.acctApps))
    + Container(VendorAppId, RowGroups(cfg.vendorSpecific))
    + ScalarAvps(cfg, tls)
  }

  method FillIds(ids: seq<nat>, name: AvpName, acl: AvpContainerList)
    modifies acl
    ensures acl.containers == old(acl.containers) + Container(name, U32s(ids))
  {
    var widget := Avp(name, []);
    for x := 0 to |ids|
      invariant widget == Avp(name, U32s(ids[..x]))
      invariant acl.containers == old(acl.containers)
    {
      widget := widget.(entries := widget.entries + [U32(ids[x])]);
      assert widget.entries == U32s(ids[..x + 1]);
    }
    assert ids[..|ids|] == ids;
    if widget.entries != [] {
      acl.Add(widget);
    }
  }

  method GroupOf(row: VendorSpecificId) returns (grp: AvpContainerList)
    ensures fresh(grp) && grp.containers == RowAvps(row)
  {
    grp := new AvpContainerList([]);
    if row.authAppId > 0 {
      grp.Add(Avp(AuthAppId, [U32(row.authAppId)]));
    }
    if row.acctAppId > 0 {
      grp.Add(Avp(AcctAppId, [U32(row.acctAppId)]));
    }
    if row.vendorId > 0 {
      grp.Add(Avp(VendorId, [U32(row.vendorId)]));
    }
  }

  method FillRows(rows: seq<VendorSpecificId>, acl: AvpContainerList)
    modifies acl
    ensures acl.containers == old(acl.containers) + Container(VendorAppId, RowGroups(rows))
  {
    var widget := Avp(VendorAppId, []);
    for y := 0 to |rows|
      invariant widget == Avp(VendorAppId, RowGroups(rows[..y]))
      invariant acl.containers == old(acl.containers)
    {
      var grp := GroupOf(rows[y]);
      widget := widget.(entries := widget.entries + [Grouped(grp.containers)]);
      assert widget.entries == RowGroups(rows[..y + 1]);
    }
    assert rows[..|rows|] == rows;
    if widget.entries != [] {
      acl.Add(widget);
    }
  }

  method HostIpAvp(cfg: LocalConfig) returns (hostIp: Avp)
    ensures hostIp == Avp(HostIp, Addresses(HostIps(cfg)))
  {
    hostIp := Avp(HostIp, [Octets(cfg.hostAddress)]);
    assert hostIp.entries == Addresses([cfg.hostAddress]);
    if cfg.sctp {
      for i := 0 to |cfg.advertised|
        invariant hostIp == Avp(HostIp, Addresses([cfg.hostAddress] + Resolved(cfg.advertised[..i])))
      {
        assert cfg.advertised[..i + 1][..i] == cfg.advertised[..i];
        if cfg.advertised[i].Some? {
          hostIp := hostIp.(entries := hostIp.entries + [Octets(cfg.advertised[i].value)]);
        }
        assert hostIp.entries == Addresses([cfg.hostAddress] + Resolved(cfg.advertised[..i + 1]));
      }
      assert cfg.advertised[..|cfg.advertised|] == cfg.advertised;
    }
  }

  method FillScalars(cfg: LocalConfig, tls: bool, hostIp: Avp, acl: AvpContainerList)
    requires hostIp == Avp(HostIp, Addresses(HostIps(cfg)))
    modifies acl
    ensures acl.containers == old(acl.containers) + ScalarAvps(cfg, tls)
  {
    acl.Add(Avp(OriginHost, [Octets(cfg.identity)]));
    acl.Add(Avp(OriginRealm, [Octets(cfg.realm)]));
    acl.Add(hostIp);
    acl.Add(Avp(VendorId, [U32(cfg.vendor)]));
    acl.Add(Avp(ProductName, [Octets(cfg.product)]));
    acl.Add(Avp(OriginStateId, [U32(cfg.originStateId)]));
    acl.Add(Avp(FirmwareRev, [U32(cfg.version)]));
    acl.Add(Avp(InbandSecId, [U32(TlsId(tls))]));
  }

  /** Appends the payload of a CER or CEA to a message. */
  method AssembleCE(cfg: LocalConfig, tls: bool, acl: AvpContainerList)
    modifies acl
    ensures acl.containers == old(acl.containers) + CeAvps(cfg, tls)
  {
    var hostIp := HostIpAvp(cfg);
    FillIds(cfg.supportedVendors, SupportedVendorId, acl);
    FillIds(cfg.authApps, AuthAppId, acl);
    FillIds(cfg.acctApps, AcctAppId, acl);
    FillRows(cfg.vendorSpecific, acl);
    FillScalars(cfg, tls, hostIp, acl);
  }

  // ---------------------------------------------------------------- reading it back

  // An entry read as another type than it was written with is never the case for a parsed message;
  // such an entry counts as absent here.
  function AsU32(v: Option<AvpValue>): Option<nat> {
    if v.Some? && v.value.U32? then Some(v.value.n) else None
  }

  function AsOctets(v: Option<AvpValue>): Option<seq<int>> {
    if v.Some? && v.value.Octets? then Some(v.value.octets) else None
  }

  function AsGroup(v: Option<AvpValue>): Option<seq<Avp>> {
    if v.Some? && v.value.Grouped? then Some(v.value.acl) else None
  }

  function Nth(vs: seq<AvpValue>, i: nat): Option<AvpValue> {
    if i < |vs| then Some(vs[i]) else None
  }

  function OrZero(n: Option<nat>): nat {
    if n.Some? then n.value else 0
  }

  function OrEmpty(s: Option<seq<int>>): seq<int> {
    if s.Some? then s.value else []
  }

  function ReadU32s(vs: seq<AvpValue>, i: nat): seq<nat>
    decreases |vs| - i
  {
    if AsU32(Nth(vs, i)).Some? then [vs[i].n] + ReadU32s(vs, i + 1) else []
  }

  function ReadOctets(vs: seq<AvpValue>, i: nat): seq<seq<int>>
    decreases |vs| - i
  {
    if AsOctets(Nth(vs, i)).Some? then [vs[i].octets] + ReadOctets(vs, i + 1) else []
  }

  /** One row as the receiver keeps it: the acct id is read only when there is no auth id. */
  function ReadRow(grp: seq<Avp>): VendorSpecificId {
    var auth := AsU32(Nth(ValuesOf(grp, AuthAppId), 0));
    var acct := AsU32(Nth(ValuesOf(grp, AcctAppId), 0));
    VendorSpecificId(
      OrZero(AsU32(Nth(ValuesOf(grp, VendorId), 0))),
      OrZero(auth),
      if auth.Some? then 0 else OrZero(acct))
  }

  predicate HasApplication(row: VendorSpecificId) {
    row.acctAppId != 0 || row.authAppId != 0
  }

  function Kept(row: VendorSpecificId): seq<VendorSpecificId> {
    if HasApplication(row) then [row] else []
  }

  /** What one grouped value contributes to the row list, or None where the list of groups ends. */
  function RowsAt(v: Option<AvpValue>): Option<seq<VendorSpecificId>> {
    if AsGroup(v).Some? then Some(Kept(ReadRow(AsGroup(v).value))) else None
  }

  function ReadRows(vs: seq<AvpValue>, i: nat): seq<VendorSpecificId>
    decreases |vs| - i
  {
    if RowsAt(Nth(vs, i)).Some? then RowsAt(Nth(vs, i)).value + ReadRows(vs, i + 1) else []
  }

  /** The capabilities read from the values found under each name. */
  function FromValues(host: seq<AvpValue>, realm: seq<AvpValue>, hostIps: seq<AvpValue>, vendor: seq<AvpValue>,
                      product: seq<AvpValue>, originState: seq<AvpValue>, firmware: seq<AvpValue>,
                      inband: seq<AvpValue>, supported: seq<AvpValue>, auth: seq<AvpValue>, acct: seq<AvpValue>,
                      rows: seq<AvpValue>): PeerCapabilities
  {
    PeerCapabilities(
      OrEmpty(AsOctets(Nth(host, 0))), OrEmpty(AsOctets(Nth(realm, 0))), ReadOctets(hostIps, 0),
      OrZero(AsU32(Nth(vendor, 0))), OrEmpty(AsOctets(Nth(product, 0))), OrZero(AsU32(Nth(originState, 0))),
      OrZero(AsU32(Nth(firmware, 0))), OrZero(AsU32(Nth(inband, 0))),
      ReadU32s(supported, 0), ReadU32s(auth, 0), ReadU32s(acct, 0), ReadRows(rows, 0))
  }

  function Decode(acl: seq<Avp>): PeerCapabilities {
    FromValues(
      ValuesOf(acl, OriginHost), ValuesOf(acl, OriginRealm), ValuesOf(acl, HostIp), ValuesOf(acl, VendorId),
      ValuesOf(acl, ProductName), ValuesOf(acl, OriginStateId), ValuesOf(acl, FirmwareRev), ValuesOf(acl, InbandSecId),
      ValuesOf(acl, SupportedVendorId), ValuesOf(acl, AuthAppId), ValuesOf(acl, AcctAppId), ValuesOf(acl, VendorAppId))
  }

  method GetU32(acl: AvpContainerList, name: AvpName, index: nat) returns (n: Option<nat>)
    ensures n == AsU32(Nth(ValuesOf(acl.containers, name), index))
  {
    var v := acl.GetAvp(name, index);
    return AsU32(v);
  }

  method GetOctets(acl: AvpContainerList, name: AvpName, index: nat) returns (s: Option<seq<int>>)
    ensures s == AsOctets(Nth(ValuesOf(acl.containers, name), index))
  {
    var v := acl.GetAvp(name, index);
    return AsOctets(v);
  }

  method CollectIds(acl: AvpContainerList, name: AvpName) returns (ids: seq<nat>)
    ensures ids == ReadU32s(ValuesOf(acl.containers, name), 0)
  {
    ids := [];
    ghost var vs := ValuesOf(acl.containers, name);
    var uint32 := GetU32(acl, name, 0);
    var ndx := 1;
    while uint32.Some?
      invariant 1 <= ndx <= |vs| + 1
      invariant uint32 == AsU32(Nth(vs, ndx - 1))
      invariant ReadU32s(vs, 0) == ids + ReadU32s(vs, ndx - 1)
      decreases |vs| + 1 - ndx
    {
      ids := ids + [uint32.value];
      uint32 := GetU32(acl, name, ndx);
      ndx := ndx + 1;
    }
  }

  method CollectAddresses(acl: AvpContainerList) returns (ips: seq<seq<int>>)
    ensures ips == ReadOctets(ValuesOf(acl.containers, HostIp), 0)
  {
    ips := [];
    ghost var vs := ValuesOf(acl.containers, HostIp);
    var address := GetOctets(acl, HostIp, 0);
    var ndx := 1;
    while address.Some?
      invariant 1 <= ndx <= |vs| + 1
      invariant address == AsOctets(Nth(vs, ndx - 1))
      invariant ReadOctets(vs, 0) == ips + ReadOctets(vs, ndx - 1)
      decreases |vs| + 1 - ndx
    {
      ips := ips + [address.value];
      address := GetOctets(acl, HostIp, ndx);
      ndx := ndx + 1;
    }
  }

  method RowOf(group: seq<Avp>) returns (vsid: VendorSpecificId)
    ensures vsid == ReadRow(group)
  {
    var grp := new AvpContainerList(group);
    vsid := VendorSpecificId(0, 0, 0);
    var uint32 := GetU32(grp, VendorId, 0);
    vsid := vsid.(vendorId := OrZero(uint32));
    uint32 := GetU32(grp, AuthAppId, 0);
    if uint32.Some? {
      vsid := vsid.(authAppId := uint32.value);
    } else {
      uint32 := GetU32(grp, AcctAppId, 0);
      vsid := vsid.(acctAppId := OrZero(uint32));
    }
  }

  method NextRow(acl: AvpContainerList, index: nat) returns (rows: Option<seq<VendorSpecificId>>)
    ensures rows == RowsAt(Nth(ValuesOf(acl.containers, VendorAppId), index))
  {
    var v := acl.GetAvp(VendorAppId, index);
    if AsGroup(v).None? {
      return None;
    }
    var vsid := RowOf(AsGroup(v).value);
    return if vsid.acctAppId != 0 || vsid.authAppId != 0 then Some([vsid]) else Some([]);
  }

  method CollectRows(acl: AvpContainerList) returns (rows: seq<VendorSpecificId>)
    ensures rows == ReadRows(ValuesOf(acl.containers, VendorAppId), 0)
  {
    rows := [];
    ghost var vs := ValuesOf(acl.containers, VendorAppId);
    var more := NextRow(acl, 0);
    var ndx := 1;
    while more.Some?
      invariant 1 <= ndx <= |vs| + 1
      invariant more == RowsAt(Nth(vs, ndx - 1))
      invariant ReadRows(vs, 0) == rows + ReadRows(vs, ndx - 1)
      decreases |vs| + 1 - ndx
    {
      assert rows + (more.value + ReadRows(vs, ndx)) == (rows + more.value) + ReadRows(vs, ndx);
      rows := rows + more.value;
      more := NextRow(acl, ndx);
      ndx := ndx + 1;
    }
  }

  /** Reads the peer's capabilities from a CER or CEA, replacing every field. */
  method DisassembleCE(acl: AvpContainerList) returns (cap: PeerCapabilities)
    ensures cap == Decode(acl.containers)
  {
    var host := GetOctets(acl, OriginHost, 0);
    var realm := GetOctets(acl, OriginRealm, 0);
    var ips := CollectAddresses(acl);
    var vendor := GetU32(acl, VendorId, 0);
    var product := GetOctets(acl, ProductName, 0);
    var originState := GetU32(acl, OriginStateId, 0);
    var firmware := GetU32(acl, FirmwareRev, 0);
    var inband := GetU32(acl, InbandSecId, 0);
    var supported := CollectIds(acl, SupportedVendorId);
    var auth := CollectIds(acl, AuthAppId);
    var acct := CollectIds(acl, AcctAppId);
    var rows := CollectRows(acl);
    cap := PeerCapabilities(OrEmpty(host), OrEmpty(realm), ips, OrZero(vendor), OrEmpty(product),
                            OrZero(originState), OrZero(firmware), OrZero(inband), supported, auth, acct, rows);
  }

  // ---------------------------------------------------------------- accepting the peer

  predicate IdsMatch(x: nat, y: nat) {
    x == RELAY || y == RELAY || y == x
  }

  predicate RowMatches(id: nat, row: VendorSpecificId) {
    row.authAppId == id || row.acctAppId == id || row.authAppId == RELAY || row.acctAppId == RELAY || id == RELAY
  }

  predicate InIds(id: nat, lst: seq<nat>) {
    exists y <- lst :: IdsMatch(id, y)
  }

  predicate InRows(id: nat, rows: seq<VendorSpecificId>) {
    exists row <- rows :: RowMatches(id, row)
  }

  /** An id some local list or vendor-specific row answers to. */
  predicate KnownLocally(cfg: LocalConfig, id: nat) {
    InIds(id, cfg.authApps) || InIds(id, cfg.acctApps) || InRows(id, cfg.vendorSpecific)
  }

  predicate CommonApplication(cfg: LocalConfig, cap: PeerCapabilities) {
    || (exists x <- cap.authApps :: KnownLocally(cfg, x))
    || (exists x <- cap.acctApps :: KnownLocally(cfg, x))
    || (exists row <- cap.vendorSpecific :: KnownLocally(cfg, row.authAppId) || KnownLocally(cfg, row.acctAppId))
  }

  /** The result code of validating a peer; AAA_SUCCESS accepts it. */
  function Validate(cfg: LocalConfig, tls: bool, cap: PeerCapabilities): nat {
    if !CommonApplication(cfg, cap) then AAA_NO_COMMON_APPLICATION
    else if TlsId(tls) != cap.inbandSecurityId then AAA_NO_COMMON_SECURITY
    else AAA_SUCCESS
  }

  method FindInIds(id: nat, lst: seq<nat>) returns (found: bool)
    ensures found <==> InIds(id, lst)
  {
    for i := 0 to |lst|
      invariant forall y <- lst[..i] :: !IdsMatch(id, y)
    {
      if id == RELAY || lst[i] == RELAY || lst[i] == id {
        assert IdsMatch(id, lst[i]);
        return true;
      }
    }
    assert lst[..|lst|] == lst;
    return false;
  }

  method FindInRows(id: nat, rows: seq<VendorSpecificId>) returns (found: bool)
    ensures found <==> InRows(id, rows)
  {
    for i := 0 to |rows|
      invariant forall row <- rows[..i] :: !RowMatches(id, row)
    {
      if rows[i].authAppId == id || rows[i].acctAppId == id || rows[i].authAppId == RELAY
         || rows[i].acctAppId == RELAY || id == RELAY
      {
        assert RowMatches(id, rows[i]);
        return true;
      }
    }
    assert rows[..|rows|] == rows;
    return false;
  }

  method FindLocally(cfg: LocalConfig, id: nat) returns (found: bool)
    ensures found <==> KnownLocally(cfg, id)
  {
    found := FindInIds(id, cfg.authApps);
    if !found {
      found := FindInIds(id, cfg.acctApps);
    }
    if !found {
      found := FindInRows(id, cfg.vendorSpecific);
    }
  }

  method FindAnyLocally(cfg: LocalConfig, ids: seq<nat>) returns (found: bool)
    ensures found <==> exists x <- ids :: KnownLocally(cfg, x)
  {
    for i := 0 to |ids|
      invariant forall x <- ids[..i] :: !KnownLocally(cfg, x)
    {
      found := FindLocally(cfg, ids[i]);
      if found {
        return;
      }
    }
    assert ids[..|ids|] == ids;
    return false;
  }

  method FindRowLocally(cfg: LocalConfig, rows: seq<VendorSpecificId>) returns (found: bool)
    ensures found <==> exists row <- rows :: KnownLocally(cfg, row.authAppId) || KnownLocally(cfg, row.acctAppId)
  {
    for i := 0 to |rows|
      invariant forall row <- rows[..i] :: !KnownLocally(cfg, row.authAppId) && !KnownLocally(cfg, row.acctAppId)
    {
      found := FindLocally(cfg, rows[i].authAppId);
      if !found {
        found := FindLocally(cfg, rows[i].acctAppId);
      }
      if found {
        return;
      }
    }
    assert rows[..|rows|] == rows;
    return false;
  }

  method ValidatePeer(cfg: LocalConfig, tls: bool, cap: PeerCapabilities) returns (rcode: nat)
    ensures rcode == Validate(cfg, tls, cap)
  {
    var found := FindAnyLocally(cfg, cap.authApps);
    if !found {
      found := FindAnyLocally(cfg, cap.acctApps);
    }
    if !found {
      found := FindRowLocally(cfg, cap.vendorSpecific);
    }
    if !found {
      return AAA_NO_COMMON_APPLICATION;
    }
    if TlsId(tls) != cap.inbandSecurityId {
      return AAA_NO_COMMON_SECURITY;
    }
    return AAA_SUCCESS;
  }
}
