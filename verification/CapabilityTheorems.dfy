/** What the capabilities exchange achieves: the round trip, the meaning of validation, its symmetry. */
module CapabilityTheorems {
  import opened Basics
  import opened AvpContainers
  import opened Capabilities

  // ---------------------------------------------------------------- round trip

  /** The row a peer ends up with: an auth id hides the acct id. */
  function NormalRow(row: VendorSpecificId): VendorSpecificId {
    if row.authAppId != 0 then row.(acctAppId := 0) else row
  }

  /** Rows are normalised, and rows with neither id are dropped. */
  function NormalRows(rows: seq<VendorSpecificId>): seq<VendorSpecificId> {
    if rows == [] then []
    else (if HasApplication(rows[0]) then [NormalRow(rows[0])] else []) + NormalRows(rows[1..])
  }

  /** The capabilities a peer should see for a configuration. */
  function CapabilitiesOf(cfg: LocalConfig, tls: bool): PeerCapabilities {
    PeerCapabilities(cfg.identity, cfg.realm, HostIps(cfg), cfg.vendor, cfg.product, cfg.originStateId, cfg.version,
                     TlsId(tls), cfg.supportedVendors, cfg.authApps, cfg.acctApps, NormalRows(cfg.vendorSpecific))
  }

  /** Names a CE message uses; a CEA adds Result-Code and Error-Message after them. */
  predicate IsCeName(name: AvpName) {
    name != ResultCode && name != ErrorMessage
  }

  function ScalarValues(cfg: LocalConfig, tls: bool, name: AvpName): seq<AvpValue> {
    match name
    case OriginHost => [Octets(cfg.identity)]
    case OriginRealm => [Octets(cfg.realm)]
    case HostIp => Addresses(HostIps(cfg))
    case VendorId => [U32(cfg.vendor)]
    case ProductName => [Octets(cfg.product)]
    case OriginStateId => [U32(cfg.originStateId)]
    case FirmwareRev => [U32(cfg.version)]
    case InbandSecId => [U32(TlsId(tls))]
    case _ => []
  }

  function MessageValues(cfg: LocalConfig, tls: bool, name: AvpName): seq<AvpValue> {
    match name
    case SupportedVendorId => U32s(cfg.supportedVendors)
    case AuthAppId => U32s(cfg.authApps)
    case AcctAppId => U32s(cfg.acctApps)
    case VendorAppId => RowGroups(cfg.vendorSpecific)
    case _ => ScalarValues(cfg, tls, name)
  }

  lemma SearchPastContainer(n: AvpName, values: seq<AvpValue>, rest: seq<Avp>, name: AvpName)
    ensures ValuesOf(Container(n, values) + rest, name) ==
            if n == name && values != [] then values else ValuesOf(rest, name)
  {
    SearchConcat(Container(n, values), rest, name);
  }

  lemma SearchTail(cfg: LocalConfig, tls: bool, extra: seq<Avp>, name: AvpName)
    requires forall c <- extra :: !IsCeName(c.name)
    requires IsCeName(name)
    ensures ValuesOf(ScalarAvps(cfg, tls) + extra, name) == ScalarValues(cfg, tls, name)
  {
    var acl := ScalarAvps(cfg, tls);
    SearchConcat(acl, extra, name);
    SearchMissing(extra, name);
    ScalarNamesAreDistinct(cfg, tls);
    if i :| 0 <= i < |acl| && acl[i].name == name {
      ScalarAt(cfg, tls, i);
      SearchDistinct(acl, i);
    } else {
      SearchMissing(acl, name);
      ScalarsAreComplete(cfg, tls, name);
    }
  }

  lemma ScalarNamesAreDistinct(cfg: LocalConfig, tls: bool)
    ensures DistinctNames(ScalarAvps(cfg, tls))
  {
    var acl := ScalarAvps(cfg, tls);
    assert acl[0].name == OriginHost && acl[1].name == OriginRealm && acl[2].name == HostIp && acl[3].name == VendorId;
    assert acl[4].name == ProductName && acl[5].name == OriginStateId && acl[6].name == FirmwareRev
           && acl[7].name == InbandSecId;
  }

  lemma ScalarAt(cfg: LocalConfig, tls: bool, i: nat)
    requires i < |ScalarAvps(cfg, tls)|
    ensures ScalarAvps(cfg, tls)[i].entries == ScalarValues(cfg, tls, ScalarAvps(cfg, tls)[i].name)
  {
  }

  /** Every scalar with a value has its container. */
  lemma ScalarIsListed(cfg: LocalConfig, tls: bool, name: AvpName)
    requires ScalarValues(cfg, tls, name) != []
    ensures exists c <- ScalarAvps(cfg, tls) :: c.name == name
  {
    hide HostIps, Addresses, TlsId;
    var acl := ScalarAvps(cfg, tls);
    match name
    case OriginHost => assert acl[0].name == name && acl[0] in acl;
    case OriginRealm => assert acl[1].name == name && acl[1] in acl;
    case HostIp => assert acl[2].name == name && acl[2] in acl;
    case VendorId => assert acl[3].name == name && acl[3] in acl;
    case ProductName => assert acl[4].name == name && acl[4] in acl;
    case OriginStateId => assert acl[5].name == name && acl[5] in acl;
    case FirmwareRev => assert acl[6].name == name && acl[6] in acl;
    case InbandSecId => assert acl[7].name == name && acl[7] in acl;
    case _ =>
  }

  lemma ScalarsAreComplete(cfg: LocalConfig, tls: bool, name: AvpName)
    requires forall c <- ScalarAvps(cfg, tls) :: c.name != name
    ensures ScalarValues(cfg, tls, name) == []
  {
    hide ScalarAvps, ScalarValues;
    if ScalarValues(cfg, tls, name) != [] {
      ScalarIsListed(cfg, tls, name);
    }
  }

  lemma Regroup(w: seq<Avp>, x: seq<Avp>, y: seq<Avp>, z: seq<Avp>, e: seq<Avp>, extra: seq<Avp>)
    ensures (w + x + y + z + e) + extra == w + (x + (y + (z + (e + extra))))
  {
  }

  lemma SearchInMessage(cfg: LocalConfig, tls: bool, extra: seq<Avp>, name: AvpName)
    requires forall c <- extra :: !IsCeName(c.name)
    requires IsCeName(name)
    ensures ValuesOf(CeAvps(cfg, tls) + extra, name) == MessageValues(cfg, tls, name)
  {
    SearchTail(cfg, tls, extra, name);
    SearchSections(U32s(cfg.supportedVendors), U32s(cfg.authApps), U32s(cfg.acctApps), RowGroups(cfg.vendorSpecific),
                   ScalarAvps(cfg, tls), extra, name);
  }

  lemma SearchSections(a: seq<AvpValue>, b: seq<AvpValue>, c: seq<AvpValue>, d: seq<AvpValue>,
                       e: seq<Avp>, extra: seq<Avp>, name: AvpName)
    ensures ValuesOf((Container(SupportedVendorId, a) + Container(AuthAppId, b) + Container(AcctAppId, c)
                      + Container(VendorAppId, d) + e) + extra, name) ==
            if name == SupportedVendorId && a != [] then a
            else if name == AuthAppId && b != [] then b
            else if name == AcctAppId && c != [] then c
            else if name == VendorAppId && d != [] then d
            else ValuesOf(e + extra, name)
  {
    var z := Container(VendorAppId, d) + (e + extra);
    var y := Container(AcctAppId, c) + z;
    var x := Container(AuthAppId, b) + y;
    Regroup(Container(SupportedVendorId, a), Container(AuthAppId, b), Container(AcctAppId, c), Container(VendorAppId, d),
            e, extra);
    SearchPastContainer(VendorAppId, d, e + extra, name);
    SearchPastContainer(AcctAppId, c, z, name);
    SearchPastContainer(AuthAppId, b, y, name);
    SearchPastContainer(SupportedVendorId, a, x, name);
  }

  lemma {:induction false} ReadBackIds(ids: seq<nat>, i: nat)
    requires i <= |ids|
    ensures ReadU32s(U32s(ids), i) == ids[i..]
    decreases |ids| - i
  {
    if i < |ids| {
      ReadBackIds(ids, i + 1);
    }
  }

  lemma {:induction false} ReadBackAddresses(addrs: seq<seq<int>>, i: nat)
    requires i <= |addrs|
    ensures ReadOctets(Addresses(addrs), i) == addrs[i..]
    decreases |addrs| - i
  {
    if i < |addrs| {
      ReadBackAddresses(addrs, i + 1);
    }
  }

  lemma ReadBackRow(row: VendorSpecificId)
    ensures ReadRow(RowAvps(row)) == NormalRow(row)
  {
    var a, b, c := OptionalU32(AuthAppId, row.authAppId), OptionalU32(AcctAppId, row.acctAppId),
                   OptionalU32(VendorId, row.vendorId);
    assert RowAvps(row) == a + (b + c);
    SearchRow(a, b, c, AuthAppId);
    SearchRow(a, b, c, AcctAppId);
    SearchRow(a, b, c, VendorId);
  }

  lemma SearchRow(a: seq<Avp>, b: seq<Avp>, c: seq<Avp>, name: AvpName)
    ensures FirstNamed(a + (b + c), name) ==
            if FirstNamed(a, name).Some? then FirstNamed(a, name)
            else if FirstNamed(b, name).Some? then FirstNamed(b, name) else FirstNamed(c, name)
  {
    SearchConcat(a, b + c, name);
    SearchConcat(b, c, name);
  }

  /** The group of a row has the ids that are set, each under its own name. */
  lemma GroupCarries(cfg: LocalConfig, tls: bool, i: nat)
    requires i < |cfg.vendorSpecific|
    ensures var vs, row := ValuesOf(CeAvps(cfg, tls), VendorAppId), cfg.vendorSpecific[i];
            && |vs| == |cfg.vendorSpecific| && vs[i].Grouped?
            && ValuesOf(vs[i].acl, AuthAppId) == (if row.authAppId > 0 then [U32(row.authAppId)] else [])
            && ValuesOf(vs[i].acl, AcctAppId) == (if row.acctAppId > 0 then [U32(row.acctAppId)] else [])
            && ValuesOf(vs[i].acl, VendorId) == (if row.vendorId > 0 then [U32(row.vendorId)] else [])
  {
    SearchInMessage(cfg, tls, [], VendorAppId);
    assert CeAvps(cfg, tls) + [] == CeAvps(cfg, tls);
    hide CeAvps;
    SearchGroup(cfg.vendorSpecific[i]);
  }

  lemma SearchGroup(row: VendorSpecificId)
    ensures ValuesOf(RowAvps(row), AuthAppId) == (if row.authAppId > 0 then [U32(row.authAppId)] else [])
    ensures ValuesOf(RowAvps(row), AcctAppId) == (if row.acctAppId > 0 then [U32(row.acctAppId)] else [])
    ensures ValuesOf(RowAvps(row), VendorId) == (if row.vendorId > 0 then [U32(row.vendorId)] else [])
  {
    var a, b, c := OptionalU32(AuthAppId, row.authAppId), OptionalU32(AcctAppId, row.acctAppId),
                   OptionalU32(VendorId, row.vendorId);
    assert RowAvps(row) == a + (b + c);
    SearchRow(a, b, c, AuthAppId);
    SearchRow(a, b, c, AcctAppId);
    SearchRow(a, b, c, VendorId);
  }

  lemma {:induction false} ReadBackRows(rows: seq<VendorSpecificId>, i: nat)
    requires i <= |rows|
    ensures ReadRows(RowGroups(rows), i) == NormalRows(rows[i..])
    decreases |rows| - i
  {
    if i < |rows| {
      ReadBackRow(rows[i]);
      ReadBackRows(rows, i + 1);
      assert rows[i..][1..] == rows[i + 1..];
      assert RowGroups(rows)[i] == Grouped(RowAvps(rows[i]));
    }
  }

  /**
    Disassembling an assembled CE message returns what was configured, in order, with the
    vendor-specific rows normalised, whatever else a CEA carries after it.
   */
  lemma RoundTrip(cfg: LocalConfig, tls: bool, extra: seq<Avp>)
    requires forall c <- extra :: !IsCeName(c.name)
    ensures Decode(CeAvps(cfg, tls) + extra) == CapabilitiesOf(cfg, tls)
  {
    var acl := CeAvps(cfg, tls) + extra;
    SearchInMessage(cfg, tls, extra, OriginHost);
    SearchInMessage(cfg, tls, extra, OriginRealm);
    SearchInMessage(cfg, tls, extra, HostIp);
    SearchInMessage(cfg, tls, extra, VendorId);
    SearchInMessage(cfg, tls, extra, ProductName);
    SearchInMessage(cfg, tls, extra, OriginStateId);
    SearchInMessage(cfg, tls, extra, FirmwareRev);
    SearchInMessage(cfg, tls, extra, InbandSecId);
    SearchInMessage(cfg, tls, extra, SupportedVendorId);
    SearchInMessage(cfg, tls, extra, AuthAppId);
    SearchInMessage(cfg, tls, extra, AcctAppId);
    SearchInMessage(cfg, tls, extra, VendorAppId);
    DecodeByName(cfg, tls, acl);
  }

  /** A message that holds the right values under each name decodes to the right capabilities. */
  lemma DecodeByName(cfg: LocalConfig, tls: bool, acl: seq<Avp>)
    requires ValuesOf(acl, OriginHost) == [Octets(cfg.identity)] && ValuesOf(acl, OriginRealm) == [Octets(cfg.realm)]
    requires ValuesOf(acl, HostIp) == Addresses(HostIps(cfg)) && ValuesOf(acl, VendorId) == [U32(cfg.vendor)]
    requires ValuesOf(acl, ProductName) == [Octets(cfg.product)]
    requires ValuesOf(acl, OriginStateId) == [U32(cfg.originStateId)]
    requires ValuesOf(acl, FirmwareRev) == [U32(cfg.version)] && ValuesOf(acl, InbandSecId) == [U32(TlsId(tls))]
    requires ValuesOf(acl, SupportedVendorId) == U32s(cfg.supportedVendors)
    requires ValuesOf(acl, AuthAppId) == U32s(cfg.authApps) && ValuesOf(acl, AcctAppId) == U32s(cfg.acctApps)
    requires ValuesOf(acl, VendorAppId) == RowGroups(cfg.vendorSpecific)
    ensures Decode(acl) == CapabilitiesOf(cfg, tls)
  {
    ReadBackValues(cfg, TlsId(tls), HostIps(cfg));
  }

  lemma ReadBackValues(cfg: LocalConfig, inband: nat, ips: seq<seq<int>>)
    ensures FromValues([Octets(cfg.identity)], [Octets(cfg.realm)], Addresses(ips), [U32(cfg.vendor)],
                       [Octets(cfg.product)], [U32(cfg.originStateId)], [U32(cfg.version)], [U32(inband)],
                       U32s(cfg.supportedVendors), U32s(cfg.authApps), U32s(cfg.acctApps),
                       RowGroups(cfg.vendorSpecific)) ==
            PeerCapabilities(cfg.identity, cfg.realm, ips, cfg.vendor, cfg.product, cfg.originStateId, cfg.version,
                             inband, cfg.supportedVendors, cfg.authApps, cfg.acctApps, NormalRows(cfg.vendorSpecific))
  {
    ReadBackIds(cfg.supportedVendors, 0);
    ReadBackIds(cfg.authApps, 0);
    ReadBackIds(cfg.acctApps, 0);
    ReadBackAddresses(ips, 0);
    ReadBackRows(cfg.vendorSpecific, 0);
    assert cfg.vendorSpecific[0..] == cfg.vendorSpecific;
  }

  /** What stands under each name of a CE message. */
  lemma MessageCarries(cfg: LocalConfig, tls: bool, extra: seq<Avp>)
    requires forall c <- extra :: !IsCeName(c.name)
    ensures var acl := CeAvps(cfg, tls) + extra;
            && ValuesOf(acl, OriginHost) == [Octets(cfg.identity)] && ValuesOf(acl, OriginRealm) == [Octets(cfg.realm)]
            && ValuesOf(acl, VendorId) == [U32(cfg.vendor)] && ValuesOf(acl, ProductName) == [Octets(cfg.product)]
            && ValuesOf(acl, OriginStateId) == [U32(cfg.originStateId)]
            && ValuesOf(acl, FirmwareRev) == [U32(cfg.version)]
            && ValuesOf(acl, InbandSecId) == [U32(if tls then 1 else 0)]
    ensures var acl := CeAvps(cfg, tls) + extra;
            && Holds(ValuesOf(acl, SupportedVendorId), cfg.supportedVendors)
            && Holds(ValuesOf(acl, AuthAppId), cfg.authApps) && Holds(ValuesOf(acl, AcctAppId), cfg.acctApps)
  {
    SearchInMessage(cfg, tls, extra, OriginHost);
    SearchInMessage(cfg, tls, extra, OriginRealm);
    SearchInMessage(cfg, tls, extra, VendorId);
    SearchInMessage(cfg, tls, extra, ProductName);
    SearchInMessage(cfg, tls, extra, OriginStateId);
    SearchInMessage(cfg, tls, extra, FirmwareRev);
    SearchInMessage(cfg, tls, extra, InbandSecId);
    SearchInMessage(cfg, tls, extra, SupportedVendorId);
    SearchInMessage(cfg, tls, extra, AuthAppId);
    SearchInMessage(cfg, tls, extra, AcctAppId);
    hide CeAvps, ValuesOf;
  }

  predicate Holds(vs: seq<AvpValue>, ids: seq<nat>) {
    |vs| == |ids| && forall i :: 0 <= i < |ids| ==> vs[i] == U32(ids[i])
  }

  /** What the other side reads, field by field. */
  lemma FieldsArrive(cfg: LocalConfig, tls: bool, extra: seq<Avp>)
    requires forall c <- extra :: !IsCeName(c.name)
    ensures var cap := Decode(CeAvps(cfg, tls) + extra);
            && cap.host == cfg.identity && cap.realm == cfg.realm && cap.vendorId == cfg.vendor
            && cap.productName == cfg.product && cap.originStateId == cfg.originStateId && cap.firmware == cfg.version
            && cap.inbandSecurityId == (if tls then 1 else 0)
            && cap.supportedVendors == cfg.supportedVendors
            && cap.authApps == cfg.authApps && cap.acctApps == cfg.acctApps
  {
    RoundTrip(cfg, tls, extra);
    hide Decode, CeAvps, HostIps, NormalRows;
  }

  /** The rows the other side reads when these are configured. */
  function RowsRead(cfg: LocalConfig, tls: bool, rows: seq<VendorSpecificId>): seq<VendorSpecificId> {
    Decode(CeAvps(cfg.(vendorSpecific := rows), tls)).vendorSpecific
  }

  lemma RowsReadAre(cfg: LocalConfig, tls: bool, rows: seq<VendorSpecificId>)
    ensures RowsRead(cfg, tls, rows) == NormalRows(rows)
  {
    RoundTrip(cfg.(vendorSpecific := rows), tls, []);
    assert CeAvps(cfg.(vendorSpecific := rows), tls) + [] == CeAvps(cfg.(vendorSpecific := rows), tls);
    hide Decode, CeAvps, HostIps, NormalRows;
  }

  /** Each row arrives in its place: with both ids only the auth id is read, and a row with neither is dropped. */
  lemma RowsArrive(cfg: LocalConfig, tls: bool, a: seq<VendorSpecificId>, row: VendorSpecificId,
                   b: seq<VendorSpecificId>)
    ensures RowsRead(cfg, tls, []) == []
    ensures RowsRead(cfg, tls, a + [row] + b) ==
            RowsRead(cfg, tls, a)
            + (if row.authAppId != 0 then [VendorSpecificId(row.vendorId, row.authAppId, 0)]
               else if row.acctAppId != 0 then [VendorSpecificId(row.vendorId, 0, row.acctAppId)]
               else [])
            + RowsRead(cfg, tls, b)
  {
    RowsReadAre(cfg, tls, []);
    RowsReadAre(cfg, tls, a);
    RowsReadAre(cfg, tls, b);
    RowsReadAre(cfg, tls, a + [row] + b);
    hide RowsRead;
    NormalRowsConcat(a + [row], b);
    NormalRowsConcat(a, [row]);
    assert NormalRows([row]) == (if HasApplication(row) then [NormalRow(row)] else []) + NormalRows([]);
  }

  lemma {:induction false} NormalRowsConcat(a: seq<VendorSpecificId>, b: seq<VendorSpecificId>)
    ensures NormalRows(a + b) == NormalRows(a) + NormalRows(b)
  {
    if a == [] {
      assert a + b == b;
    } else {
      assert (a + b)[1..] == a[1..] + b;
      NormalRowsConcat(a[1..], b);
    }
  }

  /** The host addresses the other side reads when these host names are advertised. */
  function AddressesRead(cfg: LocalConfig, tls: bool, names: seq<Option<seq<int>>>): seq<seq<int>> {
    Decode(CeAvps(cfg.(advertised := names), tls)).hostIps
  }

  lemma AddressesReadAre(cfg: LocalConfig, tls: bool, names: seq<Option<seq<int>>>)
    ensures AddressesRead(cfg, tls, names) == [cfg.hostAddress] + if cfg.sctp then Resolved(names) else []
  {
    RoundTrip(cfg.(advertised := names), tls, []);
    assert CeAvps(cfg.(advertised := names), tls) + [] == CeAvps(cfg.(advertised := names), tls);
    hide Decode, CeAvps, NormalRows, Resolved;
  }

  /** The host address comes first; over SCTP the advertised names that resolve follow in order. */
  lemma AddressesArrive(cfg: LocalConfig, tls: bool, names: seq<Option<seq<int>>>, name: Option<seq<int>>)
    ensures AddressesRead(cfg, tls, []) == [cfg.hostAddress]
    ensures AddressesRead(cfg, tls, names + [name]) ==
            AddressesRead(cfg, tls, names) + if cfg.sctp && name.Some? then [name.value] else []
  {
    AddressesReadAre(cfg, tls, []);
    AddressesReadAre(cfg, tls, names);
    AddressesReadAre(cfg, tls, names + [name]);
    hide AddressesRead;
    assert (names + [name])[..|names|] == names;
  }

  // ---------------------------------------------------------------- what acceptance means

  function RowIds(rows: seq<VendorSpecificId>): set<nat> {
    (set row <- rows :: row.authAppId) + (set row <- rows :: row.acctAppId)
  }

  function Ids(lst: seq<nat>): set<nat> {
    set x <- lst
  }

  /** Every number the local side compares with; an unset half of a row counts as the number 0. */
  function LocalIds(cfg: LocalConfig): set<nat> {
    Ids(cfg.authApps) + Ids(cfg.acctApps) + RowIds(cfg.vendorSpecific)
  }

  /** Every number the peer offers, read the same way. */
  function OfferedIds(cap: PeerCapabilities): set<nat> {
    Ids(cap.authApps) + Ids(cap.acctApps) + RowIds(cap.vendorSpecific)
  }

  /** A shared number, or a relay on either side facing at least one number on the other. */
  ghost predicate Meet(a: set<nat>, b: set<nat>) {
    exists x, y :: x in a && y in b && IdsMatch(x, y)
  }

  lemma KnownLocallyMeaning(cfg: LocalConfig, id: nat)
    ensures KnownLocally(cfg, id) <==> exists y <- LocalIds(cfg) :: IdsMatch(id, y)
  {
    if KnownLocally(cfg, id) {
      if InIds(id, cfg.authApps) {
        var y :| y in cfg.authApps && IdsMatch(id, y);
        assert y in LocalIds(cfg);
      } else if InIds(id, cfg.acctApps) {
        var y :| y in cfg.acctApps && IdsMatch(id, y);
        assert y in LocalIds(cfg);
      } else {
        var row :| row in cfg.vendorSpecific && RowMatches(id, row);
        assert row.authAppId in LocalIds(cfg) && row.acctAppId in LocalIds(cfg);
        assert IdsMatch(id, row.authAppId) || IdsMatch(id, row.acctAppId);
      }
    }
    if y :| y in LocalIds(cfg) && IdsMatch(id, y) {
      if y in cfg.authApps || y in cfg.acctApps {
      } else {
        var row :| row in cfg.vendorSpecific && (row.authAppId == y || row.acctAppId == y);
        assert RowMatches(id, row);
      }
    }
  }

  /** A peer is accepted exactly when its offer meets the local ids and the in-band security ids agree. */
  lemma ValidateMeaning(cfg: LocalConfig, tls: bool, cap: PeerCapabilities)
    ensures Validate(cfg, tls, cap) == AAA_SUCCESS <==>
            Meet(OfferedIds(cap), LocalIds(cfg)) && cap.inbandSecurityId == TlsId(tls)
    ensures Validate(cfg, tls, cap) == AAA_NO_COMMON_APPLICATION <==> !Meet(OfferedIds(cap), LocalIds(cfg))
  {
    forall id ensures KnownLocally(cfg, id) <==> exists y <- LocalIds(cfg) :: IdsMatch(id, y) {
      KnownLocallyMeaning(cfg, id);
    }
    if Meet(OfferedIds(cap), LocalIds(cfg)) {
      var x, y :| x in OfferedIds(cap) && y in LocalIds(cfg) && IdsMatch(x, y);
      assert KnownLocally(cfg, x);
      if x in RowIds(cap.vendorSpecific) {
        var row :| row in cap.vendorSpecific && (row.authAppId == x || row.acctAppId == x);
      }
    }
    if CommonApplication(cfg, cap) {
      if x :| x in cap.authApps && KnownLocally(cfg, x) {
        assert x in OfferedIds(cap);
      } else if x :| x in cap.acctApps && KnownLocally(cfg, x) {
        assert x in OfferedIds(cap);
      } else {
        var row :| row in cap.vendorSpecific
                   && (KnownLocally(cfg, row.authAppId) || KnownLocally(cfg, row.acctAppId));
        assert row.authAppId in OfferedIds(cap) && row.acctAppId in OfferedIds(cap);
      }
    }
  }

  /** An id in some list or in either half of some row. */
  predicate Lists(auth: seq<nat>, acct: seq<nat>, rows: seq<VendorSpecificId>, id: nat) {
    id in auth || id in acct || exists row <- rows :: row.authAppId == id || row.acctAppId == id
  }

  lemma ListedAreIds(auth: seq<nat>, acct: seq<nat>, rows: seq<VendorSpecificId>, id: nat)
    ensures Lists(auth, acct, rows, id) <==> id in Ids(auth) + Ids(acct) + RowIds(rows)
  {
  }

  /** Which code a verdict has: no common application comes before no common security. */
  lemma VerdictCodes(cfg: LocalConfig, tls: bool, cap: PeerCapabilities)
    ensures var rcode := Validate(cfg, tls, cap);
            var common := exists x, y ::
                            && Lists(cap.authApps, cap.acctApps, cap.vendorSpecific, x)
                            && Lists(cfg.authApps, cfg.acctApps, cfg.vendorSpecific, y)
                            && (x == y || x == 0xffff_ffff || y == 0xffff_ffff);
            var secure := cap.inbandSecurityId == if tls then 1 else 0;
            && (rcode == 5010 <==> !common)
            && (rcode == 5017 <==> common && !secure)
            && (rcode == 2001 <==> common && secure)
  {
    ValidateMeaning(cfg, tls, cap);
    forall x: nat ensures Lists(cap.authApps, cap.acctApps, cap.vendorSpecific, x) <==> x in OfferedIds(cap)
                  ensures Lists(cfg.authApps, cfg.acctApps, cfg.vendorSpecific, x) <==> x in LocalIds(cfg) {
      ListedAreIds(cap.authApps, cap.acctApps, cap.vendorSpecific, x);
      ListedAreIds(cfg.authApps, cfg.acctApps, cfg.vendorSpecific, x);
    }
    assert Validate(cfg, tls, cap) in {5010, 5017, 2001};
    hide Validate, Lists, OfferedIds, LocalIds;
  }

  /** Two sets of ids meet if they share an id, or if one has the relay id and the other any id. */
  lemma MeetMeaning(a: set<nat>, b: set<nat>)
    ensures Meet(a, b) <==> a * b != {} || (0xffff_ffff in a && b != {}) || (0xffff_ffff in b && a != {})
  {
    if x :| x in a * b {
      assert x in a && x in b && IdsMatch(x, x);
    }
    if y :| 0xffff_ffff in a && y in b {
      assert IdsMatch(0xffff_ffff, y);
    }
    if x :| 0xffff_ffff in b && x in a {
      assert IdsMatch(x, 0xffff_ffff);
    }
    if Meet(a, b) {
      var x, y :| x in a && y in b && IdsMatch(x, y);
      assert x == y ==> x in a * b;
    }
  }

  // ---------------------------------------------------------------- symmetry

  /** Whether the holder of `cfg` accepts the peer configured as `other` after its CE message arrives. */
  ghost predicate Accepts(cfg: LocalConfig, tls: bool, other: LocalConfig, otherTls: bool) {
    Validate(cfg, tls, CapabilitiesOf(other, otherTls)) == AAA_SUCCESS
  }

  ghost predicate OneIdPerRow(cfg: LocalConfig) {
    forall row <- cfg.vendorSpecific :: (row.authAppId == 0) != (row.acctAppId == 0)
  }

  ghost function Offer(cfg: LocalConfig): set<nat> {
    OfferedIds(CapabilitiesOf(cfg, true))
  }

  lemma {:induction false} NormalRowsUnchanged(rows: seq<VendorSpecificId>)
    requires forall row <- rows :: (row.authAppId == 0) != (row.acctAppId == 0)
    ensures NormalRows(rows) == rows
  {
    if rows != [] {
      assert rows[0] in rows;
      NormalRowsUnchanged(rows[1..]);
    }
  }

  lemma {:induction false} OfferIsLocal(rows: seq<VendorSpecificId>, id: nat)
    requires id in RowIds(NormalRows(rows)) && id != 0
    ensures id in RowIds(rows)
  {
    if rows != [] {
      if id in RowIds(NormalRows(rows[1..])) {
        OfferIsLocal(rows[1..], id);
      } else {
        assert NormalRow(rows[0]).authAppId == id || NormalRow(rows[0]).acctAppId == id;
        assert rows[0] in rows;
      }
    }
  }

  /** The configuration sends exactly the numbers it compares with. */
  ghost predicate Faithful(cfg: LocalConfig) {
    Offer(cfg) == LocalIds(cfg)
  }

  lemma OneIdPerRowIsFaithful(cfg: LocalConfig)
    requires OneIdPerRow(cfg)
    ensures Faithful(cfg)
  {
    NormalRowsUnchanged(cfg.vendorSpecific);
  }

  /** A verdict is about what the other side sends and what this side compares with. */
  lemma AcceptsMeaning(a: LocalConfig, aTls: bool, b: LocalConfig, bTls: bool)
    ensures Accepts(a, aTls, b, bTls) <==> aTls == bTls && Meet(Offer(b), LocalIds(a))
  {
    ValidateMeaning(a, aTls, CapabilitiesOf(b, bTls));
    assert OfferedIds(CapabilitiesOf(b, bTls)) == Offer(b);
  }

  /** One side sends an id the other compares with, and gets none back that it compares with itself. */
  ghost predicate OneSided(a: LocalConfig, b: LocalConfig) {
    Meet(Offer(a), LocalIds(b)) && !Meet(Offer(b), LocalIds(a))
  }

  /** The verdicts of any two peers agree exactly if security tells them apart or neither is one-sided. */
  lemma SymmetricUnlessOneSided(a: LocalConfig, aTls: bool, b: LocalConfig, bTls: bool)
    ensures (Accepts(a, aTls, b, bTls) <==> Accepts(b, bTls, a, aTls)) <==>
            aTls != bTls || (!OneSided(a, b) && !OneSided(b, a))
  {
    AcceptsMeaning(a, aTls, b, bTls);
    AcceptsMeaning(b, bTls, a, aTls);
  }

  /** Being one-sided takes an id that is compared with and not sent, or an unset half that is sent as 0. */
  lemma OneSidedNeedsUnsentId(a: LocalConfig, b: LocalConfig)
    requires OneSided(a, b)
    ensures !Faithful(b) || !Faithful(a)
  {
    MeetIsSymmetric(LocalIds(a), LocalIds(b));
  }

  /**
    With exactly one id in every row the verdicts agree: each peer accepts the other or neither does,
    in-band security included.
   */
  lemma AcceptanceIsSymmetric(a: LocalConfig, aTls: bool, b: LocalConfig, bTls: bool)
    requires OneIdPerRow(a) && OneIdPerRow(b)
    ensures Accepts(a, aTls, b, bTls) <==> Accepts(b, bTls, a, aTls)
  {
    OneIdPerRowIsFaithful(a);
    OneIdPerRowIsFaithful(b);
    MeetIsSymmetric(LocalIds(a), LocalIds(b));
    SymmetricUnlessOneSided(a, aTls, b, bTls);
  }

  lemma MeetIsSymmetric(a: set<nat>, b: set<nat>)
    ensures Meet(a, b) <==> Meet(b, a)
  {
    if Meet(a, b) {
      var x, y :| x in a && y in b && IdsMatch(x, y);
      assert IdsMatch(y, x);
    }
    if Meet(b, a) {
      var y, x :| y in b && x in a && IdsMatch(y, x);
      assert IdsMatch(x, y);
    }
  }

  /** A configuration that offers only the id `x`. */
  function Offering(x: nat): LocalConfig {
    LocalConfig([], [], [], false, [], 0, [], 0, 0, [], [x], [], [])
  }

  /**
    Exactly which configurations are treated alike by every peer that sends the numbers it compares with: those that
    do so themselves, and those whose offer includes the relay id.
   */
  lemma SymmetricWithEveryPeer(a: LocalConfig, aTls: bool)
    ensures (forall b: LocalConfig, bTls: bool :: Faithful(b) ==>
               (Accepts(a, aTls, b, bTls) <==> Accepts(b, bTls, a, aTls)))
            <==> Faithful(a) || RELAY in Offer(a)
  {
    if Faithful(a) || RELAY in Offer(a) {
      forall b: LocalConfig, bTls: bool | Faithful(b)
        ensures Accepts(a, aTls, b, bTls) <==> Accepts(b, bTls, a, aTls)
      {
        PeerWithFaithfulOffer(a, b, aTls, bTls);
      }
    } else {
      var x := Witness(a);
      var b := Offering(x);
      OneIdPerRowIsFaithful(b);
      PeerWithFaithfulOffer(a, b, aTls, aTls);
      OfferingMeets(a, x, aTls);
    }
  }

  /** Two-way acceptance against a peer that sends what it compares with, in terms of the two sets of `a`. */
  lemma PeerWithFaithfulOffer(a: LocalConfig, b: LocalConfig, aTls: bool, bTls: bool)
    requires Faithful(b)
    ensures Accepts(a, aTls, b, bTls) <==> aTls == bTls && Meet(LocalIds(b), LocalIds(a))
    ensures Accepts(b, bTls, a, aTls) <==> aTls == bTls && Meet(LocalIds(b), Offer(a))
    ensures Faithful(a) || RELAY in Offer(a) ==> (Accepts(a, aTls, b, bTls) <==> Accepts(b, bTls, a, aTls))
  {
    AcceptsMeaning(a, aTls, b, bTls);
    AcceptsMeaning(b, bTls, a, aTls);
    MeetIsSymmetric(Offer(a), LocalIds(b));
    if RELAY in Offer(a) {
      RelayIsOfferedFromLocal(a);
      if x :| x in LocalIds(b) {
        assert IdsMatch(x, RELAY);
      }
    }
  }

  lemma RelayIsOfferedFromLocal(a: LocalConfig)
    requires RELAY in Offer(a)
    ensures RELAY in LocalIds(a)
  {
    if RELAY !in a.authApps && RELAY !in a.acctApps {
      OfferIsLocal(a.vendorSpecific, RELAY);
    }
  }

  /** An id that tells the two sets of an unfaithful configuration apart. */
  ghost function Witness(a: LocalConfig): (x: nat)
    requires Offer(a) != LocalIds(a) && RELAY !in Offer(a)
    ensures x != RELAY
    ensures RELAY in LocalIds(a) || ((x in Offer(a)) != (x in LocalIds(a)))
    ensures RELAY in LocalIds(a) ==> x !in Offer(a)
  {
    if RELAY in LocalIds(a) then
      Fresh(Offer(a))
    else
      assert exists x :: (x in Offer(a)) != (x in LocalIds(a));
      var x :| (x in Offer(a)) != (x in LocalIds(a));
      x
  }

  lemma OfferingMeets(a: LocalConfig, x: nat, tls: bool)
    requires x != RELAY
    ensures Meet(LocalIds(Offering(x)), LocalIds(a)) <==> x in LocalIds(a) || RELAY in LocalIds(a)
    ensures Meet(LocalIds(Offering(x)), Offer(a)) <==> x in Offer(a) || RELAY in Offer(a)
  {
    assert LocalIds(Offering(x)) == {x};
    assert IdsMatch(x, x) && IdsMatch(x, RELAY);
  }

  ghost function Fresh(s: set<nat>): (x: nat)
    ensures x != RELAY && x !in s
  {
    if UpperBound(s) == RELAY then RELAY + 1 else UpperBound(s)
  }

  ghost function UpperBound(s: set<nat>): (n: nat)
    ensures forall y <- s :: y < n
  {
    if s == {} then 0
    else
      var x :| x in s;
      var n := UpperBound(s - {x});
      assert forall y <- s :: y == x || y in s - {x};
      if n <= x then x + 1 else n
  }

  /** A configuration with one vendor-specific row and nothing else. */
  function RowOnly(row: VendorSpecificId): LocalConfig {
    LocalConfig([], [], [], false, [], 0, [], 0, 0, [], [], [], [row])
  }

  lemma RowOnlyIds(row: VendorSpecificId)
    ensures LocalIds(RowOnly(row)) == {row.authAppId, row.acctAppId}
    ensures Offer(RowOnly(row)) == if HasApplication(row) then {row.authAppId, NormalRow(row).acctAppId} else {}
  {
    assert [row][1..] == [];
    assert NormalRows([row]) == if HasApplication(row) then [NormalRow(row)] else [];
    assert [row][0] == row;
    if HasApplication(row) {
      assert [NormalRow(row)][0] == NormalRow(row);
    }
  }

  /** Rows with two ids break the symmetry: the second id is configured but never sent. */
  lemma TwoIdsInARowAreAsymmetric(v: nat, x: nat, y: nat, tls: bool)
    requires x != 0 && y != 0 && x != y && x != RELAY && y != RELAY
    ensures Accepts(RowOnly(VendorSpecificId(v, x, y)), tls, Offering(y), tls)
    ensures !Accepts(Offering(y), tls, RowOnly(VendorSpecificId(v, x, y)), tls)
  {
    var a := RowOnly(VendorSpecificId(v, x, y));
    RowOnlyIds(VendorSpecificId(v, x, y));
    OneIdPerRowIsFaithful(Offering(y));
    PeerWithFaithfulOffer(a, Offering(y), tls, tls);
    OfferingMeets(a, y, tls);
  }

  /**
    As coded, acceptance does not need a common application: the unset halves of two unrelated
    vendor-specific rows match each other.
   */
  lemma UnrelatedVendorsAreAccepted(v: nat, w: nat, x: nat, y: nat, tls: bool)
    requires x != 0 && y != 0
    ensures Accepts(RowOnly(VendorSpecificId(v, x, 0)), tls, RowOnly(VendorSpecificId(w, y, 0)), tls)
  {
    RowOnlyIds(VendorSpecificId(v, x, 0));
    RowOnlyIds(VendorSpecificId(w, y, 0));
    OneIdPerRowIsFaithful(RowOnly(VendorSpecificId(w, y, 0)));
    PeerWithFaithfulOffer(RowOnly(VendorSpecificId(v, x, 0)), RowOnly(VendorSpecificId(w, y, 0)), tls, tls);
    assert IdsMatch(0, 0);
  }
}
