/**
  The AVP multimap a message carries: a list of named containers, each holding one or more values
  (`AAAAvpContainerList`, `AAAAvpContainer`, `AAAAvpWidget`, `AAAAvpContainerWidget`).
 */
module AvpContainers {
  import opened Basics

  datatype AvpName =
    | OriginHost | OriginRealm | HostIp | VendorId | ProductName | OriginStateId | SupportedVendorId
    | AuthAppId | AcctAppId | VendorAppId | FirmwareRev | InbandSecId
    | ResultCode | ErrorMessage

  datatype AvpValue =
    | U32(n: nat)
    | Octets(octets: seq<int>)
    | Grouped(acl: seq<Avp>)

  datatype Avp = Avp(name: AvpName, entries: seq<AvpValue>)

  /** The container a search by name finds: the first one in the list. */
  function FirstNamed(acl: seq<Avp>, name: AvpName): Option<Avp> {
    if acl == [] then None
    else if acl[0].name == name then Some(acl[0])
    else FirstNamed(acl[1..], name)
  }

  /** All values a list holds under a name, in order. */
  function ValuesOf(acl: seq<Avp>, name: AvpName): seq<AvpValue> {
    match FirstNamed(acl, name)
    case None => []
    case Some(c) => c.entries
  }

  class AvpContainerList {
    var containers: seq<Avp>

    constructor (acl: seq<Avp>)
      ensures containers == acl
    {
      containers := acl;
    }

    method Add(c: Avp)
      modifies this
      ensures containers == old(containers) + [c]
    {
      containers := containers + [c];
    }

    method Search(name: AvpName) returns (c: Option<Avp>)
      ensures c == FirstNamed(containers, name)
    {
      var i := 0;
      while i < |containers|
        invariant 0 <= i <= |containers|
        invariant FirstNamed(containers, name) == FirstNamed(containers[i..], name)
      {
        if containers[i].name == name {
          return Some(containers[i]);
        }
        assert containers[i..][1..] == containers[i + 1..];
        i := i + 1;
      }
      return None;
    }

    /** The value at an index under a name, or None where the original returns null. */
    method GetAvp(name: AvpName, index: nat) returns (v: Option<AvpValue>)
      ensures v == if index < |ValuesOf(containers, name)| then Some(ValuesOf(containers, name)[index]) else None
    {
      var c := Search(name);
      if c.Some? && index < |c.value.entries| {
        return Some(c.value.entries[index]);
      }
      return None;
    }
  }

  // ---------------------------------------------------------------- searching concatenated lists

  lemma {:induction false} SearchConcat(a: seq<Avp>, b: seq<Avp>, name: AvpName)
    ensures FirstNamed(a + b, name) == if FirstNamed(a, name).Some? then FirstNamed(a, name) else FirstNamed(b, name)
  {
    if a == [] {
      assert a + b == b;
    } else {
      assert (a + b)[1..] == a[1..] + b;
      SearchConcat(a[1..], b, name);
    }
  }

  ghost predicate DistinctNames(acl: seq<Avp>) {
    forall i, j :: 0 <= i < j < |acl| ==> acl[i].name != acl[j].name
  }

  /** In a list without repeated names every container is found under its name. */
  lemma {:induction false} SearchDistinct(acl: seq<Avp>, i: nat)
    requires DistinctNames(acl) && i < |acl|
    ensures FirstNamed(acl, acl[i].name) == Some(acl[i])
  {
    if i > 0 {
      SearchDistinct(acl[1..], i - 1);
    }
  }

  lemma {:induction false} SearchMissing(acl: seq<Avp>, name: AvpName)
    requires forall c <- acl :: c.name != name
    ensures FirstNamed(acl, name) == None
  {
    if acl != [] {
      SearchMissing(acl[1..], name);
    }
  }

  /** A search finds the first container of a name: that one and none before it has the name. */
  lemma {:induction false} SearchIsFirst(acl: seq<Avp>, i: nat, name: AvpName)
    requires i < |acl| && acl[i].name == name && forall j :: 0 <= j < i ==> acl[j].name != name
    ensures FirstNamed(acl, name) == Some(acl[i])
  {
    if i > 0 {
      SearchIsFirst(acl[1..], i - 1, name);
    }
  }
}
