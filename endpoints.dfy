/**
 * Resolution of the RHSM1 D-Bus endpoint names: each logical role maps to the
 * interface name `com.redhat.RHSM1.<role>` and to the object path
 * `/com/redhat/RHSM1/<role>`.
 */
module Endpoints {
  import opened Maybe

  /** The logical roles of the RHSM1 service (the `RHSMIFTypes` union). */
  datatype Role = Attach | Config | Entitlement | Products | Register | RegisterServer | Unregister

  function RoleName(r: Role): string
  {
    match r
    case Attach => "Attach"
    case Config => "Config"
    case Entitlement => "Entitlement"
    case Products => "Products"
    case Register => "Register"
    case RegisterServer => "RegisterServer"
    case Unregister => "Unregister"
  }

  /** The segments of the service name. */
  const RHSMPaths: seq<string> := ["com", "redhat", "RHSM1"]

  /** The service name, written out as a literal. */
  const RHSMSvc: string := "com.redhat.RHSM1"

  /** Every role, in the order the name tables are built. */
  const RHSMInterfaces: seq<Role> := [Attach, Config, Entitlement, Products, Register, RegisterServer, Unregister]

  /** JavaScript's `Array.prototype.join`. */
  function Join(parts: seq<string>, sep: string): string
  {
    if |parts| == 0 then ""
    else if |parts| == 1 then parts[0]
    else parts[0] + sep + Join(parts[1..], sep)
  }

  /** Which of the two tables a signature belongs to. */
  datatype SigKind = Interface | ObjectPath

  /**
   * The string both the table builder and the fallback write for a role:
   * the interface is the service name, a dot and the role; the object path is
   * a slash, the segments joined by slashes, a slash and the role.
   */
  function Sig(kind: SigKind, n: Role): string
  {
    match kind
    case Interface => RHSMSvc + "." + RoleName(n)
    case ObjectPath => "/" + (Join(RHSMPaths, "/") + ("/" + RoleName(n)))
  }

  /** A table agrees with `kind` when every role it holds maps to that role's signature. */
  ghost predicate Agrees(m: map<Role, string>, kind: SigKind)
  {
    forall n :: n in m ==> m[n] == Sig(kind, n)
  }

  /** The keys that writing every role of `names` produces. */
  ghost function Listed(names: seq<Role>): set<Role>
  {
    set n | n in names
  }

  /**
   * An Immutable.js `Map` object as the table builder treats it. `entries` is
   * what `get` reads; `props` holds the plain JavaScript properties that an
   * index assignment `acc[n] = ...` creates on the object. The two are
   * separate: writing a property adds no entry. Every key the tables are
   * written or read with is a role name, and distinct roles have distinct
   * names (`RoleNameInjective`), so both are keyed by the role itself.
   */
  class ImmutableMap {
    var entries: map<Role, string>
    var props: map<Role, string>

    /** `IMap<string, string>()`: no entries and no properties. */
    constructor Empty()
      ensures entries == map[] && props == map[]
    {
      entries := map[];
      props := map[];
    }
  }

  /**
   * The `reduce` that builds `RHSMIfcs` and `RHSMObjs`: for each role it
   * assigns the role's signature to the property named after the role and
   * returns the accumulator it was given.
   */
  method Reduce(names: seq<Role>, kind: SigKind, acc: ImmutableMap) returns (r: ImmutableMap)
    modifies acc
    ensures r == acc
    ensures acc.entries == old(acc.entries)
    ensures acc.props.Keys == old(acc.props).Keys + Listed(names)
    ensures forall n :: n in names ==> acc.props[n] == Sig(kind, n)
    ensures forall k :: k in old(acc.props) && k !in names ==> acc.props[k] == old(acc.props)[k]
  {
    var i := 0;
    assert names[..0] == [];
    while i < |names|
      invariant 0 <= i <= |names|
      invariant acc.entries == old(acc.entries)
      invariant Written(acc.props, old(acc.props), names[..i], kind)
    {
      var n := names[i];
      WrittenStep(acc.props, old(acc.props), names[..i], n, kind);
      acc.props := acc.props[n := Sig(kind, n)];
      assert names[..i + 1] == names[..i] + [n];
      i := i + 1;
    }
    assert names[..i] == names;
    r := acc;
  }

  /**
   * `props` is `base` with each role in `done` assigned its signature: the
   * keys are the old ones plus those roles, the roles hold their
   * signatures, and every other old property is untouched.
   */
  ghost predicate Written(props: map<Role, string>, base: map<Role, string>, done: seq<Role>, kind: SigKind)
  {
    && props.Keys == base.Keys + Listed(done)
    && (forall n :: n in done ==> props[n] == Sig(kind, n))
    && (forall k :: k in base && k !in done ==> props[k] == base[k])
  }

  /** One more assignment of the reduce keeps `Written`. */
  lemma WrittenStep(props: map<Role, string>, base: map<Role, string>, done: seq<Role>, n: Role, kind: SigKind)
    requires Written(props, base, done, kind)
    ensures Written(props[n := Sig(kind, n)], base, done + [n], kind)
  {
    assert Listed(done + [n]) == Listed(done) + {n};
  }

  /** `_getSig`: the table's entry for the role, or `undefined` when it has none. */
  function GetSig(lookup: ImmutableMap, name: Role): (r: Option<string>)
    reads lookup
    ensures r.Some? <==> name in lookup.entries
    ensures r.Some? ==> r.value == lookup.entries[name]
    ensures lookup.entries == map[] ==> r == None
  {
    if name in lookup.entries then Some(lookup.entries[name]) else None
  }

  /**
   * `getRHSMIfc`: the table's entry, or the fallback when the lookup misses.
   * Whenever the table holds only canonical interface names (in particular
   * when it holds none), the result is `com.redhat.RHSM1.<role>`.
   */
  function GetRHSMIfc(ifcs: ImmutableMap, name: Role): (r: string)
    reads ifcs
    ensures Agrees(ifcs.entries, Interface) ==> r == "com.redhat.RHSM1." + RoleName(name)
  {
    InterfaceLiteral(name);
    match GetSig(ifcs, name)
    case Some(got) => got
    case None => Sig(Interface, name)
  }

  /**
   * `getRHSMObj`: the table's entry, or the fallback when the lookup misses.
   * Whenever the table holds only canonical object paths, the result is
   * `/com/redhat/RHSM1/<role>`.
   */
  function GetRHSMObj(objs: ImmutableMap, name: Role): (r: string)
    reads objs
    ensures Agrees(objs.entries, ObjectPath) ==> r == "/com/redhat/RHSM1/" + RoleName(name)
  {
    ObjectPathLiteral(name);
    match GetSig(objs, name)
    case Some(got) => got
    case None => Sig(ObjectPath, name)
  }

  /** Distinct roles have distinct names: a role name is as good a key as the role. */
  lemma RoleNameInjective(a: Role, b: Role)
    requires RoleName(a) == RoleName(b)
    ensures a == b
  {
  }

  /** The role list names every role. */
  lemma EveryRoleListed(n: Role)
    ensures n in RHSMInterfaces
  {
    match n
    case Attach => assert RHSMInterfaces[0] == n;
    case Config => assert RHSMInterfaces[1] == n;
    case Entitlement => assert RHSMInterfaces[2] == n;
    case Products => assert RHSMInterfaces[3] == n;
    case Register => assert RHSMInterfaces[4] == n;
    case RegisterServer => assert RHSMInterfaces[5] == n;
    case Unregister => assert RHSMInterfaces[6] == n;
  }

  /** A table written for every role by `Reduce` agrees with its kind. */
  lemma FullTableAgrees(props: map<Role, string>, kind: SigKind)
    requires forall n :: n in RHSMInterfaces ==> n in props && props[n] == Sig(kind, n)
    ensures Agrees(props, kind)
  {
    forall n | n in props
      ensures props[n] == Sig(kind, n)
    {
      EveryRoleListed(n);
    }
  }

  /** A table with no entries agrees with either kind. */
  lemma EmptyTableAgrees(kind: SigKind)
    ensures Agrees(map[], kind)
  {
  }

  /** The joined segments spell the service name and its path form. */
  lemma JoinedSegments()
    ensures Join(RHSMPaths, ".") == RHSMSvc
    ensures Join(RHSMPaths, "/") == "com/redhat/RHSM1"
  {
  }

  /** The object path of a role is `/com/redhat/RHSM1/` followed by the role. */
  lemma ObjectPathLiteral(n: Role)
    ensures Sig(ObjectPath, n) == "/com/redhat/RHSM1/" + RoleName(n)
  {
    JoinedSegments();
    var name := RoleName(n);
    var root := "/" + "com/redhat/RHSM1" + "/";
    assert root == "/com/redhat/RHSM1/";
    calc {
      Sig(ObjectPath, n);
      "/" + ("com/redhat/RHSM1" + ("/" + name));
      { SeqAssoc3("/", "com/redhat/RHSM1", "/", name); }
      root + name;
    }
  }

  /** The interface name of a role, written out. */
  lemma InterfaceLiteral(n: Role)
    ensures Sig(Interface, n) == "com.redhat.RHSM1." + RoleName(n)
  {
    var name := RoleName(n);
    assert RHSMSvc + "." == "com.redhat.RHSM1.";
    calc {
      Sig(Interface, n);
      RHSMSvc + "." + name;
      "com.redhat.RHSM1." + name;
    }
  }

  /** Concatenation regroups: `a + (b + (c + d)) == (a + b + c) + d`. */
  lemma SeqAssoc3<T>(a: seq<T>, b: seq<T>, c: seq<T>, d: seq<T>)
    ensures a + (b + (c + d)) == (a + b + c) + d
  {
  }

  /** Replaces every `.` by `/`: the path form of a dotted name. */
  function DotsToSlashes(s: string): (r: string)
    ensures |r| == |s|
    ensures forall i :: 0 <= i < |s| ==> r[i] == (if s[i] == '.' then '/' else s[i])
  {
    if s == [] then [] else [if s[0] == '.' then '/' else s[0]] + DotsToSlashes(s[1..])
  }

  /** No role name contains a dot. */
  lemma NoDotInRoleName(n: Role)
    ensures NoDot(RoleName(n))
  {
  }

  /**
   * Both tables describe one endpoint: a role's object path is a slash
   * followed by its interface name with every dot turned into a slash.
   */
  lemma {:induction false} ObjectPathMirrorsInterface(n: Role)
    ensures Sig(ObjectPath, n) == "/" + DotsToSlashes(Sig(Interface, n))
    ensures Sig(ObjectPath, n)[0] == '/'
  {
    JoinedSegments();
    NoDotInRoleName(n);
    assert forall k :: 0 <= k < |RHSMPaths| ==> NoDot(RHSMPaths[k]);
    Mirror(RHSMPaths, RoleName(n));
  }

  /** `s` holds no dot. */
  predicate NoDot(s: string)
  {
    forall i :: 0 <= i < |s| ==> s[i] != '.'
  }

  /** The mirror for any dot-free segments and name. */
  lemma {:induction false} Mirror(segs: seq<string>, name: string)
    requires forall k :: 0 <= k < |segs| ==> NoDot(segs[k])
    requires NoDot(name)
    ensures "/" + (Join(segs, "/") + ("/" + name)) == "/" + DotsToSlashes(Join(segs, ".") + "." + name)
  {
    DotsToSlashesKeeps(name);
    JoinMirror(segs);
    DotsToSlashesAppend(Join(segs, ".") + ".", name);
    DotsToSlashesAppend(Join(segs, "."), ".");
    SeqAssoc3("/", Join(segs, "/"), "/", name);
  }

  /** Segments free of dots: joining with dots then turning dots into slashes is joining with slashes. */
  lemma {:induction false} JoinMirror(segs: seq<string>)
    requires forall k :: 0 <= k < |segs| ==> NoDot(segs[k])
    ensures DotsToSlashes(Join(segs, ".")) == Join(segs, "/")
  {
    if |segs| == 1 {
      DotsToSlashesKeeps(segs[0]);
    } else if |segs| > 1 {
      var head, rest := segs[0], segs[1..];
      assert forall k :: 0 <= k < |rest| ==> NoDot(rest[k]) by {
        forall k | 0 <= k < |rest| ensures NoDot(rest[k]) {
          assert rest[k] == segs[k + 1];
        }
      }
      assert NoDot(head);
      DotsToSlashesKeeps(head);
      JoinMirror(rest);
      var dotted := Join(rest, ".");
      assert Join(segs, ".") == head + "." + dotted;
      assert Join(segs, "/") == head + "/" + Join(rest, "/");
      DotsToSlashesAppend(head + ".", dotted);
      DotsToSlashesAppend(head, ".");
      assert DotsToSlashes(".") == "/";
    }
  }

  /** Turning dots into slashes works piece by piece. */
  lemma {:induction false} DotsToSlashesAppend(a: string, b: string)
    ensures DotsToSlashes(a + b) == DotsToSlashes(a) + DotsToSlashes(b)
  {
    if a != [] {
      assert (a + b)[1..] == a[1..] + b;
      DotsToSlashesAppend(a[1..], b);
    } else {
      assert a + b == b;
    }
  }

  /** A name without dots is its own path form. */
  lemma DotsToSlashesKeeps(s: string)
    requires NoDot(s)
    ensures DotsToSlashes(s) == s
  {
  }

  /**
   * The module-level tables and constants: both tables built by `Reduce`
   * from empty maps, then the endpoint constants looked up through them.
   * Each table is its own object here. In the program, Immutable.js hands out
   * one shared empty map, so both reduces write onto the same object and its
   * properties end up holding the object paths; `get` never reads those
   * properties, so the constants are the same either way.
   */
  class RHSMTables {
    const ifcs: ImmutableMap
    const objs: ImmutableMap
    const RegisterServerIfc: string
    const RegisterIfc: string
    const ConfigIfc: string
    const AttachIfc: string
    const ProductsIfc: string
    const UnregisterIfc: string
    const RegisterServerObj: string
    const RegisterObj: string
    const ConfigObj: string
    const AttachObj: string
    const ProductsObj: string
    const UnregisterObj: string

    constructor ()
      ensures fresh(ifcs) && fresh(objs)
      ensures ifcs.entries == map[] && objs.entries == map[]
      ensures ifcs.props.Keys == Listed(RHSMInterfaces) && Agrees(ifcs.props, Interface)
      ensures objs.props.Keys == Listed(RHSMInterfaces) && Agrees(objs.props, ObjectPath)
      ensures RegisterServerIfc == "com.redhat.RHSM1." + RoleName(RegisterServer)
      ensures RegisterIfc == "com.redhat.RHSM1." + RoleName(Register)
      ensures ConfigIfc == "com.redhat.RHSM1." + RoleName(Config)
      ensures AttachIfc == "com.redhat.RHSM1." + RoleName(Attach)
      ensures ProductsIfc == "com.redhat.RHSM1." + RoleName(Products)
      ensures UnregisterIfc == "com.redhat.RHSM1." + RoleName(Unregister)
      ensures RegisterServerObj == "/com/redhat/RHSM1/" + RoleName(RegisterServer)
      ensures RegisterObj == "/com/redhat/RHSM1/" + RoleName(Register)
      ensures ConfigObj == "/com/redhat/RHSM1/" + RoleName(Config)
      ensures AttachObj == "/com/redhat/RHSM1/" + RoleName(Attach)
      ensures ProductsObj == "/com/redhat/RHSM1/" + RoleName(Products)
      ensures UnregisterObj == "/com/redhat/RHSM1/" + RoleName(Unregister)
    {
      var emptyIfcs := new ImmutableMap.Empty();
      var emptyObjs := new ImmutableMap.Empty();
      var i := Reduce(RHSMInterfaces, Interface, emptyIfcs);
      var o := Reduce(RHSMInterfaces, ObjectPath, emptyObjs);
      FullTableAgrees(i.props, Interface);
      FullTableAgrees(o.props, ObjectPath);
      EmptyTableAgrees(Interface);
      EmptyTableAgrees(ObjectPath);
      ifcs, objs := i, o;
      RegisterServerIfc := GetRHSMIfc(i, RegisterServer);
      RegisterIfc := GetRHSMIfc(i, Register);
      ConfigIfc := GetRHSMIfc(i, Config);
      AttachIfc := GetRHSMIfc(i, Attach);
      ProductsIfc := GetRHSMIfc(i, Products);
      UnregisterIfc := GetRHSMIfc(i, Unregister);
      RegisterServerObj := GetRHSMObj(o, RegisterServer);
      RegisterObj := GetRHSMObj(o, Register);
      ConfigObj := GetRHSMObj(o, Config);
      AttachObj := GetRHSMObj(o, Attach);
      ProductsObj := GetRHSMObj(o, Products);
      UnregisterObj := GetRHSMObj(o, Unregister);
    }
  }
}
