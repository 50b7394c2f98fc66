/**
 * Discovery of nest2.py as a function on the controller's node map: every
 * structure and device of a snapshot whose address is not yet taken gets a
 * node; addresses already present are left alone.
 *
 * A node's address is the controller's deterministic id-to-address mapping
 * (a digest of the vendor id), passed in as `addr`.
 */
module Discovery {
  import opened Common
  import opened Snapshots
  import opened Thermostats

  /** The node class created for an entry. */
  datatype Kind = StructureNode | ThermostatNode(unit: Unit) | ProtectNode | CameraNode

  /** The snapshot collection an entry comes from. */
  datatype Category = OfStructures | OfThermostats | OfSmokeCoAlarms | OfCameras

  /**
   * What the controller holds for one added node: its class, the vendor id it
   * mirrors, its name, and whether it was added with the host's
   * update-definition flag set.
   */
  datatype NodeInfo = NodeInfo(kind: Kind, elementId: string, name: string, updateDefinition: bool)

  type Nodes = map<string, NodeInfo>

  /** The class for an entry: a thermostat is the Fahrenheit class exactly when its scale is "F", else the Celsius one. */
  function KindOf(cat: Category, e: Entry): (k: Kind)
    ensures k.ThermostatNode? <==> cat == OfThermostats
    ensures k.ThermostatNode? ==> (k.unit == Fahrenheit <==> e.temperatureScale == "F")
    ensures k == StructureNode <==> cat == OfStructures
    ensures k == ProtectNode <==> cat == OfSmokeCoAlarms
    ensures k == CameraNode <==> cat == OfCameras
  {
    match cat
    case OfStructures => StructureNode
    case OfThermostats => ThermostatNode(if e.temperatureScale == "F" then Fahrenheit else Celsius)
    case OfSmokeCoAlarms => ProtectNode
    case OfCameras => CameraNode
  }

  /** The node added for an entry; structures are always added without the update-definition flag. */
  function Info(cat: Category, e: Entry, updateNodes: bool): (n: NodeInfo)
    ensures n.kind == KindOf(cat, e) && n.elementId == e.id && n.name == e.name
    ensures n.updateDefinition <==> updateNodes && cat != OfStructures
  {
    NodeInfo(KindOf(cat, e), e.id, e.name, cat != OfStructures && updateNodes)
  }

  /** The addresses of a list of entries. */
  function Addresses(es: seq<Entry>, addr: string -> string): set<string>
  {
    set i | 0 <= i < |es| :: addr(es[i].id)
  }

  /** `nodes` after walking `es` in order, adding a node for each entry whose address is not yet present. */
  function WithNew(nodes: Nodes, es: seq<Entry>, cat: Category, updateNodes: bool, addr: string -> string): Nodes
    decreases |es|
  {
    if |es| == 0 then nodes
    else
      var before := WithNew(nodes, es[..|es| - 1], cat, updateNodes, addr);
      var e := es[|es| - 1];
      if addr(e.id) in before then before else before[addr(e.id) := Info(cat, e, updateNodes)]
  }

  /** `i` is the first entry of `es` whose address is `a`. */
  predicate FirstAt(es: seq<Entry>, addr: string -> string, a: string, i: int)
  {
    0 <= i < |es| && addr(es[i].id) == a && forall j :: 0 <= j < i ==> addr(es[j].id) != a
  }

  /** Discovery never replaces or removes a node that is already present. */
  lemma {:induction false} WithNewKeeps(nodes: Nodes, es: seq<Entry>, cat: Category, updateNodes: bool, addr: string -> string)
    ensures var r := WithNew(nodes, es, cat, updateNodes, addr);
      forall a :: a in nodes ==> a in r && r[a] == nodes[a]
    decreases |es|
  {
    if |es| > 0 {
      WithNewKeeps(nodes, es[..|es| - 1], cat, updateNodes, addr);
    }
  }

  /** After discovery the addresses in use are exactly the old ones plus those of the entries. */
  lemma {:induction false} WithNewKeys(nodes: Nodes, es: seq<Entry>, cat: Category, updateNodes: bool, addr: string -> string)
    ensures WithNew(nodes, es, cat, updateNodes, addr).Keys == nodes.Keys + Addresses(es, addr)
    decreases |es|
  {
    if |es| > 0 {
      var init := es[..|es| - 1];
      WithNewKeys(nodes, init, cat, updateNodes, addr);
      assert Addresses(es, addr) == Addresses(init, addr) + {addr(es[|es| - 1].id)} by {
        forall a | a in Addresses(es, addr) ensures a in Addresses(init, addr) + {addr(es[|es| - 1].id)} {
          var i :| 0 <= i < |es| && addr(es[i].id) == a;
          if i < |es| - 1 {
            assert init[i] == es[i];
          }
        }
        forall a | a in Addresses(init, addr) ensures a in Addresses(es, addr) {
          var i :| 0 <= i < |init| && addr(init[i].id) == a;
          assert es[i] == init[i];
        }
      }
    }
  }

  /** A newly added node is the one for the FIRST entry carrying its address; later duplicates are skipped. */
  lemma {:induction false} WithNewFirst(nodes: Nodes, es: seq<Entry>, cat: Category, updateNodes: bool, addr: string -> string)
    ensures var r := WithNew(nodes, es, cat, updateNodes, addr);
      forall a :: a in r && a !in nodes ==> exists i :: FirstAt(es, addr, a, i) && r[a] == Info(cat, es[i], updateNodes)
    decreases |es|
  {
    if |es| > 0 {
      var init := es[..|es| - 1];
      var before := WithNew(nodes, init, cat, updateNodes, addr);
      var r := WithNew(nodes, es, cat, updateNodes, addr);
      WithNewFirst(nodes, init, cat, updateNodes, addr);
      WithNewKeys(nodes, init, cat, updateNodes, addr);
      forall a | a in r && a !in nodes
        ensures exists i :: FirstAt(es, addr, a, i) && r[a] == Info(cat, es[i], updateNodes)
      {
        if a in before {
          var i :| FirstAt(init, addr, a, i) && before[a] == Info(cat, init[i], updateNodes);
          assert es[i] == init[i];
          assert forall j :: 0 <= j < i ==> es[j] == init[j];
          assert FirstAt(es, addr, a, i);
        } else {
          var k := |es| - 1;
          assert a == addr(es[k].id);
          forall j | 0 <= j < k ensures addr(es[j].id) != a {
            assert es[j] == init[j];
            assert addr(init[j].id) in Addresses(init, addr);
          }
          assert FirstAt(es, addr, a, k);
        }
      }
    }
  }

  /** When every address of the entries is already taken, discovery changes nothing. */
  lemma {:induction false} WithNewIdle(nodes: Nodes, es: seq<Entry>, cat: Category, updateNodes: bool, addr: string -> string)
    requires Addresses(es, addr) <= nodes.Keys
    ensures WithNew(nodes, es, cat, updateNodes, addr) == nodes
    decreases |es|
  {
    if |es| > 0 {
      var init := es[..|es| - 1];
      assert Addresses(init, addr) <= Addresses(es, addr) by {
        forall a | a in Addresses(init, addr) ensures a in Addresses(es, addr) {
          var i :| 0 <= i < |init| && addr(init[i].id) == a;
          assert es[i] == init[i];
        }
      }
      WithNewIdle(nodes, init, cat, updateNodes, addr);
      assert addr(es[|es| - 1].id) in Addresses(es, addr);
    }
  }

  /** Walking the same entries a second time adds nothing, whatever the update-definition flag is then. */
  lemma WithNewIdempotent(nodes: Nodes, es: seq<Entry>, cat: Category, first: bool, second: bool, addr: string -> string)
    ensures var once := WithNew(nodes, es, cat, first, addr);
      WithNew(once, es, cat, second, addr) == once
  {
    WithNewKeys(nodes, es, cat, first, addr);
    WithNewIdle(WithNew(nodes, es, cat, first, addr), es, cat, second, addr);
  }

  /** The entries of an optional collection; an absent collection has none. */
  function Listed(o: Option<seq<Entry>>): seq<Entry>
  {
    if o.Some? then o.value else []
  }

  /** The node map after a successful discovery over a snapshot: structures, thermostats, smoke alarms, cameras, in that order. */
  function Discovered(nodes: Nodes, s: Snapshot, updateNodes: bool, addr: string -> string): Nodes
  {
    var n1 := WithNew(nodes, Listed(s.structures), OfStructures, updateNodes, addr);
    var n2 := WithNew(n1, Listed(s.thermostats), OfThermostats, updateNodes, addr);
    var n3 := WithNew(n2, Listed(s.smokeCoAlarms), OfSmokeCoAlarms, updateNodes, addr);
    WithNew(n3, Listed(s.cameras), OfCameras, updateNodes, addr)
  }

  /** Every address of the snapshot, in any collection. */
  function SnapshotAddresses(s: Snapshot, addr: string -> string): set<string>
  {
    Addresses(Listed(s.structures), addr) + Addresses(Listed(s.thermostats), addr)
    + Addresses(Listed(s.smokeCoAlarms), addr) + Addresses(Listed(s.cameras), addr)
  }

  /** Discovery keeps every existing node and ends with exactly the old addresses plus the snapshot's. */
  lemma DiscoveredKeys(nodes: Nodes, s: Snapshot, updateNodes: bool, addr: string -> string)
    ensures var r := Discovered(nodes, s, updateNodes, addr);
      r.Keys == nodes.Keys + SnapshotAddresses(s, addr)
      && forall a :: a in nodes ==> r[a] == nodes[a]
  {
    var n1 := WithNew(nodes, Listed(s.structures), OfStructures, updateNodes, addr);
    var n2 := WithNew(n1, Listed(s.thermostats), OfThermostats, updateNodes, addr);
    var n3 := WithNew(n2, Listed(s.smokeCoAlarms), OfSmokeCoAlarms, updateNodes, addr);
    WithNewKeys(nodes, Listed(s.structures), OfStructures, updateNodes, addr);
    WithNewKeys(n1, Listed(s.thermostats), OfThermostats, updateNodes, addr);
    WithNewKeys(n2, Listed(s.smokeCoAlarms), OfSmokeCoAlarms, updateNodes, addr);
    WithNewKeys(n3, Listed(s.cameras), OfCameras, updateNodes, addr);
    WithNewKeeps(nodes, Listed(s.structures), OfStructures, updateNodes, addr);
    WithNewKeeps(n1, Listed(s.thermostats), OfThermostats, updateNodes, addr);
    WithNewKeeps(n2, Listed(s.smokeCoAlarms), OfSmokeCoAlarms, updateNodes, addr);
    WithNewKeeps(n3, Listed(s.cameras), OfCameras, updateNodes, addr);
  }

  /** A second discovery over the same snapshot adds nothing, whatever the update-definition flag is then. */
  lemma DiscoveredIdempotent(nodes: Nodes, s: Snapshot, first: bool, second: bool, addr: string -> string)
    ensures var once := Discovered(nodes, s, first, addr);
      Discovered(once, s, second, addr) == once
  {
    var once := Discovered(nodes, s, first, addr);
    DiscoveredKeys(nodes, s, first, addr);
    WithNewIdle(once, Listed(s.structures), OfStructures, second, addr);
    WithNewIdle(once, Listed(s.thermostats), OfThermostats, second, addr);
    WithNewIdle(once, Listed(s.smokeCoAlarms), OfSmokeCoAlarms, second, addr);
    WithNewIdle(once, Listed(s.cameras), OfCameras, second, addr);
  }
}
