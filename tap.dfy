/**
 * `tap_googleads/tap.py`: the registered catalog `STREAM_TYPES` and
 * `TapGoogleAds.discover_streams`, which instantiates one stream per entry.
 * A discovered stream is a node record whose parent is the catalog index of
 * its parent stream.
 */
module Tap {
  import opened Wrappers
  import opened Streams

  /** `STREAM_TYPES`, in its declared order. */
  const StreamTypes: seq<StreamKind> := [
    CampaignsStream,
    AdGroupsStream,
    AdGroupsPerformance,
    AdGroupsHourlyPerformance,
    AccessibleCustomers,
    CustomerHierarchyStream,
    CampaignPerformance,
    CampaignHourlyPerformance,
    CampaignPerformanceByAgeRangeAndDevice,
    CampaignPerformanceByGenderAndDevice,
    CampaignPerformanceByLocation,
    GeotargetsStream,
    GeoPerformance
  ]

  /** A discovered stream; `parent` is an index into the discovered list. */
  datatype StreamNode = StreamNode(kind: StreamKind, name: string, primaryKeys: seq<string>, parent: Option<nat>)

  /** The first position of `k` in `catalog`, if it is there. */
  function IndexOf(catalog: seq<StreamKind>, k: StreamKind): (r: Option<nat>)
    ensures r.None? <==> k !in catalog
    ensures r.Some? ==> r.value < |catalog| && catalog[r.value] == k
                        && forall j :: 0 <= j < r.value ==> catalog[j] != k
  {
    if catalog == [] then None
    else if catalog[0] == k then Some(0)
    else match IndexOf(catalog[1..], k)
      case None => None
      case Some(i) => Some(i + 1)
  }

  /** The node for the stream class at position `i` of the catalog. */
  function NodeAt(catalog: seq<StreamKind>, i: nat): StreamNode
    requires i < |catalog|
  {
    var k := catalog[i];
    var parent := match ParentKind(k)
      case None => None
      case Some(p) => IndexOf(catalog, p);
    StreamNode(k, Name(k), PrimaryKeys(k), parent)
  }

  /**
   * `discover_streams`: one stream per catalog entry, in catalog order,
   * each carrying its class's name and primary keys; a parent link, when
   * present, points at an entry of its declared parent class.
   */
  function DiscoverStreams(catalog: seq<StreamKind>): (streams: seq<StreamNode>)
    ensures |streams| == |catalog|
    ensures forall i :: 0 <= i < |catalog| ==>
      streams[i].kind == catalog[i] && streams[i].name == Name(catalog[i])
      && streams[i].primaryKeys == PrimaryKeys(catalog[i])
    ensures forall i :: 0 <= i < |catalog| && streams[i].parent.Some? ==>
      streams[i].parent.value < |catalog| && ParentKind(catalog[i]) == Some(catalog[streams[i].parent.value])
    ensures forall i :: 0 <= i < |catalog| ==>
      (streams[i].parent.None? <==> ParentKind(catalog[i]).None? || ParentKind(catalog[i]).value !in catalog)
  {
    seq(|catalog|, i requires 0 <= i < |catalog| => NodeAt(catalog, i))
  }

  // ---------------------------------------------------------------------
  // The parent relation as a graph over node indices.

  /** The node `n` parent links above node `i`, if the chain is that long. */
  function Ancestor(nodes: seq<StreamNode>, i: nat, n: nat): Option<nat>
  {
    if n == 0 then (if i < |nodes| then Some(i) else None)
    else match Ancestor(nodes, i, n - 1)
      case None => None
      case Some(j) => if j < |nodes| then nodes[j].parent else None
  }

  /** Every parent link stays inside the list and goes up one level of `Depth`. */
  ghost predicate LinksGoUp(nodes: seq<StreamNode>) {
    forall i :: 0 <= i < |nodes| && nodes[i].parent.Some? ==>
      nodes[i].parent.value < |nodes| && Depth(nodes[nodes[i].parent.value].kind) + 1 == Depth(nodes[i].kind)
  }

  /** Discovery turns any catalog into a list whose parent links go up one level. */
  lemma DiscoveredLinksGoUp(catalog: seq<StreamKind>)
    ensures LinksGoUp(DiscoverStreams(catalog))
  {
    var nodes := DiscoverStreams(catalog);
    forall i | 0 <= i < |nodes| && nodes[i].parent.Some?
      ensures nodes[i].parent.value < |nodes| && Depth(nodes[nodes[i].parent.value].kind) + 1 == Depth(nodes[i].kind)
    {
      var p := ParentKind(catalog[i]);
      assert p == Some(catalog[nodes[i].parent.value]);
    }
  }

  /** Climbing `n` links lowers the depth by exactly `n`. */
  lemma {:induction false} AncestorDepth(nodes: seq<StreamNode>, i: nat, n: nat)
    requires LinksGoUp(nodes)
    ensures Ancestor(nodes, i, n).Some? ==>
      Ancestor(nodes, i, n).value < |nodes| && i < |nodes|
      && Depth(nodes[Ancestor(nodes, i, n).value].kind) + n == Depth(nodes[i].kind)
  {
    if n > 0 {
      AncestorDepth(nodes, i, n - 1);
    }
  }

  /**
   * The parent links of a discovered catalog form a forest: no chain of
   * links is longer than two, and no stream is its own ancestor.
   */
  lemma DiscoveredForest(catalog: seq<StreamKind>, i: nat, n: nat)
    ensures Ancestor(DiscoverStreams(catalog), i, 3) == None
    ensures n > 0 ==> Ancestor(DiscoverStreams(catalog), i, n) != Some(i)
  {
    var nodes := DiscoverStreams(catalog);
    DiscoveredLinksGoUp(catalog);
    AncestorDepth(nodes, i, 3);
    AncestorDepth(nodes, i, n);
  }

  /** A catalog that lists no class twice yields streams with pairwise distinct names. */
  lemma DiscoveredNamesDistinct(catalog: seq<StreamKind>)
    requires forall i, j :: 0 <= i < j < |catalog| ==> catalog[i] != catalog[j]
    ensures forall i, j :: 0 <= i < j < |catalog| ==>
      DiscoverStreams(catalog)[i].name != DiscoverStreams(catalog)[j].name
  {
    var nodes := DiscoverStreams(catalog);
    forall i, j | 0 <= i < j < |catalog|
      ensures nodes[i].name != nodes[j].name
    {
      if nodes[i].name == nodes[j].name {
        NameInjective(catalog[i], catalog[j]);
      }
    }
  }

  // ---------------------------------------------------------------------
  // Properties of the registered catalog. Each lemma takes the catalog as
  // a parameter equal to `StreamTypes`, and speaks of the streams
  // `discover_streams` yields from it.

  /** `discover_streams` yields thirteen streams, one per `STREAM_TYPES` entry, in order. */
  lemma RegisteredCount(catalog: seq<StreamKind>)
    requires catalog == StreamTypes
    ensures |DiscoverStreams(catalog)| == 13
    ensures forall i :: 0 <= i < 13 ==> DiscoverStreams(catalog)[i].kind == StreamTypes[i]
  {
  }

  /** `STREAM_TYPES` lists no class twice. */
  lemma StreamTypesDistinct(catalog: seq<StreamKind>)
    requires catalog == StreamTypes
    ensures forall i, j :: 0 <= i < j < |catalog| ==> catalog[i] != catalog[j]
  {
  }

  /** The registered stream names are pairwise distinct. */
  lemma RegisteredNamesDistinct(catalog: seq<StreamKind>)
    requires catalog == StreamTypes
    ensures forall i, j :: 0 <= i < j < |catalog| ==>
      DiscoverStreams(catalog)[i].name != DiscoverStreams(catalog)[j].name
  {
    StreamTypesDistinct(catalog);
    DiscoveredNamesDistinct(catalog);
  }

  /** The catalog position of AccessibleCustomers. */
  lemma AccessibleCustomersPosition(catalog: seq<StreamKind>)
    requires catalog == StreamTypes
    ensures IndexOf(catalog, AccessibleCustomers) == Some(4)
  {
    assert catalog[4] == AccessibleCustomers;
    assert catalog[0] != AccessibleCustomers && catalog[1] != AccessibleCustomers;
    assert catalog[2] != AccessibleCustomers && catalog[3] != AccessibleCustomers;
  }

  /** The catalog position of CustomerHierarchyStream. */
  lemma CustomerHierarchyPosition(catalog: seq<StreamKind>)
    requires catalog == StreamTypes
    ensures IndexOf(catalog, CustomerHierarchyStream) == Some(5)
  {
    assert catalog[5] == CustomerHierarchyStream;
    assert catalog[0] != CustomerHierarchyStream && catalog[1] != CustomerHierarchyStream;
    assert catalog[2] != CustomerHierarchyStream && catalog[3] != CustomerHierarchyStream;
    assert catalog[4] != CustomerHierarchyStream;
  }

  /**
   * Closure: the declared parent of every registered stream is registered
   * too, and the stream's parent link points at it.
   */
  lemma RegisteredParentsClosed(catalog: seq<StreamKind>)
    requires catalog == StreamTypes
    ensures forall i :: 0 <= i < |catalog| && ParentKind(catalog[i]).Some? ==>
      ParentKind(catalog[i]).value in catalog && DiscoverStreams(catalog)[i].parent.Some?
  {
    assert catalog[4] == AccessibleCustomers;
    assert catalog[5] == CustomerHierarchyStream;
  }

  /** Only positions 4 and 11 of `STREAM_TYPES` hold classes without a parent. */
  lemma RootPositions(catalog: seq<StreamKind>)
    requires catalog == StreamTypes
    ensures forall i :: 0 <= i < |catalog| ==> (Depth(catalog[i]) == 0 <==> i == 4 || i == 11)
    ensures forall i :: 0 <= i < |catalog| ==> (catalog[i] == CustomerHierarchyStream <==> i == 5)
  {
  }

  /**
   * Exactly two registered streams are roots, AccessibleCustomers (index 4)
   * and GeotargetsStream (index 11).
   */
  lemma RegisteredRoots(catalog: seq<StreamKind>)
    requires catalog == StreamTypes
    ensures var nodes := DiscoverStreams(catalog);
      (forall i :: 0 <= i < |nodes| ==> (nodes[i].parent.None? <==> i == 4 || i == 11))
      && nodes[4].kind == AccessibleCustomers && nodes[11].kind == GeotargetsStream
  {
    RegisteredParentsClosed(catalog);
    RootPositions(catalog);
    assert catalog[4] == AccessibleCustomers && catalog[11] == GeotargetsStream;
  }

  /** The parent links of the registered streams: reports to the hierarchy stream, the hierarchy stream to AccessibleCustomers. */
  lemma RegisteredParentLinks(catalog: seq<StreamKind>, i: nat)
    requires catalog == StreamTypes && i < |catalog|
    ensures DiscoverStreams(catalog)[i].parent
         == if i == 4 || i == 11 then None else if i == 5 then Some(4) else Some(5)
  {
    AccessibleCustomersPosition(catalog);
    CustomerHierarchyPosition(catalog);
    RootPositions(catalog);
    var k := catalog[i];
    assert DiscoverStreams(catalog)[i] == NodeAt(catalog, i);
    if Depth(k) == 0 {
      assert ParentKind(k) == None;
    } else if k == CustomerHierarchyStream {
      assert ParentKind(k) == Some(AccessibleCustomers);
    } else {
      assert ParentKind(k) == Some(CustomerHierarchyStream);
    }
  }

  /**
   * Every registered stream other than GeotargetsStream descends from
   * AccessibleCustomers: the hierarchy stream in one link, the reports in two.
   */
  lemma RegisteredDescendFromAccessibleCustomers(catalog: seq<StreamKind>, i: nat)
    requires catalog == StreamTypes && i < |catalog| && i != 11
    ensures Ancestor(DiscoverStreams(catalog), i, if i == 4 then 0 else if i == 5 then 1 else 2) == Some(4)
  {
    RegisteredParentLinks(catalog, i);
    RegisteredParentLinks(catalog, 5);
    ChainToAccessibleCustomers(DiscoverStreams(catalog), i);
  }

  /** The ancestor chains that the registered parent links give. */
  lemma ChainToAccessibleCustomers(nodes: seq<StreamNode>, i: nat)
    requires 5 < |nodes| && i < |nodes| && i != 11 && nodes[5].parent == Some(4)
    requires nodes[i].parent == if i == 4 then None else if i == 5 then Some(4) else Some(5)
    ensures Ancestor(nodes, i, if i == 4 then 0 else if i == 5 then 1 else 2) == Some(4)
  {
    assert Ancestor(nodes, i, 1) == nodes[i].parent;
  }

  /** AdsStream, AdsPerformance and AssetGroupPerformance are defined but never discovered. */
  lemma UnregisteredStreams(catalog: seq<StreamKind>)
    requires catalog == StreamTypes
    ensures forall i :: 0 <= i < |DiscoverStreams(catalog)| ==>
      DiscoverStreams(catalog)[i].kind !in {AdsStream, AdsPerformance, AssetGroupPerformance}
  {
    assert forall k :: k in catalog ==> !(k.AdsStream? || k.AdsPerformance? || k.AssetGroupPerformance?);
  }
}
