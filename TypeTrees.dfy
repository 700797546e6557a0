/**
 * The Unity 2019.3+ type-tree view (`TypeTree.V3`).
 *
 * The host's own `TypeTree` constructor builds the native tree; this layer
 * resolves that constructor and the `kMemTypeTree` memory label, calls the
 * constructor once, and then wraps every native node, in order, as a managed
 * node owned by the managed tree. The shareable data block belongs to the host
 * and is only read.
 */
module TypeTrees {
  import opened Wrappers
  import opened Symbols

  const TypeTreeConstructorName: string := "??0TypeTree@@QEAA@AEBUMemLabelId@@@Z"
  const MemTypeTreeLabelName: string := "?kMemTypeTree@@3UMemLabelId@@A"

  /** One native node (`TypeTreeNode.V2.TypeTreeNode`); its exact byte layout is not part of this model. */
  datatype NativeNode = NativeNode(level: int, typeStrOffset: int, nameStrOffset: int, byteSize: int, index: int, metaFlag: int)

  /** `TypeTreeShareableData`: the host-owned block the node array and string buffer live in. */
  class TypeTreeShareableData {
    var nodes: array<NativeNode>
    var stringBuffer: array<bv8>
    var byteOffsets: array<nat>
    var flagsAtGeneration: int
    var refCount: int
    var memLabel: Address

    constructor (nodes: array<NativeNode>, stringBuffer: array<bv8>, byteOffsets: array<nat>, memLabel: Address)
      ensures this.nodes == nodes && this.stringBuffer == stringBuffer && this.byteOffsets == byteOffsets
      ensures this.memLabel == memLabel && flagsAtGeneration == 0 && refCount == 1
    {
      this.nodes := nodes;
      this.stringBuffer := stringBuffer;
      this.byteOffsets := byteOffsets;
      this.flagsAtGeneration := 0;
      this.refCount := 1;
      this.memLabel := memLabel;
    }
  }

  /** The native `TypeTree` struct the host's constructor writes: a pointer to the shareable data and two more fields. */
  datatype NativeTypeTree = NativeTypeTree(data: TypeTreeShareableData, referencedTypes: Address, poolOwned: bool)

  datatype HostCall = TypeTreeConstructorCall(fn: Address, memLabelId: Address)

  /**
   * The host functions this layer calls through resolved pointers. The
   * host's constructor logic is not part of this model: the tree it writes
   * is `constructed`, and every call is recorded in `calls`.
   */
  class HostRuntime {
    var calls: seq<HostCall>
    const constructed: NativeTypeTree

    constructor (constructed: NativeTypeTree)
      ensures calls == [] && this.constructed == constructed
    {
      calls := [];
      this.constructed := constructed;
    }

    method InvokeTypeTreeConstructor(fn: Address, memLabelId: Address) returns (tree: NativeTypeTree)
      modifies this
      ensures calls == old(calls) + [TypeTreeConstructorCall(fn, memLabelId)]
      ensures tree == constructed
    {
      calls := calls + [TypeTreeConstructorCall(fn, memLabelId)];
      tree := constructed;
    }
  }

  /** The managed tree that owns the nodes (`Unity.TypeTree`); only its identity matters here. */
  class TypeTree {
    constructor ()
    {
    }
  }

  /** `TypeTreeNode.V2`: the shape variant wrapping one native node. */
  datatype NodeImpl = V2(node: NativeNode)

  class TypeTreeNode {
    const impl: NodeImpl
    const owner: TypeTree

    constructor (impl: NodeImpl, owner: TypeTree)
      ensures this.impl == impl && this.owner == owner
    {
      this.impl := impl;
      this.owner := owner;
    }
  }

  /** The node wrappers one per native node, in the native order. */
  function Wrapped(native: seq<NativeNode>): (r: seq<NodeImpl>)
    ensures |r| == |native|
    ensures forall i :: 0 <= i < |r| ==> r[i] == V2(native[i])
  {
    seq(|native|, i requires 0 <= i < |native| => V2(native[i]))
  }

  /** Wrapping is injective: the managed list determines the native node array, so nothing is dropped or reordered. */
  lemma {:induction false} WrappedInjective(a: seq<NativeNode>, b: seq<NativeNode>)
    requires Wrapped(a) == Wrapped(b)
    ensures a == b
  {
    assert |a| == |b|;
    forall i | 0 <= i < |a| ensures a[i] == b[i] {
      assert Wrapped(a)[i] == Wrapped(b)[i];
    }
  }

  /** The wrappers held by a fully built node list, in order. */
  ghost function Impls(nodes: seq<TypeTreeNode?>): seq<NodeImpl>
    requires forall i :: 0 <= i < |nodes| ==> nodes[i] != null
  {
    seq(|nodes|, i requires 0 <= i < |nodes| => nodes[i].impl)
  }

  class V3 {
    var tree: NativeTypeTree
    /** `Nodes`, assigned once; the source hands it out as an `IReadOnlyList`, which this array does not enforce. */
    const nodes: array<TypeTreeNode?>

    /** The constructor once both symbols have resolved: one host call with the label, then the node list. */
    constructor (owner: TypeTree, constructorAddress: Address, memLabelId: Address, host: HostRuntime)
      modifies host
      ensures host.calls == old(host.calls) + [TypeTreeConstructorCall(constructorAddress, memLabelId)]
      ensures tree == host.constructed
      ensures fresh(nodes) && nodes.Length == tree.data.nodes.Length
      ensures forall i :: 0 <= i < nodes.Length ==> nodes[i] != null && nodes[i].owner == owner
      ensures Impls(nodes[..]) == Wrapped(tree.data.nodes[..])
    {
      var t := host.InvokeTypeTreeConstructor(constructorAddress, memLabelId);
      tree := t;
      var created := CreateNodes(t.data, owner);
      nodes := created;
    }

    /**
     * `new V3(owner, resolver)`: resolves the host constructor, then the
     * memory label; a missing symbol throws before the host is called.
     */
    static method Create(owner: TypeTree, resolver: SymbolTable, host: HostRuntime) returns (r: Result<V3, ResolveError>)
      modifies host
      ensures r.Err? <==> Resolve(resolver, [TypeTreeConstructorName]).Err? || Resolve(resolver, [MemTypeTreeLabelName]).Err?
      ensures r.Err? ==> r.error == if Resolve(resolver, [TypeTreeConstructorName]).Err?
                                   then Resolve(resolver, [TypeTreeConstructorName]).error
                                   else Resolve(resolver, [MemTypeTreeLabelName]).error
      ensures r.Err? ==> host.calls == old(host.calls)
      ensures r.Ok? ==> fresh(r.value) && r.value.tree == host.constructed
      ensures r.Ok? ==> host.calls == old(host.calls)
                          + [TypeTreeConstructorCall(Resolve(resolver, [TypeTreeConstructorName]).value,
                                                     Resolve(resolver, [MemTypeTreeLabelName]).value)]
      ensures r.Ok? ==> r.value.StringBuffer() == host.constructed.data.stringBuffer
      ensures r.Ok? ==> r.value.nodes.Length == r.value.tree.data.nodes.Length
      ensures r.Ok? ==> fresh(r.value.nodes)
      ensures r.Ok? ==> forall i :: 0 <= i < r.value.nodes.Length ==> r.value.nodes[i] != null && r.value.nodes[i].owner == owner
      ensures r.Ok? ==> Impls(r.value.nodes[..]) == Wrapped(r.value.tree.data.nodes[..])
    {
      var ctor := Resolve(resolver, [TypeTreeConstructorName]);
      if ctor.Err? {
        return Err(ctor.error);
      }
      var memLabelId := Resolve(resolver, [MemTypeTreeLabelName]);
      if memLabelId.Err? {
        return Err(memLabelId.error);
      }
      var v := new V3(owner, ctor.value, memLabelId.value, host);
      r := Ok(v);
    }

    /** `StringBuffer`: the host's own buffer, not a copy. */
    function StringBuffer(): (r: array<bv8>)
      reads this, tree.data
    {
      tree.data.stringBuffer
    }

    /**
     * `CreateNodes`: one managed node per native slot, slot i wrapping native
     * node i, every node sharing `owner`; the shareable data is only read.
     */
    static method CreateNodes(data: TypeTreeShareableData, owner: TypeTree) returns (nodes: array<TypeTreeNode?>)
      ensures fresh(nodes) && nodes.Length == data.nodes.Length
      ensures forall i :: 0 <= i < nodes.Length ==> nodes[i] != null && nodes[i].owner == owner
      ensures Impls(nodes[..]) == Wrapped(data.nodes[..])
      ensures data.nodes.Length == 0 ==> nodes.Length == 0
    {
      nodes := new TypeTreeNode?[data.nodes.Length];
      for i := 0 to nodes.Length
        invariant forall j :: 0 <= j < i ==> nodes[j] != null && nodes[j].owner == owner && nodes[j].impl == V2(data.nodes[j])
      {
        nodes[i] := new TypeTreeNode(V2(data.nodes[i]), owner);
      }
      assert forall j :: 0 <= j < nodes.Length ==> Impls(nodes[..])[j] == Wrapped(data.nodes[..])[j];
    }
  }
}
