/**
 * The version-dispatched view of a host object (`Unity.NativeObject`).
 *
 * The byte layouts of the two shape variants, `V1` (before Unity 5.0) and
 * `V5_0` (from 5.0 on), are not part of this model: the foreign object is
 * represented by its logical header fields, which both variants expose.
 */
module NativeObjects {
  import opened Wrappers
  import opened Versions

  newtype uint32 = x: int | 0 <= x < 0x1_0000_0000

  /** `HideFlags`, kept as its underlying integer. */
  type HideFlags = int

  datatype PersistentTypeID = PersistentTypeID(value: int)

  /** The host object at `ptr`; the host, not this tool, owns and updates it. */
  class NativeHeader {
    var instanceID: int
    var temporaryFlags: bv8
    var hideFlags: HideFlags
    var isPersistent: bool
    var cachedTypeIndex: uint32

    constructor (instanceID: int, temporaryFlags: bv8, hideFlags: HideFlags, isPersistent: bool, cachedTypeIndex: uint32)
      ensures this.instanceID == instanceID && this.temporaryFlags == temporaryFlags
      ensures this.hideFlags == hideFlags && this.isPersistent == isPersistent
      ensures this.cachedTypeIndex == cachedTypeIndex
    {
      this.instanceID := instanceID;
      this.temporaryFlags := temporaryFlags;
      this.hideFlags := hideFlags;
      this.isPersistent := isPersistent;
      this.cachedTypeIndex := cachedTypeIndex;
    }
  }

  datatype Layout = LayoutV1 | LayoutV5_0

  /** `INativeObjectImpl`: the capability set every shape variant provides over the object at `ptr`. */
  datatype NativeObjectImpl = V1(ptr: NativeHeader) | V5_0(ptr: NativeHeader) {
    function Layout(): Layout {
      if V1? then LayoutV1 else LayoutV5_0
    }
    function InstanceID(): int reads ptr { ptr.instanceID }
    function Pointer(): NativeHeader { ptr }
    function TemporaryFlags(): bv8 reads ptr { ptr.temporaryFlags }
    function HideFlags(): HideFlags reads ptr { ptr.hideFlags }
    function IsPersistent(): bool reads ptr { ptr.isPersistent }
    function CachedTypeIndex(): uint32 reads ptr { ptr.cachedTypeIndex }
  }

  /** The constructor's version branch: `version < UnityVersion.Unity5_0` picks `V1`, anything else `V5_0`. */
  function SelectLayout(version: UnityVersion): (l: Layout)
    ensures l == LayoutV1 <==> version.major < 5
  {
    if Less(version, Unity5_0) then LayoutV1 else LayoutV5_0
  }

  /** Once a version selects the 5.0 layout, every later version does too. */
  lemma SelectionMonotone(v: UnityVersion, w: UnityVersion)
    requires LessEq(v, w)
    ensures SelectLayout(v) == LayoutV5_0 ==> SelectLayout(w) == LayoutV5_0
    ensures SelectLayout(w) == LayoutV1 ==> SelectLayout(v) == LayoutV1
  {
  }

  datatype DestroyRequest = DestroyRequest(target: NativeObject, persistentTypeID: PersistentTypeID)

  /**
   * The owning factory. Its singleton/persistent test is not part of this
   * model: the factory records every destroy request it is handed.
   */
  class NativeObjectFactory {
    var destroyRequests: seq<DestroyRequest>

    constructor ()
      ensures destroyRequests == []
    {
      destroyRequests := [];
    }

    method DestroyIfNotSingletonOrPersistent(o: NativeObject, id: PersistentTypeID)
      modifies this
      ensures destroyRequests == old(destroyRequests) + [DestroyRequest(o, id)]
    {
      destroyRequests := destroyRequests + [DestroyRequest(o, id)];
    }
  }

  datatype ArgumentNullException = ArgumentNullException(paramName: string)

  class NativeObject {
    var nativeObject: NativeObjectImpl
    var factory: NativeObjectFactory
    var persistentTypeID: PersistentTypeID

    /** The constructor after its null check: one version branch, then the two stored arguments. */
    constructor (ptr: NativeHeader, factory: NativeObjectFactory, persistentTypeID: PersistentTypeID, version: UnityVersion)
      ensures nativeObject.ptr == ptr
      ensures nativeObject.Layout() == SelectLayout(version)
      ensures this.factory == factory && this.persistentTypeID == persistentTypeID
      ensures ReadsThrough(ptr)
    {
      if Less(version, Unity5_0) {
        nativeObject := V1(ptr);
      } else {
        nativeObject := V5_0(ptr);
      }
      this.factory := factory;
      this.persistentTypeID := persistentTypeID;
    }

    /**
     * `new NativeObject(ptr, factory, persistentTypeID, version)`: a null
     * `ptr` throws and produces no object.
     */
    static method Create(ptr: NativeHeader?, factory: NativeObjectFactory, persistentTypeID: PersistentTypeID, version: UnityVersion)
      returns (r: Result<NativeObject, ArgumentNullException>)
      ensures r.Err? <==> ptr == null
      ensures r.Err? ==> r.error == ArgumentNullException("ptr")
      ensures r.Ok? ==> fresh(r.value) && r.value.nativeObject.ptr == ptr
      ensures r.Ok? ==> r.value.nativeObject.Layout() == SelectLayout(version)
      ensures r.Ok? ==> r.value.factory == factory && r.value.persistentTypeID == persistentTypeID
      ensures r.Ok? ==> r.value.ReadsThrough(ptr)
    {
      if ptr == null {
        return Err(ArgumentNullException("ptr"));
      }
      var o := new NativeObject(ptr, factory, persistentTypeID, version);
      r := Ok(o);
    }

    /** Whatever the variant, every property reads the host object at `ptr`, live. */
    ghost predicate ReadsThrough(ptr: NativeHeader)
      reads this, nativeObject.ptr
    {
      && Pointer() == ptr
      && InstanceID() == ptr.instanceID
      && TemporaryFlags() == ptr.temporaryFlags
      && HideFlags() == ptr.hideFlags
      && IsPersistent() == ptr.isPersistent
      && CachedTypeIndex() == ptr.cachedTypeIndex
    }

    /** The properties forward to the variant chosen at construction. */
    function InstanceID(): (r: int)
      reads this, nativeObject.ptr
    {
      nativeObject.InstanceID()
    }

    function Pointer(): (r: NativeHeader)
      reads this
    {
      nativeObject.Pointer()
    }

    function TemporaryFlags(): (r: bv8)
      reads this, nativeObject.ptr
    {
      nativeObject.TemporaryFlags()
    }

    function HideFlags(): (r: HideFlags)
      reads this, nativeObject.ptr
    {
      nativeObject.HideFlags()
    }

    function IsPersistent(): (r: bool)
      reads this, nativeObject.ptr
    {
      nativeObject.IsPersistent()
    }

    function CachedTypeIndex(): (r: uint32)
      reads this, nativeObject.ptr
    {
      nativeObject.CachedTypeIndex()
    }

    /**
     * `Dispose`: the implementation is never null once constructed, so the
     * destroy decision always goes to the factory, with this object and its
     * stored type id; the view itself is left as it was.
     */
    method Dispose()
      modifies factory
      ensures factory.destroyRequests == old(factory.destroyRequests) + [DestroyRequest(this, persistentTypeID)]
      ensures unchanged(this)
    {
      factory.DestroyIfNotSingletonOrPersistent(this, persistentTypeID);
    }
  }
}
