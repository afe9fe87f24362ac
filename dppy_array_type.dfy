/**
 * The address-space-tagged array type `DPPYArray` and the struct layout
 * `DPPYArrayModel` gives it (numba_dppy/dppy_array_type.py).
 *
 * A numba type is an immutable value, so the type is a datatype and its
 * derivation (`copy`) is a function building a new value.
 */
module DppyArrayType {
  import opened Wrappers

  /** A numba element type, opaque apart from the answer of its `is_precise()`. */
  datatype ElementType = ElementType(name: string, precise: bool)

  /** The layout letter of a numba array type: C-contiguous, Fortran-contiguous or any. */
  datatype Layout = C | F | A

  /** The Python class an array type stands for (`py_type`); `numpy.ndarray` by default. */
  datatype PyType = NdArrayClass | OtherClass(name: string)

  /** An address-space number of the device code generator. */
  type AddrSpace = nat

  /**
   * The fields a `DPPYArray` carries. `mutable` is what numba's `Array`
   * stores for `not readonly`; `name == None` stands for the name numba
   * generates from the other fields; `addrspace == None` is the host default.
   */
  datatype DppyArray = DppyArray(
    dtype: ElementType,
    ndim: nat,
    layout: Layout,
    pyType: PyType,
    mutable: bool,
    name: Option<string>,
    aligned: bool,
    addrspace: Option<AddrSpace>)

  /** The equality and hash key of a type: two types are equal exactly when their keys are. */
  datatype Key = Key(
    dtype: ElementType,
    ndim: nat,
    layout: Layout,
    mutable: bool,
    aligned: bool,
    addrspace: Option<AddrSpace>)

  /** `DPPYArray.__init__`, with the same defaults as the source. */
  function NewDppyArray(
    dtype: ElementType,
    ndim: nat,
    layout: Layout,
    pyType: PyType := NdArrayClass,
    readonly: bool := false,
    name: Option<string> := None,
    aligned: bool := true,
    addrspace: Option<AddrSpace> := None): (t: DppyArray)
    ensures t.mutable <==> !readonly
    ensures KeyOf(t) == Key(dtype, ndim, layout, !readonly, aligned, addrspace)
    ensures t.pyType == pyType && t.name == name
  {
    DppyArray(dtype, ndim, layout, pyType, !readonly, name, aligned, addrspace)
  }

  /** The `key` property: the tuple (dtype, ndim, layout, mutable, aligned, addrspace). */
  function KeyOf(t: DppyArray): (k: Key)
    ensures k.addrspace == t.addrspace
  {
    Key(t.dtype, t.ndim, t.layout, t.mutable, t.aligned, t.addrspace)
  }

  /** `is_precise()`: an array type is precise exactly when its element type is. */
  function IsPrecise(t: DppyArray): (r: bool)
    ensures r <==> t.dtype.precise
  {
    t.dtype.precise
  }

  /**
   * `DPPYArray.copy`: every argument given (non-`None`) overrides its field,
   * every other field is inherited; `aligned` is always inherited, and
   * `py_type` and `name` go back to the constructor's defaults.
   */
  function Copy(
    self: DppyArray,
    dtype: Option<ElementType> := None,
    ndim: Option<nat> := None,
    layout: Option<Layout> := None,
    readonly: Option<bool> := None,
    addrspace: Option<AddrSpace> := None): (r: DppyArray)
    ensures r.aligned == self.aligned
    ensures readonly.None? ==> r.mutable == self.mutable
    ensures readonly.Some? ==> r.mutable == !readonly.value
    ensures self.addrspace.Some? ==> r.addrspace.Some?
    ensures r.pyType == NdArrayClass && r.name == None
    ensures dtype.None? && ndim.None? && layout.None? && readonly.None? && addrspace.None?
            ==> KeyOf(r) == KeyOf(self)
  {
    NewDppyArray(
      dtype.GetOr(self.dtype),
      ndim.GetOr(self.ndim),
      layout.GetOr(self.layout),
      readonly := readonly.GetOr(!self.mutable),
      aligned := self.aligned,
      addrspace := if addrspace.None? then self.addrspace else addrspace)
  }

  /** Copying with no arguments gives a type equal (same key) to the original. */
  lemma CopyNoArgumentsIsEqual(t: DppyArray)
    ensures KeyOf(Copy(t)) == KeyOf(t)
    ensures Copy(t) == t.(pyType := NdArrayClass, name := None)
  {
  }

  /**
   * Each key field of a copy is the override when one is given and the
   * source's field otherwise; in particular a copy differs from its source
   * only in the fields that were overridden.
   */
  lemma CopyOverridesOrInherits(
    t: DppyArray, dtype: Option<ElementType>, ndim: Option<nat>, layout: Option<Layout>,
    readonly: Option<bool>, addrspace: Option<AddrSpace>)
    ensures var r := Copy(t, dtype, ndim, layout, readonly, addrspace);
      && (if dtype.Some? then r.dtype == dtype.value else r.dtype == t.dtype)
      && (if ndim.Some? then r.ndim == ndim.value else r.ndim == t.ndim)
      && (if layout.Some? then r.layout == layout.value else r.layout == t.layout)
      && (if readonly.Some? then r.mutable == !readonly.value else r.mutable == t.mutable)
      && (if addrspace.Some? then r.addrspace == addrspace else r.addrspace == t.addrspace)
      && r.aligned == t.aligned
  {
  }

  /** Overriding only `ndim` changes the key in the `ndim` field and nowhere else. */
  lemma CopyNdimOnly(t: DppyArray, n: nat)
    ensures KeyOf(Copy(t, ndim := Some(n))) == KeyOf(t).(ndim := n)
  {
  }

  /** No argument of `copy` can turn a tagged type back into an untagged one. */
  lemma CopyKeepsAddrspaceTag(
    t: DppyArray, dtype: Option<ElementType>, ndim: Option<nat>, layout: Option<Layout>,
    readonly: Option<bool>, addrspace: Option<AddrSpace>)
    requires t.addrspace.Some?
    ensures Copy(t, dtype, ndim, layout, readonly, addrspace).addrspace.Some?
  {
  }

  /** Two copies in a row are one copy whose overrides are the later ones, then the earlier ones. */
  lemma CopyOfCopy(
    t: DppyArray,
    d1: Option<ElementType>, n1: Option<nat>, l1: Option<Layout>, r1: Option<bool>, a1: Option<AddrSpace>,
    d2: Option<ElementType>, n2: Option<nat>, l2: Option<Layout>, r2: Option<bool>, a2: Option<AddrSpace>)
    ensures Copy(Copy(t, d1, n1, l1, r1, a1), d2, n2, l2, r2, a2)
         == Copy(t, Prefer(d2, d1), Prefer(n2, n1), Prefer(l2, l1), Prefer(r2, r1), Prefer(a2, a1))
  {
  }

  /** The later override when there is one, else the earlier one. */
  function Prefer<T>(later: Option<T>, earlier: Option<T>): Option<T> {
    if later.Some? then later else earlier
  }

  /** Keys are equal exactly when all six key fields are; name and py_type play no part. */
  lemma KeyEqualIff(a: DppyArray, b: DppyArray)
    ensures KeyOf(a) == KeyOf(b) <==>
      && a.dtype == b.dtype && a.ndim == b.ndim && a.layout == b.layout
      && a.mutable == b.mutable && a.aligned == b.aligned && a.addrspace == b.addrspace
  {
  }

  /** Types that differ only in their address space are distinct types. */
  lemma AddrspaceSeparatesTypes(a: DppyArray, s: Option<AddrSpace>)
    requires s != a.addrspace
    ensures KeyOf(a.(addrspace := s)) != KeyOf(a)
  {
  }

  /** A copy that keeps the element type keeps the precision. */
  lemma CopyKeepsPrecision(
    t: DppyArray, ndim: Option<nat>, layout: Option<Layout>,
    readonly: Option<bool>, addrspace: Option<AddrSpace>)
    ensures IsPrecise(Copy(t, None, ndim, layout, readonly, addrspace)) == IsPrecise(t)
  {
  }

  // ---------------------------------------------------------------------
  // The struct model `DPPYArrayModel`
  // ---------------------------------------------------------------------

  /** The numba types that appear as members of the array struct. */
  datatype MemberType =
    | MemInfoPointer(of: ElementType)
    | PyObjectType
    | Intp
    | CPointer(pointee: ElementType, pointerAddrspace: Option<AddrSpace>)
    | UniTuple(item: MemberType, count: nat)

  /** One named member of the struct. */
  datatype Member = Member(name: string, ty: MemberType)

  /** The member names in their binary order. */
  const MemberNames: seq<string> :=
    ["meminfo", "parent", "nitems", "itemsize", "data", "shape", "strides"]

  /** Position of the `data` member. */
  const DataIndex: nat := 4

  /** The member list built by `DPPYArrayModel.__init__` for the front-end type `fe`. */
  function ArrayModelMembers(fe: DppyArray): (ms: seq<Member>)
    ensures |ms| == |MemberNames| == 7
    ensures forall i :: 0 <= i < |ms| ==> ms[i].name == MemberNames[i]
    ensures ms[DataIndex].ty == CPointer(fe.dtype, fe.addrspace)
    ensures ms[5].ty == ms[6].ty == UniTuple(Intp, fe.ndim)
  {
    [ Member("meminfo", MemInfoPointer(fe.dtype)),
      Member("parent", PyObjectType),
      Member("nitems", Intp),
      Member("itemsize", Intp),
      Member("data", CPointer(fe.dtype, fe.addrspace)),
      Member("shape", UniTuple(Intp, fe.ndim)),
      Member("strides", UniTuple(Intp, fe.ndim)) ]
  }

  /**
   * The address space reaches the `data` pointer and nothing else: the
   * struct of a retagged type is the original struct with only `data`
   * replaced.
   */
  lemma OnlyDataCarriesAddrspace(a: DppyArray, s: Option<AddrSpace>)
    ensures ArrayModelMembers(a.(addrspace := s))
         == ArrayModelMembers(a)[DataIndex := Member("data", CPointer(a.dtype, s))]
    ensures forall i :: 0 <= i < 7 && i != DataIndex ==>
              ArrayModelMembers(a.(addrspace := s))[i] == ArrayModelMembers(a)[i]
    ensures ArrayModelMembers(a.(addrspace := s)) == ArrayModelMembers(a) <==> s == a.addrspace
  {
    var b := a.(addrspace := s);
    if ArrayModelMembers(b) == ArrayModelMembers(a) {
      assert ArrayModelMembers(b)[DataIndex] == ArrayModelMembers(a)[DataIndex];
    }
  }

  /** The struct depends on the element type, the rank and the address space only. */
  lemma ModelIgnoresLayoutAndFlags(a: DppyArray, b: DppyArray)
    requires a.dtype == b.dtype && a.ndim == b.ndim && a.addrspace == b.addrspace
    ensures ArrayModelMembers(a) == ArrayModelMembers(b)
  {
  }
}
