/**
 * The USM transfer utilities (numba_dppy/utils/array_utils.py): deciding
 * whether a Python object is backed by SYCL unified shared memory (USM),
 * copying NumPy arrays into and out of USM buffers, and obtaining a USM
 * buffer for an object, allocating one when needed.
 *
 * Each operation checks its arguments in a fixed order and raises on the
 * first failure. The checks are pure functions returning a `Result`
 * (`...Plan`); the operations that move bytes are methods proved against
 * those functions.
 */
module ArrayUtils {
  import opened Wrappers

  type Byte = bv8

  /** NumPy element types. */
  datatype NpDType =
    | Bool | Int8 | Int16 | Int32 | Int64
    | UInt8 | UInt16 | UInt32 | UInt64
    | Float16 | Float32 | Float64 | Complex64 | Complex128

  /** `dtype.itemsize`: bytes per element. */
  function Itemsize(d: NpDType): (n: nat)
    ensures 1 <= n <= 16
  {
    match d
    case Bool => 1
    case Int8 => 1
    case UInt8 => 1
    case Int16 => 2
    case UInt16 => 2
    case Float16 => 2
    case Int32 => 4
    case UInt32 => 4
    case Float32 => 4
    case Int64 => 8
    case UInt64 => 8
    case Float64 => 8
    case Complex64 => 8
    case Complex128 => 16
  }

  /** `supported_numpy_dtype`, as written: `int64` is listed twice and `uint64` not at all. */
  const SupportedNumpyDtype: seq<NpDType> := [Int32, Int64, UInt32, Int64, Float32, Float64]

  /** The dtype test of the three operations: membership in the supported list. */
  predicate IsSupported(d: NpDType) {
    d in SupportedNumpyDtype
  }

  /** The supported dtypes are exactly five; the sixth entry repeats `int64`, so `uint64` is refused. */
  lemma SupportedDtypesAreFive()
    ensures forall d: NpDType :: IsSupported(d) <==> d in {Int32, Int64, UInt32, Float32, Float64}
    ensures !IsSupported(UInt64)
    ensures |SupportedNumpyDtype| == 6 && |set d | d in SupportedNumpyDtype| == 5
  {
    var s := set d | d in SupportedNumpyDtype;
    assert s == {Int32, Int64, UInt32, Float32, Float64};
  }

  /** `np.prod(shape)`: the element count of a shape; the empty shape has one element. */
  function Product(shape: seq<nat>): nat {
    if shape == [] then 1 else shape[0] * Product(shape[1..])
  }

  /** The byte size of an array of dtype `d` and shape `shape`. */
  function NBytes(d: NpDType, shape: seq<nat>): nat {
    Itemsize(d) * Product(shape)
  }

  /** Flattening keeps the element count: the product of `[Product(s)]` is `Product(s)`. */
  lemma FlatShapeKeepsCount(shape: seq<nat>)
    ensures Product([Product(shape)]) == Product(shape)
  {
    assert [Product(shape)][1..] == [];
  }

  // ---------------------------------------------------------------------
  // SYCL queues and USM memory
  // ---------------------------------------------------------------------

  /** The kinds of USM allocation: `MemoryUSMShared`, `MemoryUSMDevice`, `MemoryUSMHost`. */
  datatype UsmKind = Shared | Device | Host

  /** A `dpctl.SyclQueue`, identified by an opaque number. */
  datatype SyclQueue = SyclQueue(id: nat)

  /** A USM allocation: a fixed number of bytes, allocated against a queue. */
  class UsmMemory {
    const kind: UsmKind
    const queue: SyclQueue
    const bytes: array<Byte>

    /** `size`: the number of bytes allocated; it never changes. */
    function Size(): nat {
      bytes.Length
    }

    /** Allocation of `nbytes` bytes of `kind` memory on `queue`; the contents are unspecified. */
    constructor (kind: UsmKind, nbytes: nat, queue: SyclQueue)
      ensures this.kind == kind && this.queue == queue
      ensures fresh(bytes) && Size() == nbytes
    {
      this.kind := kind;
      this.queue := queue;
      this.bytes := new Byte[nbytes];
    }

    /** `copy_from_host`: overwrite the whole buffer with `src`. */
    method CopyFromHost(src: seq<Byte>)
      requires |src| == Size()
      modifies bytes
      ensures bytes[..] == src
    {
      forall i | 0 <= i < bytes.Length {
        bytes[i] := src[i];
      }
    }

    /** `copy_to_host`: overwrite `dst` with the whole buffer; the buffer keeps its bytes. */
    method CopyToHost(dst: array<Byte>)
      requires dst.Length == Size()
      modifies dst
      ensures dst[..] == old(bytes[..])
      ensures bytes[..] == old(bytes[..])
    {
      var src := bytes[..];
      forall i | 0 <= i < dst.Length {
        dst[i] := src[i];
      }
    }
  }

  // ---------------------------------------------------------------------
  // Host objects
  // ---------------------------------------------------------------------

  /**
   * A `numpy.ndarray`. `data` holds the element bytes in logical C order,
   * whatever the physical strides; `cContiguous` is `flags.c_contiguous`.
   */
  class NdArray {
    const dtype: NpDType
    const shape: seq<nat>
    const cContiguous: bool
    const data: array<Byte>

    /** The data holds exactly one item per element. */
    predicate Valid() {
      data.Length == NBytes(dtype, shape)
    }

    constructor (dtype: NpDType, shape: seq<nat>, cContiguous: bool, data: array<Byte>)
      requires data.Length == NBytes(dtype, shape)
      ensures Valid()
      ensures this.dtype == dtype && this.shape == shape
      ensures this.cContiguous == cContiguous && this.data == data
    {
      this.dtype := dtype;
      this.shape := shape;
      this.cContiguous := cContiguous;
      this.data := data;
    }
  }

  /**
   * A Python object as the utilities see it: the USM memory that
   * `dpctl.memory.as_usm_memory` obtains from it (`None` when that call
   * raises), its `base` attribute (`None` when it has none or it is `None`),
   * and the array it is when it is a `numpy.ndarray`.
   */
  datatype PyObject = PyObject(usm: Option<UsmMemory>, base: Option<PyObject>, ndarray: Option<NdArray>)

  /** An object wrapping USM memory directly, such as a `MemoryUSMShared`. */
  function UsmObject(mem: UsmMemory): (o: PyObject)
    ensures o.usm == Some(mem) && o.ndarray.None?
  {
    PyObject(Some(mem), None, None)
  }

  /** An object every one of whose arrays is well formed. */
  predicate WellFormed(obj: PyObject) {
    obj.ndarray.Some? ==> obj.ndarray.value.Valid()
  }

  // ---------------------------------------------------------------------
  // Errors
  // ---------------------------------------------------------------------

  /** The failures the utilities report, one per `raise` in the source. */
  datatype Error =
    | NotUsmBacked
    | NotNdarray
    | UnsupportedDtype(dtype: NpDType)
    | SizeMismatch(usmBytes: nat, objectBytes: nat)
    | QueueIsNone
    | QueueNotSyclQueue
    | InvalidUsmType(usmType: string)
    | CastNeedsCContiguous

  /** Python's exception classes used by the utilities. */
  datatype ExceptionClass = TypeError | ValueError

  /** The class of the exception raised for each failure. */
  function Raises(e: Error): (c: ExceptionClass)
    ensures c == TypeError <==> e in {NotUsmBacked, NotNdarray, QueueNotSyclQueue, CastNeedsCContiguous}
    ensures c == ValueError <==> e.UnsupportedDtype? || e.SizeMismatch? || e == QueueIsNone || e.InvalidUsmType?
  {
    match e
    case NotUsmBacked => TypeError
    case NotNdarray => TypeError
    case UnsupportedDtype(_) => ValueError
    case SizeMismatch(_, _) => ValueError
    case QueueIsNone => ValueError
    case QueueNotSyclQueue => TypeError
    case InvalidUsmType(_) => ValueError
    case CastNeedsCContiguous => TypeError
  }

  // ---------------------------------------------------------------------
  // has_usm_memory
  // ---------------------------------------------------------------------

  /**
   * `has_usm_memory`: the object's own USM memory if it has one, otherwise
   * the USM memory of its base if it has a base that has one, otherwise
   * `None`. It never raises and looks at most one base deep.
   */
  function HasUsmMemory(obj: PyObject): (r: Option<UsmMemory>)
    ensures r.Some? <==> obj.usm.Some? || (obj.base.Some? && obj.base.value.usm.Some?)
    ensures obj.usm.Some? ==> r == obj.usm
    ensures obj.usm.None? && obj.base.Some? ==> r == obj.base.value.usm
  {
    if obj.usm.Some? then obj.usm
    else if obj.base.Some? then obj.base.value.usm
    else None
  }

  /** The probe stops after one level: a USM grandparent is not found. */
  lemma HasUsmMemoryProbesOneBase(mem: UsmMemory, arr: Option<NdArray>)
    ensures HasUsmMemory(PyObject(None, Some(PyObject(None, Some(UsmObject(mem)), None)), arr)) == None
    ensures HasUsmMemory(PyObject(None, Some(UsmObject(mem)), arr)) == Some(mem)
  {
  }

  /** The objects `copy_from_numpy_to_usm_obj` may write: the bytes of the USM memory found. */
  function UsmTarget(usmBacked: PyObject): set<object> {
    if HasUsmMemory(usmBacked).Some? then {HasUsmMemory(usmBacked).value.bytes} else {}
  }

  /** The objects `copy_to_numpy_from_usm_obj` may write: the bytes of the destination array. */
  function HostTarget(obj: PyObject): set<object> {
    if obj.ndarray.Some? then {obj.ndarray.value.data} else {}
  }

  // ---------------------------------------------------------------------
  // The checks shared by the three operations
  // ---------------------------------------------------------------------

  /** The `isinstance(obj, np.ndarray)` check followed by the dtype check. */
  function SupportedNdarray(obj: PyObject): (r: Result<NdArray, Error>)
    ensures r.Success? <==> obj.ndarray.Some? && IsSupported(obj.ndarray.value.dtype)
    ensures r.Success? ==> r.value == obj.ndarray.value
    ensures obj.ndarray.None? ==> r == Failure(NotNdarray)
    ensures obj.ndarray.Some? && !IsSupported(obj.ndarray.value.dtype)
            ==> r == Failure(UnsupportedDtype(obj.ndarray.value.dtype))
  {
    if obj.ndarray.None? then Failure(NotNdarray)
    else if !IsSupported(obj.ndarray.value.dtype) then Failure(UnsupportedDtype(obj.ndarray.value.dtype))
    else Success(obj.ndarray.value)
  }

  /** The shape of `packed_obj`: the array's own when C-contiguous, its C-order flattening otherwise. */
  function PackedShape(a: NdArray): (s: seq<nat>)
    ensures Product(s) == Product(a.shape)
    ensures !a.cContiguous ==> |s| == 1
  {
    if a.cContiguous then a.shape else FlatShapeKeepsCount(a.shape); [Product(a.shape)]
  }

  /** What a successful check hands to the byte copy. */
  datatype Transfer = Transfer(mem: UsmMemory, host: NdArray, packed: bool)

  // ---------------------------------------------------------------------
  // copy_from_numpy_to_usm_obj
  // ---------------------------------------------------------------------

  /**
   * The checks of `copy_from_numpy_to_usm_obj`, first failure wins: not USM
   * backed (TypeError), not an ndarray (TypeError), unsupported dtype
   * (ValueError), byte size of the packed array different from the USM
   * size (ValueError). Packing never changes the byte count, so the size
   * that must match is that of the array as given.
   */
  function CopyFromNumpyPlan(usmBacked: PyObject, obj: PyObject): (r: Result<Transfer, Error>)
    ensures HasUsmMemory(usmBacked).None? ==> r == Failure(NotUsmBacked)
    ensures HasUsmMemory(usmBacked).Some? && SupportedNdarray(obj).Failure?
            ==> r == Failure(SupportedNdarray(obj).error)
    ensures HasUsmMemory(usmBacked).Some? && SupportedNdarray(obj).Success?
            && HasUsmMemory(usmBacked).value.Size() != NBytes(obj.ndarray.value.dtype, obj.ndarray.value.shape)
            ==> r == Failure(SizeMismatch(HasUsmMemory(usmBacked).value.Size(),
                                          NBytes(obj.ndarray.value.dtype, obj.ndarray.value.shape)))
    ensures r.Success? <==>
            && HasUsmMemory(usmBacked).Some? && SupportedNdarray(obj).Success?
            && HasUsmMemory(usmBacked).value.Size() == NBytes(obj.ndarray.value.dtype, obj.ndarray.value.shape)
    ensures r.Success? ==>
            && r.value.mem == HasUsmMemory(usmBacked).value
            && r.value.host == obj.ndarray.value
            && (r.value.packed <==> !obj.ndarray.value.cContiguous)
  {
    match HasUsmMemory(usmBacked)
    case None => Failure(NotUsmBacked)
    case Some(mem) =>
      match SupportedNdarray(obj)
      case Failure(e) => Failure(e)
      case Success(a) =>
        var packed := !a.cContiguous;
        var need := NBytes(a.dtype, PackedShape(a));
        if mem.Size() != need then Failure(SizeMismatch(mem.Size(), need))
        else Success(Transfer(mem, a, packed))
  }

  /** The failures of `copy_from_numpy_to_usm_obj` raise TypeError for the two type checks and ValueError otherwise. */
  lemma CopyFromNumpyExceptionClasses(usmBacked: PyObject, obj: PyObject)
    ensures var r := CopyFromNumpyPlan(usmBacked, obj);
      r.Failure? ==> (Raises(r.error) == TypeError <==> r.error == NotUsmBacked || r.error == NotNdarray)
  {
  }

  /** `obj.flatten(order="C")`: a new one-dimensional C-contiguous array with the same elements. */
  method Flatten(a: NdArray) returns (p: NdArray)
    requires a.Valid()
    ensures fresh(p) && fresh(p.data) && p.Valid()
    ensures p.dtype == a.dtype && p.shape == [Product(a.shape)] && p.cContiguous
    ensures p.data[..] == a.data[..]
  {
    var d := new Byte[a.data.Length];
    forall i | 0 <= i < d.Length {
      d[i] := a.data[i];
    }
    FlatShapeKeepsCount(a.shape);
    p := new NdArray(a.dtype, [Product(a.shape)], true, d);
  }

  /**
   * `copy_from_numpy_to_usm_obj`: on success the USM bytes become the
   * element bytes of `obj` in C order and the result is
   * `(obj, packed_obj, packed)`, where `packed` says that `obj` was not
   * C-contiguous and `packed_obj` is then a fresh flattened copy (else `obj`
   * itself). `obj` keeps its bytes; the USM memory's size is fixed at
   * allocation.
   */
  method CopyFromNumpyToUsmObj(usmBacked: PyObject, obj: PyObject)
    returns (r: Result<(NdArray, NdArray, bool), Error>)
    requires WellFormed(obj)
    modifies UsmTarget(usmBacked)
    ensures var plan := CopyFromNumpyPlan(usmBacked, obj);
      && (plan.Failure? ==> r == Failure(plan.error) && unchanged(UsmTarget(usmBacked)))
      && (plan.Success? ==>
            var a, mem := plan.value.host, plan.value.mem;
            && r.Success? && r.value.0 == a && r.value.2 == plan.value.packed
            && var p := r.value.1;
            && (r.value.2 ==> fresh(p) && fresh(p.data) && p.Valid() && p.cContiguous
                              && p.dtype == a.dtype && p.shape == [Product(a.shape)])
            && (!r.value.2 ==> p == a)
            && mem.bytes[..] == old(a.data[..])
            && a.data[..] == old(a.data[..])
            && p.data[..] == old(a.data[..]))
  {
    var plan := CopyFromNumpyPlan(usmBacked, obj);
    if plan.Failure? {
      return Failure(plan.error);
    }
    var a, mem := plan.value.host, plan.value.mem;
    var packedObj := a;
    if plan.value.packed {
      packedObj := Flatten(a);
    }
    var src := packedObj.data[..];
    mem.CopyFromHost(src);
    r := Success((a, packedObj, plan.value.packed));
  }

  // ---------------------------------------------------------------------
  // copy_to_numpy_from_usm_obj
  // ---------------------------------------------------------------------

  /**
   * The checks of `copy_to_numpy_from_usm_obj`, first failure wins: the same
   * three type and dtype checks, the byte size of `obj` as it is (no
   * packing), and finally the byte view of a destination that is not
   * C-contiguous cannot be taken (TypeError).
   */
  function CopyToNumpyPlan(usmBacked: PyObject, obj: PyObject): (r: Result<Transfer, Error>)
    ensures HasUsmMemory(usmBacked).None? ==> r == Failure(NotUsmBacked)
    ensures HasUsmMemory(usmBacked).Some? && SupportedNdarray(obj).Failure?
            ==> r == Failure(SupportedNdarray(obj).error)
    ensures r.Success? <==>
            && HasUsmMemory(usmBacked).Some? && SupportedNdarray(obj).Success?
            && HasUsmMemory(usmBacked).value.Size() == NBytes(obj.ndarray.value.dtype, obj.ndarray.value.shape)
            && obj.ndarray.value.cContiguous
    ensures HasUsmMemory(usmBacked).Some? && SupportedNdarray(obj).Success?
            && HasUsmMemory(usmBacked).value.Size() != NBytes(obj.ndarray.value.dtype, obj.ndarray.value.shape)
            ==> r == Failure(SizeMismatch(HasUsmMemory(usmBacked).value.Size(),
                                          NBytes(obj.ndarray.value.dtype, obj.ndarray.value.shape)))
    ensures (HasUsmMemory(usmBacked).Some? && SupportedNdarray(obj).Success?
             && HasUsmMemory(usmBacked).value.Size() == NBytes(obj.ndarray.value.dtype, obj.ndarray.value.shape)
             && !obj.ndarray.value.cContiguous) ==> r == Failure(CastNeedsCContiguous)
    ensures r == Failure(CastNeedsCContiguous) ==>
            HasUsmMemory(usmBacked).value.Size() == NBytes(obj.ndarray.value.dtype, obj.ndarray.value.shape)
    ensures r.Success? ==>
            r.value == Transfer(HasUsmMemory(usmBacked).value, obj.ndarray.value, false)
  {
    match HasUsmMemory(usmBacked)
    case None => Failure(NotUsmBacked)
    case Some(mem) =>
      match SupportedNdarray(obj)
      case Failure(e) => Failure(e)
      case Success(a) =>
        var need := NBytes(a.dtype, a.shape);
        if mem.Size() != need then Failure(SizeMismatch(mem.Size(), need))
        else if !a.cContiguous then Failure(CastNeedsCContiguous)
        else Success(Transfer(mem, a, false))
  }

  /** The checks are shared: an input the copy-in refuses for type, dtype or size, the copy-out refuses the same way. */
  lemma CopyToNumpySharesChecks(usmBacked: PyObject, obj: PyObject)
    requires CopyFromNumpyPlan(usmBacked, obj).Failure?
    ensures CopyToNumpyPlan(usmBacked, obj) == CopyFromNumpyPlan(usmBacked, obj)
  {
  }

  /** On a C-contiguous array the two operations accept exactly the same inputs. */
  lemma CopyDirectionsAgreeOnContiguous(usmBacked: PyObject, obj: PyObject)
    requires obj.ndarray.Some? && obj.ndarray.value.cContiguous
    ensures CopyToNumpyPlan(usmBacked, obj).Success? <==> CopyFromNumpyPlan(usmBacked, obj).Success?
  {
  }

  /**
   * `copy_to_numpy_from_usm_obj`: on success the bytes of `obj` become the
   * USM bytes and the USM memory is unchanged; on failure nothing changes.
   */
  method CopyToNumpyFromUsmObj(usmBacked: PyObject, obj: PyObject) returns (r: Outcome<Error>)
    requires WellFormed(obj)
    modifies HostTarget(obj)
    ensures var plan := CopyToNumpyPlan(usmBacked, obj);
      && (plan.Failure? ==> r == Fail(plan.error) && unchanged(HostTarget(obj)))
      && (plan.Success? ==>
            var a, mem := plan.value.host, plan.value.mem;
            && r == Pass
            && a.data[..] == old(mem.bytes[..])
            && mem.bytes[..] == old(mem.bytes[..]))
  {
    var plan := CopyToNumpyPlan(usmBacked, obj);
    if plan.Failure? {
      return Fail(plan.error);
    }
    plan.value.mem.CopyToHost(plan.value.host.data);
    r := Pass;
  }

  /**
   * Copying an array into USM memory and then out into a C-contiguous
   * array of the same dtype and shape reproduces the first array's
   * elements in the second.
   */
  method CopyInThenOut(usmBacked: PyObject, src: PyObject, dst: PyObject) returns (ok: bool)
    requires WellFormed(src) && WellFormed(dst)
    requires src.ndarray.Some? && dst.ndarray.Some?
    requires dst.ndarray.value.dtype == src.ndarray.value.dtype
    requires dst.ndarray.value.shape == src.ndarray.value.shape
    requires dst.ndarray.value.cContiguous
    modifies UsmTarget(usmBacked), HostTarget(dst)
    ensures ok <==> CopyFromNumpyPlan(usmBacked, src).Success?
    ensures ok ==> dst.ndarray.value.data[..] == old(src.ndarray.value.data[..])
  {
    var r := CopyFromNumpyToUsmObj(usmBacked, src);
    ok := r.Success?;
    if ok {
      var out := CopyToNumpyFromUsmObj(usmBacked, dst);
      assert out.Pass?;
    }
  }

  // ---------------------------------------------------------------------
  // as_usm_backed
  // ---------------------------------------------------------------------

  /** The `queue` argument: `None`, a `dpctl.SyclQueue`, or any other object. */
  datatype QueueArg = NoQueue | Queue(q: SyclQueue) | NotAQueue

  /** The `usm_type` strings accepted and the allocation each selects. */
  function UsmKindOf(usmType: string): (k: Option<UsmKind>)
    ensures k.Some? <==> usmType in {"shared", "device", "host"}
    ensures k == Some(Shared) <==> usmType == "shared"
    ensures k == Some(Device) <==> usmType == "device"
    ensures k == Some(Host) <==> usmType == "host"
  {
    if usmType == "shared" then Some(Shared)
    else if usmType == "device" then Some(Device)
    else if usmType == "host" then Some(Host)
    else None
  }

  /** Where the USM memory returned by `as_usm_backed` comes from. */
  datatype Backing =
    | Existing(mem: UsmMemory)
    | Allocate(kind: UsmKind, nbytes: nat, queue: SyclQueue)

  /**
   * The decisions of `as_usm_backed`, first failure wins: queue `None`
   * (ValueError), queue not a `SyclQueue` (TypeError) — both before the
   * probe's answer is used, so even USM-backed objects need a queue — then,
   * when the object has no USM memory: not an ndarray (TypeError),
   * unsupported dtype (ValueError), unknown `usm_type` (ValueError). A new
   * allocation is of exactly the array's byte size.
   */
  function AsUsmBackedPlan(obj: PyObject, queue: QueueArg, usmType: string): (r: Result<Backing, Error>)
    ensures queue.NoQueue? ==> r == Failure(QueueIsNone)
    ensures queue.NotAQueue? ==> r == Failure(QueueNotSyclQueue)
    ensures queue.Queue? && HasUsmMemory(obj).Some? ==> r == Success(Existing(HasUsmMemory(obj).value))
    ensures queue.Queue? && HasUsmMemory(obj).None? && SupportedNdarray(obj).Failure?
            ==> r == Failure(SupportedNdarray(obj).error)
    ensures (queue.Queue? && HasUsmMemory(obj).None? && SupportedNdarray(obj).Success?
             && UsmKindOf(usmType).None?) ==> r == Failure(InvalidUsmType(usmType))
    ensures (queue.Queue? && HasUsmMemory(obj).None? && SupportedNdarray(obj).Success?
             && UsmKindOf(usmType).Some?) ==>
            r == Success(Allocate(UsmKindOf(usmType).value,
                                  NBytes(obj.ndarray.value.dtype, obj.ndarray.value.shape), queue.q))
    ensures r.Success? && r.value.Allocate? ==>
            && HasUsmMemory(obj).None? && SupportedNdarray(obj).Success?
            && r.value == Allocate(UsmKindOf(usmType).value,
                                   NBytes(obj.ndarray.value.dtype, obj.ndarray.value.shape), queue.q)
  {
    if queue.NoQueue? then Failure(QueueIsNone)
    else if queue.NotAQueue? then Failure(QueueNotSyclQueue)
    else match HasUsmMemory(obj)
      case Some(mem) => Success(Existing(mem))
      case None =>
        match SupportedNdarray(obj)
        case Failure(e) => Failure(e)
        case Success(a) =>
          var size := Product(a.shape);
          match UsmKindOf(usmType)
          case None => Failure(InvalidUsmType(usmType))
          case Some(kind) => Success(Allocate(kind, size * Itemsize(a.dtype), queue.q))
  }

  /** With the default `queue=None`, `as_usm_backed` always raises ValueError, USM-backed object or not. */
  lemma AsUsmBackedNeedsQueue(obj: PyObject, usmType: string)
    ensures AsUsmBackedPlan(obj, NoQueue, usmType) == Failure(QueueIsNone)
    ensures Raises(QueueIsNone) == ValueError
  {
  }

  /**
   * A fresh allocation always passes the checks of the copy that fills it:
   * the object wrapping the new memory is USM backed and its size is the
   * array's byte size.
   */
  lemma FreshAllocationPassesCopyChecks(obj: PyObject, queue: QueueArg, usmType: string, mem: UsmMemory)
    requires AsUsmBackedPlan(obj, queue, usmType).Success?
    requires AsUsmBackedPlan(obj, queue, usmType).value.Allocate?
    requires mem.Size() == AsUsmBackedPlan(obj, queue, usmType).value.nbytes
    ensures CopyFromNumpyPlan(UsmObject(mem), obj).Success?
    ensures CopyFromNumpyPlan(UsmObject(mem), obj).value.mem == mem
  {
  }

  /**
   * `as_usm_backed`: returns the object's existing USM memory untouched, or
   * allocates memory of the requested kind and the array's byte size on
   * the queue and, when `copy` is set, fills it with the array's bytes.
   * It changes no memory that existed before the call.
   */
  method AsUsmBacked(obj: PyObject, queue: QueueArg := NoQueue, usmType: string := "shared", copy: bool := true)
    returns (r: Result<UsmMemory, Error>)
    requires WellFormed(obj)
    ensures var plan := AsUsmBackedPlan(obj, queue, usmType);
      && (plan.Failure? ==> r == Failure(plan.error))
      && (plan.Success? && plan.value.Existing? ==> r == Success(plan.value.mem))
      && (plan.Success? && plan.value.Allocate? ==>
            && r.Success? && fresh(r.value) && fresh(r.value.bytes)
            && r.value.kind == plan.value.kind
            && r.value.queue == plan.value.queue
            && r.value.Size() == plan.value.nbytes
            && (copy ==> r.value.bytes[..] == old(obj.ndarray.value.data[..])))
  {
    var plan := AsUsmBackedPlan(obj, queue, usmType);
    match plan
    case Failure(e) =>
      r := Failure(e);
    case Success(Existing(mem)) =>
      r := Success(mem);
    case Success(Allocate(kind, nbytes, q)) =>
      var mem := new UsmMemory(kind, nbytes, q);
      if copy {
        FreshAllocationPassesCopyChecks(obj, queue, usmType, mem);
        var copied := CopyFromNumpyToUsmObj(UsmObject(mem), obj);
      }
      r := Success(mem);
  }
}
