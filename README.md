# numba-dppy core in Dafny

This project models three sequential pieces of numba-dppy, the numba extension that compiles Python kernels for SYCL devices:

- **USM transfer utilities** (`numba_dppy/utils/array_utils.py`, module `ArrayUtils` in `array_utils.dfy`). `has_usm_memory` probes an object, then its `base`, for SYCL unified shared memory (USM). `copy_from_numpy_to_usm_obj` copies a NumPy array into USM memory. It first repacks a non-C-contiguous array by flattening it in C order. `copy_to_numpy_from_usm_obj` copies USM memory back into an array and never repacks. `as_usm_backed` returns an object's USM memory, or allocates shared, device or host memory on a queue and fills it.
  - A Python object is the datatype `PyObject`: the USM memory `dpctl.memory.as_usm_memory` would obtain from it, its `base`, and the `numpy.ndarray` it is, if any.
  - An ndarray is the class `NdArray`: dtype, shape, the `c_contiguous` flag and a byte array. The byte array holds the element bytes in logical C order.
  - USM memory is the class `UsmMemory`: a kind, a queue and a byte array whose length is the fixed `size`.
  - Each operation's argument checks are a pure function returning a `Result` (`CopyFromNumpyPlan`, `CopyToNumpyPlan`, `AsUsmBackedPlan`). The first failing check decides the error. The operations that move bytes are methods proved against these functions.
- **Address-space-tagged array type** (`numba_dppy/dppy_array_type.py`, module `DppyArrayType` in `dppy_array_type.dfy`). `DPPYArray` is a datatype. `copy` is a function that overrides or inherits each field. `key` is the six-field equality key. `DPPYArrayModel`'s member list is a function on the front-end type.
- **Target-context selection** (`numba_dppy/descriptor.py`, module `Descriptor` in `descriptor.dfy`).
  - `_NestedContext` is a class with `Enter`/`Exit` methods. `Enter` is the part of `nested` before `yield`; `Exit` is the `finally` clause.
  - Nested `with` blocks are described twice: imperatively by `WithNested`, and as a transition system (`Scope`, `Event`, `Machine`, `Run`). In the transition system the pairs saved by open blocks form a stack. The lemmas prove that blocks restore in last-in-first-out order. The transition system is a separate abstraction of `NestedContext`: no lemma connects `Enter`/`Exit` to `Step`. The link is informal: `Enter` returns the pair that `Step` pushes on `EnterBlock`, and `Exit` reinstates the pair that `Step` pops on `LeaveBlock`.
  - `DPPYCpuTarget` and `DPPYTarget` are classes. Their `cached_property` slots are `Option` fields.
  - `_nested` is a class attribute shared by every `DPPYCpuTarget`. It is modelled as one `NestedContext` object, handed to each constructor.
  - `DppyCpuTarget.NestedContextEnter` stands for `nested_context` plus the `with` statement that enters the manager it returns. Leaving that block is `NestedContext.Exit`.

`wrappers.dfy` holds `Option`, `Result` and `Outcome`.

Behaviour of the code worth knowing:
- `supported_numpy_dtype` lists `int64` twice and omits `uint64`. A `uint64` array is therefore refused with ValueError.
- `as_usm_backed` checks the queue before it uses the probe's answer. An object that is already USM-backed is still refused when no queue is given.
- `copy` overrides a field even with the value it already has. The key of a copy therefore differs from the original's only where an override changes a value.
- The nesting slots are one object shared by all CPU targets, not per-thread state.
- `DPPYCpuTarget._toplevel_target_context` is built from `self.typing_context`, which selects the nested typing context when one is set. A top-level target first built inside a `nested(t, None)` block keeps `t` for good. The contracts of `ToplevelTargetContext` and `TargetContext` state this, together with the typing context they cache when no nested one is set.
- `copy_to_numpy_from_usm_obj` takes `memoryview(obj).cast("B")`. That cast raises TypeError for a destination that is not C-contiguous. The model reports this as the error `CastNeedsCContiguous`, after the size check.

## Model

| member | source | states |
|---|---|---|
| `ArrayUtils.SupportedDtypesAreFive` | numba_dppy/utils/array_utils.py:23-30 | the supported dtypes are exactly int32, int64, uint32, float32, float64; the list has six entries for five dtypes and uint64 is refused |
| `ArrayUtils.Raises` | numba_dppy/utils/array_utils.py:92-241 | the exception class of each failure: a missing USM source, a non-ndarray object, a queue that is not a SyclQueue and a failed byte cast raise TypeError; an unsupported dtype, a size mismatch, a None queue and an unknown usm_type raise ValueError |
| `ArrayUtils.HasUsmMemory` | numba_dppy/utils/array_utils.py:33-62 | never fails; yields the object's own USM memory if it has one, else its base's if the base has one, else None |
| `ArrayUtils.HasUsmMemoryProbesOneBase` | numba_dppy/utils/array_utils.py:48-62 | USM memory one base up is found; USM memory two bases up is not |
| `ArrayUtils.UsmMemory.constructor` | numba_dppy/utils/array_utils.py:231-236 | an allocation has the requested kind, queue and exact byte size, in fresh memory |
| `ArrayUtils.UsmMemory.CopyFromHost` | numba_dppy/utils/array_utils.py:123-125 | after the copy the USM bytes are exactly the source bytes |
| `ArrayUtils.UsmMemory.CopyToHost` | numba_dppy/utils/array_utils.py:169-171 | the destination receives exactly the USM bytes and the USM bytes stay as they were |
| `ArrayUtils.SupportedNdarray` | numba_dppy/utils/array_utils.py:96-106 | a non-ndarray fails with NotNdarray before the dtype is looked at; an unsupported dtype fails with UnsupportedDtype; otherwise the array itself is passed on |
| `ArrayUtils.PackedShape` | numba_dppy/utils/array_utils.py:108-115 | the packed shape has the array's element count and is one-dimensional when the array is not C-contiguous |
| `ArrayUtils.CopyFromNumpyPlan` | numba_dppy/utils/array_utils.py:92-121 | failure order: not USM-backed, not an ndarray, unsupported dtype, byte-size mismatch; succeeds exactly when all four pass; on success `packed` holds exactly when the array is not C-contiguous |
| `ArrayUtils.CopyFromNumpyExceptionClasses` | numba_dppy/utils/array_utils.py:92-121 | the two type checks raise TypeError and every other failure of the copy-in raises ValueError |
| `ArrayUtils.Flatten` | numba_dppy/utils/array_utils.py:109-111 | `flatten(order="C")` gives a fresh C-contiguous one-dimensional array of the same dtype and element bytes |
| `ArrayUtils.CopyFromNumpyToUsmObj` | numba_dppy/utils/array_utils.py:65-127 | on failure it reports the plan's error and writes nothing; on success it returns (obj, packed_obj, packed), where packed_obj is a fresh flattened copy when packed and obj otherwise; the USM bytes equal obj's element bytes in C order and obj keeps its bytes |
| `ArrayUtils.CopyToNumpyPlan` | numba_dppy/utils/array_utils.py:145-170 | same three type and dtype checks, a size check against obj's own shape (no packing), then the C-contiguity needed by the byte view; succeeds exactly when all pass |
| `ArrayUtils.CopyToNumpySharesChecks` | numba_dppy/utils/array_utils.py:145-167 | any input refused by the copy-in's checks is refused by the copy-out with the same error |
| `ArrayUtils.CopyDirectionsAgreeOnContiguous` | numba_dppy/utils/array_utils.py:161-167 | for a C-contiguous array the copy-out accepts exactly the inputs the copy-in accepts |
| `ArrayUtils.CopyToNumpyFromUsmObj` | numba_dppy/utils/array_utils.py:130-171 | on failure it reports the plan's error and writes nothing; on success obj's bytes equal the USM bytes and the USM memory is unchanged |
| `ArrayUtils.CopyInThenOut` | numba_dppy/utils/array_utils.py:161-171 | copying an array in and then out to a C-contiguous array of the same dtype and shape reproduces its bytes; the round trip fails only when the copy-in's checks fail |
| `ArrayUtils.UsmKindOf` | numba_dppy/utils/array_utils.py:231-241 | exactly "shared", "device" and "host" select an allocation kind |
| `ArrayUtils.AsUsmBackedPlan` | numba_dppy/utils/array_utils.py:206-241 | queue None gives ValueError and a non-SyclQueue gives TypeError, both even for USM-backed objects; with a queue, an existing USM memory is reused; otherwise the checks are ndarray, dtype, then usm_type; a new allocation is of exactly the array's byte size on the given queue |
| `ArrayUtils.AsUsmBackedNeedsQueue` | numba_dppy/utils/array_utils.py:174-211 | with the default queue=None the call always raises ValueError |
| `ArrayUtils.FreshAllocationPassesCopyChecks` | numba_dppy/utils/array_utils.py:230-245 | the copy into a fresh allocation always passes the USM, type, dtype and size checks |
| `ArrayUtils.AsUsmBacked` | numba_dppy/utils/array_utils.py:174-247 | returns the plan's error, or the existing USM memory with nothing copied, or fresh memory of the chosen kind, queue and size; when `copy` is set the fresh memory holds the array's bytes |
| `DppyArrayType.NewDppyArray` | numba_dppy/dppy_array_type.py:12-16 | the constructor stores mutable as not readonly and the given address space, alignment, py_type and name |
| `DppyArrayType.KeyOf` | numba_dppy/dppy_array_type.py:32-34 | the key carries the address space |
| `DppyArrayType.IsPrecise` | numba_dppy/dppy_array_type.py:36-37 | an array type is precise exactly when its element type is |
| `DppyArrayType.Copy` | numba_dppy/dppy_array_type.py:18-30 | aligned is always inherited; without readonly the mutability is inherited; a tagged type stays tagged; py_type and name revert to defaults; with no arguments the key is unchanged |
| `DppyArrayType.CopyNoArgumentsIsEqual` | numba_dppy/dppy_array_type.py:18-34 | copy() has the source's key and differs from it only in py_type and name |
| `DppyArrayType.CopyOverridesOrInherits` | numba_dppy/dppy_array_type.py:18-28 | each key field of a copy is the override when given and the source's field otherwise |
| `DppyArrayType.CopyNdimOnly` | numba_dppy/dppy_array_type.py:18-30 | copy(ndim=n) changes the key in ndim only |
| `DppyArrayType.CopyKeepsAddrspaceTag` | numba_dppy/dppy_array_type.py:27-30 | no copy turns a tagged type back into an untagged one |
| `DppyArrayType.CopyOfCopy` | numba_dppy/dppy_array_type.py:18-30 | two copies equal one copy whose overrides are the later ones, then the earlier ones |
| `DppyArrayType.KeyEqualIff` | numba_dppy/dppy_array_type.py:32-34 | two keys are equal exactly when dtype, ndim, layout, mutable, aligned and addrspace all agree |
| `DppyArrayType.AddrspaceSeparatesTypes` | numba_dppy/dppy_array_type.py:32-34 | types differing only in address space have different keys |
| `DppyArrayType.CopyKeepsPrecision` | numba_dppy/dppy_array_type.py:36-37 | a copy that keeps the dtype keeps is_precise |
| `DppyArrayType.ArrayModelMembers` | numba_dppy/dppy_array_type.py:41-53 | seven members, in the order meminfo, parent, nitems, itemsize, data, shape, strides; data points into the type's address space; shape and strides are ndim-tuples of intp |
| `DppyArrayType.OnlyDataCarriesAddrspace` | numba_dppy/dppy_array_type.py:44-50 | retagging changes the data member and no other; the struct changes exactly when the address space does |
| `DppyArrayType.ModelIgnoresLayoutAndFlags` | numba_dppy/dppy_array_type.py:41-51 | the struct depends only on dtype, ndim and address space |
| `Descriptor.NestedContext.constructor` | numba_dppy/descriptor.py:28-30 | both override slots start as None |
| `Descriptor.NestedContext.Enter` | numba_dppy/descriptor.py:33-38 | entering saves the old pair and installs the given pair |
| `Descriptor.NestedContext.Exit` | numba_dppy/descriptor.py:39-40 | leaving puts the saved pair back |
| `Descriptor.WithNested` | numba_dppy/descriptor.py:32-40 | a with-block, with any nesting inside it, leaves the slots as it found them |
| `Descriptor.WithNestedAll` | numba_dppy/descriptor.py:34-40 | inner blocks run in sequence each return the slots to the enclosing block's pair |
| `Descriptor.Step` | numba_dppy/descriptor.py:33-40 | entering pushes the current pair and installs the new one; leaving pops the innermost saved pair and is possible only inside a block |
| `Descriptor.LeaveIgnoresFailure` | numba_dppy/descriptor.py:39-40 | leaving by exception restores exactly what leaving normally restores |
| `Descriptor.BlockRestores` | numba_dppy/descriptor.py:33-40 | a whole block, however nested and however it ends, restores the slots and the saved pairs |
| `Descriptor.AllBlocksRestore` | numba_dppy/descriptor.py:33-40 | a sequence of whole blocks restores the slots and the saved pairs |
| `Descriptor.InnerBlocksReinstateOuter` | numba_dppy/descriptor.py:34-40 | inside a block, after any number of inner blocks have been left, the slots hold that block's pair (last in, first out), not an older pair |
| `Descriptor.DppyCpuTarget.constructor` | numba_dppy/descriptor.py:42-44 | a target starts with both caches empty and uses the shared nesting object |
| `Descriptor.DppyCpuTarget.ToplevelTypingContext` | numba_dppy/descriptor.py:52-56 | built once as typing.Context() and cached; later reads return the cached value |
| `Descriptor.DppyCpuTarget.TypingContext` | numba_dppy/descriptor.py:70-80 | the nested typing slot when set, else the top-level typing context; the target slot plays no part |
| `Descriptor.DppyCpuTarget.ToplevelTargetContext` | numba_dppy/descriptor.py:46-50 | built once as DPPYCpuTargetContext of the typing context selected at that moment, then cached; with no nested typing context, building it also caches the top-level typing context it was built on |
| `Descriptor.DppyCpuTarget.TargetContext` | numba_dppy/descriptor.py:58-68 | the nested target slot when set, else the top-level target context, cached, with the typing cache it fills when it builds that context |
| `Descriptor.DppyCpuTarget.NestedContextEnter` | numba_dppy/descriptor.py:82-88 | enters a block of the one shared nesting object |
| `Descriptor.NestingIsShared` | numba_dppy/descriptor.py:44 | a block entered through one CPU target decides what every other CPU target answers, and leaving it restores the shared slots |
| `Descriptor.DppyTarget.constructor` | numba_dppy/descriptor.py:91-94 | a target starts with both caches empty |
| `Descriptor.DppyTarget.TypingContext` | numba_dppy/descriptor.py:101-118 | always the top-level DPPYTypingContext, built once |
| `Descriptor.DppyTarget.TargetContext` | numba_dppy/descriptor.py:96-111 | always the top-level DPPYTargetContext, built once, on this target's own top-level typing context; no nesting is consulted |

## Left out

- Kernel-argument marshaling and kernel launch (range checks, device calls): `numba_dppy/driver/__init__.py` only re-exports them, and their modules are not part of this model.
- `DPPYArrayModel.from_argument`: LLVM IR construction and a debug print; it is code generation, not statable logic.
- `global_compiler_lock` and all concurrency: locking is not modelled, and the model is sequential.
- `config.DEBUG` printing of the exceptions that `has_usm_memory` swallows.
- dpctl internals are abstract operations on byte arrays: `as_usm_memory` (the `usm` field of `PyObject`), the USM memory constructors, `copy_from_host` and `copy_to_host`. The contents of a fresh allocation are not specified.
- Element values: elements are opaque bytes, sized by itemsize; no floating point is involved. Physical strides are not modelled: an array's bytes are kept in logical C order.
- dtype byte order: dtypes are compared by kind only.
- `PyObject.base` set to `None` and no `base` attribute at all are the same case; they differ only in the debug print.
- `setup.py` (build and packaging) and `numba_dppy/dppy_offload_dispatcher.py` (dispatcher registration): no logic to model.
- numba's own `Array` base class: its name generation (`name` is `None` for "generated"), its layout validation and its type-equality machinery are not part of this model, and neither are the adjustments it makes at construction. A `Record` dtype that is not aligned clears `aligned`. A `NestedArray` dtype is folded into `ndim` and the dtype. Types are interned by key, so `t.copy()` with no arguments returns the cached instance, which keeps `t`'s own `py_type` and `name`. `CopyNoArgumentsIsEqual` states instead that the fresh value has `py_type` and `name` reset; it is equal to `t` by key only.
- `UsmMemory.constructor`: allocation is modelled as total, including a 0-byte request (an empty array). Whether dpctl accepts or refuses a zero-size allocation is not part of this model.
- `options = CPUTargetOptions` on both targets: a class attribute with no behaviour here.
