/**
 * Unity.Collections.NativeArray as a handle.  A `NativeArray<T>` is a struct
 * holding a pointer to unmanaged memory: copying it copies the pointer, so
 * two copies share one buffer, and `IsCreated` is a property of each copy
 * (the pointer is non-null).  A handle is modelled as a value around a
 * possibly-null Dafny array.  Disposing one copy frees the memory while the
 * other copies still report `IsCreated`: the classes that do this keep the
 * freed memory as a ghost set, which `Memory` below helps to state.
 */
module Native {

  datatype NativeArray<T> = NativeArray(Buffer: array?<T>) {

    predicate IsCreated() { Buffer != null }

    /** `Length`: the buffer's length, 0 for a handle that was never created or was disposed. */
    function Length(): nat { if Buffer == null then 0 else Buffer.Length }
  }

  /** A `JobHandle`: the model runs every job to completion, so a handle carries nothing. */
  datatype JobHandle = JobHandle

  /** `default(NativeArray<T>)`. */
  function Default<T>(): (a: NativeArray<T>)
    ensures !a.IsCreated() && a.Length() == 0
  {
    NativeArray(null)
  }

  /**
   * `new NativeArray<T>(length, allocator)`: a fresh buffer whose memory is
   * cleared, so every element is `default(T)`, passed in as `zero`.
   */
  method Allocate<T>(length: nat, zero: T) returns (a: NativeArray<T>)
    ensures a.IsCreated() && fresh(a.Buffer) && a.Length() == length
    ensures a.Buffer[..] == seq(length, _ => zero)
  {
    var buffer := new T[length](_ => zero);
    a := NativeArray(buffer);
  }

  /**
   * `Dispose()` on a handle: the handle becomes uncreated.  Disposing a
   * handle that is not created throws; `ok` is false exactly then.
   */
  function Dispose<T>(a: NativeArray<T>): (r: (NativeArray<T>, bool))
    ensures !r.0.IsCreated()
    ensures r.1 <==> a.IsCreated()
  {
    (Default(), a.IsCreated())
  }

  /** The memory behind the created handles among `handles`: what disposing each of them frees. */
  ghost function Memory<T>(handles: seq<NativeArray<T>>): (m: set<object>)
    ensures forall k :: 0 <= k < |handles| && handles[k].IsCreated() ==> handles[k].Buffer in m
    ensures forall o :: o in m ==> exists k :: 0 <= k < |handles| && handles[k].IsCreated() && handles[k].Buffer == o
  {
    set k | 0 <= k < |handles| && handles[k].IsCreated() :: handles[k].Buffer as object
  }

  /** The `DisposeIfCreated()` extension: dispose only a created handle, so it never throws. */
  function DisposeIfCreated<T>(a: NativeArray<T>): (r: NativeArray<T>)
    ensures !r.IsCreated()
    ensures !a.IsCreated() ==> r == a
  {
    if a.IsCreated() then Dispose(a).0 else a
  }
}
