/**
 * `array_to_buffer` of ipywebgl/arraybuffer.py: how the Python host turns a numpy
 * array into the metadata and the bytes it sends, narrowing the two dtypes the
 * browser has no typed array for.
 */
module HostArrayBuffer {

  /** The numpy dtypes a host array can have. */
  datatype DType = Bool | Int8 | Int16 | Int32 | Int64 | UInt8 | UInt16 | UInt32 | UInt64 | Float16 | Float32 | Float64

  /** `str(dtype)`. */
  function DTypeName(d: DType): string
  {
    match d
    case Bool => "bool"
    case Int8 => "int8"
    case Int16 => "int16"
    case Int32 => "int32"
    case Int64 => "int64"
    case UInt8 => "uint8"
    case UInt16 => "uint16"
    case UInt32 => "uint32"
    case UInt64 => "uint64"
    case Float16 => "float16"
    case Float32 => "float32"
    case Float64 => "float64"
  }

  /** One element: integers (and booleans as 0/1) exactly, floats as reals without rounding. */
  datatype Scalar = I(i: int) | F(f: real)

  /**
   * A numpy array: its dtype, its shape, and its elements listed in row-major (C)
   * order, which is the order `flatten()` produces whatever the memory layout;
   * `contiguous` is the C_CONTIGUOUS flag of that layout.
   */
  datatype NdArray = NdArray(dtype: DType, shape: seq<nat>, elems: seq<Scalar>, contiguous: bool)

  /** The number of elements a shape holds. */
  function Product(shape: seq<nat>): nat
  {
    if |shape| == 0 then 1 else shape[0] * Product(shape[1..])
  }

  /** A well-formed array holds exactly as many elements as its shape says. */
  predicate WellFormed(a: NdArray)
  {
    |a.elems| == Product(a.shape)
  }

  /** The metadata dict `{"shape": ..., "dtype": ...}` sent with the bytes. */
  datatype Meta = Meta(shape: seq<nat>, dtype: string)

  /** The memoryview payload: the flattened elements of the (converted) array. */
  datatype Payload = Payload(dtype: DType, elems: seq<Scalar>)

  /** A C cast of an integer to int32: two's-complement wrap-around into [-2^31, 2^31). */
  function WrapInt32(x: int): (r: int)
    ensures -0x8000_0000 <= r < 0x8000_0000
    ensures (r - x) % 0x1_0000_0000 == 0
  {
    (x + 0x8000_0000) % 0x1_0000_0000 - 0x8000_0000
  }

  /** `a.astype(np.int32)` from int64: each element wrapped. */
  function AsInt32(a: NdArray): (r: NdArray)
    ensures r.dtype == Int32 && r.shape == a.shape && r.contiguous
    ensures |r.elems| == |a.elems|
    ensures forall i | 0 <= i < |a.elems| :: a.elems[i].I? ==> r.elems[i] == I(WrapInt32(a.elems[i].i))
  {
    NdArray(Int32, a.shape, seq(|a.elems|, i requires 0 <= i < |a.elems| =>
      if a.elems[i].I? then I(WrapInt32(a.elems[i].i)) else a.elems[i]), true)
  }

  /** `a.astype(np.float32)` from float16: every half-precision value is a single-precision value. */
  function AsFloat32(a: NdArray): (r: NdArray)
    ensures r.dtype == Float32 && r.shape == a.shape && r.elems == a.elems && r.contiguous
  {
    NdArray(Float32, a.shape, a.elems, true)
  }

  /** `np.ascontiguousarray(a)`: the same elements in a C-contiguous layout. */
  function AsContiguous(a: NdArray): (r: NdArray)
    ensures r.dtype == a.dtype && r.shape == a.shape && r.elems == a.elems && r.contiguous
  {
    a.(contiguous := true)
  }

  /** `array_to_buffer(ar)`. */
  function ArrayToBuffer(ar: NdArray): (r: (Meta, Payload))
    ensures r.0.shape == ar.shape
    ensures ar.dtype == Int64 ==> r.0.dtype == "int32" && r.1.dtype == Int32
    ensures ar.dtype == Float16 ==> r.0.dtype == "float32" && r.1.dtype == Float32 && r.1.elems == ar.elems
    ensures ar.dtype != Int64 && ar.dtype != Float16 ==>
      r.0.dtype == DTypeName(ar.dtype) && r.1.dtype == ar.dtype && r.1.elems == ar.elems
    ensures r.0.dtype == DTypeName(r.1.dtype)
    ensures WellFormed(ar) ==> |r.1.elems| == Product(ar.shape)
  {
    var a1 := if ar.dtype == Int64 then AsInt32(ar) else ar;
    var a2 := if a1.dtype == Float16 then AsFloat32(a1) else a1;
    var a3 := if !a2.contiguous then AsContiguous(a2) else a2;
    (Meta(a3.shape, DTypeName(a3.dtype)), Payload(a3.dtype, a3.elems))
  }

  /** The payload never carries a dtype the browser has no typed array for. */
  lemma PayloadHasBrowserType(ar: NdArray)
    ensures ArrayToBuffer(ar).1.dtype != Int64 && ArrayToBuffer(ar).1.dtype != Float16
  {
  }

  /** int64 elements that fit in 32 bits reach the browser unchanged; the rest wrap around. */
  lemma Int64NarrowingKeepsSmallValues(ar: NdArray, i: nat)
    requires ar.dtype == Int64 && i < |ar.elems| && ar.elems[i].I?
    ensures ArrayToBuffer(ar).1.elems[i] == I(WrapInt32(ar.elems[i].i))
    ensures -0x8000_0000 <= ar.elems[i].i < 0x8000_0000 ==> ArrayToBuffer(ar).1.elems[i] == ar.elems[i]
  {
    var x := ar.elems[i].i;
    if -0x8000_0000 <= x < 0x8000_0000 {
      assert (x + 0x8000_0000) % 0x1_0000_0000 == x + 0x8000_0000;
    }
  }

  /** Wrap-around is idempotent: narrowing an already narrowed value changes nothing. */
  lemma WrapInt32Idempotent(x: int)
    ensures WrapInt32(WrapInt32(x)) == WrapInt32(x)
  {
    var y := WrapInt32(x);
    assert (y + 0x8000_0000) % 0x1_0000_0000 == y + 0x8000_0000;
  }
}
