/**
 * `buffer_to_array` of src/arraybuffer.ts (and module 210 of the built bundle): the
 * dtype tag sent by the host picks the JavaScript typed-array constructor that is
 * laid over the received bytes.
 */
module ArrayBuffer {

  import opened Wrappers

  type Byte = bv8

  /** The eight typed-array kinds the front end knows. */
  datatype ElementType = Int8 | Uint8 | Int16 | Uint16 | Int32 | Uint32 | Float32 | Float64

  /** The dtype tag the host writes for each kind (numpy's dtype name). */
  function TagName(t: ElementType): string
  {
    match t
    case Int8 => "int8"
    case Uint8 => "uint8"
    case Int16 => "int16"
    case Uint16 => "uint16"
    case Int32 => "int32"
    case Uint32 => "uint32"
    case Float32 => "float32"
    case Float64 => "float64"
  }

  /** Bytes per element (the typed array's BYTES_PER_ELEMENT). */
  function Width(t: ElementType): nat
  {
    match t
    case Int8 => 1
    case Uint8 => 1
    case Int16 => 2
    case Uint16 => 2
    case Int32 => 4
    case Uint32 => 4
    case Float32 => 4
    case Float64 => 8
  }

  /** A typed array laid over a byte buffer: it shares the bytes, it does not copy them. */
  datatype View = View(elem: ElementType, bytes: seq<Byte>)
  {
    /** The typed array's `length`. */
    function Length(): nat
    {
      |bytes| / Width(elem)
    }
  }

  /** Why no view was made: the thrown 'Unknown dtype ...' string, or the constructor's RangeError. */
  datatype Failure = UnknownDtype(message: string) | RangeError

  /**
   * `new XArray(buffer)`: a typed array over the whole buffer, which the constructor
   * refuses with a RangeError when the byte length is not a multiple of the width.
   */
  function NewView(t: ElementType, bytes: seq<Byte>): Result<View, Failure>
  {
    if |bytes| % Width(t) == 0 then Success(View(t, bytes)) else Failure(RangeError)
  }

  /** `buffer_to_array(dtype, buffer)`. */
  function BufferToArray(dtype: string, bytes: seq<Byte>): (r: Result<View, Failure>)
    ensures forall t :: dtype == TagName(t) ==>
      (r.Success? <==> |bytes| % Width(t) == 0) &&
      (r.Success? ==> r.value == View(t, bytes)) &&
      (r.Failure? ==> r.error == RangeError)
    ensures (forall t :: dtype != TagName(t)) ==> r == Failure(UnknownDtype("Unknown dtype " + dtype))
    ensures r.Success? ==> r.value.Length() * Width(r.value.elem) == |bytes|
  {
    match dtype
    case "int8" =>
      assert TagName(Int8) == dtype;
      NewView(Int8, bytes)
    case "uint8" =>
      assert TagName(Uint8) == dtype;
      NewView(Uint8, bytes)
    case "int16" =>
      assert TagName(Int16) == dtype;
      NewView(Int16, bytes)
    case "uint16" =>
      assert TagName(Uint16) == dtype;
      NewView(Uint16, bytes)
    case "int32" =>
      assert TagName(Int32) == dtype;
      NewView(Int32, bytes)
    case "uint32" =>
      assert TagName(Uint32) == dtype;
      NewView(Uint32, bytes)
    case "float32" =>
      assert TagName(Float32) == dtype;
      NewView(Float32, bytes)
    case "float64" =>
      assert TagName(Float64) == dtype;
      NewView(Float64, bytes)
    case _ => Failure(UnknownDtype("Unknown dtype " + dtype))
  }

  /** Distinct kinds have distinct tags, so the dispatch is unambiguous. */
  lemma TagNameInjective(s: ElementType, t: ElementType)
    ensures TagName(s) == TagName(t) ==> s == t
  {
  }

  /** Every kind's own tag decodes back to that kind over any whole number of elements. */
  lemma BufferToArrayOfTag(t: ElementType, bytes: seq<Byte>)
    requires |bytes| % Width(t) == 0
    ensures BufferToArray(TagName(t), bytes) == Success(View(t, bytes))
    ensures BufferToArray(TagName(t), bytes).value.Length() == |bytes| / Width(t)
  {
  }

  /** Single-byte kinds never fail on a known tag. */
  lemma ByteViewsNeverFail(bytes: seq<Byte>)
    ensures BufferToArray("int8", bytes).Success?
    ensures BufferToArray("uint8", bytes).Success?
  {
  }
}
