/** The raw-JSON column type of the SDK models (`model.JsonRaw`, a `json.RawMessage`): how it
    is written to and read from the database and how it is encoded and decoded as JSON. The
    bytes are kept as text; decoding into a map or a slice is `encoding/json`, which is a
    parameter here. */
module JsonRaw {
  import opened Wrappers
  import opened Val

  /** The number of bytes held; nil and the empty slice both hold none. */
  function Len(j: ByteSlice): nat {
    if j.NilSlice? then 0 else |j.data|
  }

  /** `Value`: what is stored in the database column. An empty value and the JSON `null`
      are stored as SQL NULL; anything else as its bytes. */
  function Value(j: ByteSlice): (r: Any)
    ensures r.Nil? <==> Len(j) == 0 || j == Slice("null")
    ensures !r.Nil? ==> r == Bytes(j.data)
  {
    if Len(j) == 0 || j.data == "null" then Nil else Bytes(j.data)
  }

  /** `MarshalJSON`: an empty value encodes as `null`, anything else as its own bytes. */
  function MarshalJSON(j: ByteSlice): (r: string)
    ensures Len(j) == 0 ==> r == "null"
    ensures Len(j) > 0 ==> r == j.data
  {
    if Len(j) == 0 then "null" else j.data
  }

  /** A value goes to SQL NULL exactly when it encodes as JSON `null`. */
  lemma NullAgrees(j: ByteSlice)
    ensures Value(j).Nil? <==> MarshalJSON(j) == "null"
  {
  }

  /** What `Scan` makes of a database value: NULL clears, bytes are copied, and anything
      else is refused. */
  function Scanned(value: Any): (r: Result<ByteSlice>)
    ensures value.Nil? ==> r == Ok(NilSlice)
    ensures value.Bytes? ==> r == Ok(Slice(value.b))
    ensures !value.Nil? && !value.Bytes? ==> r == Err("Scan source is not []byte")
  {
    match value
    case Nil => Ok(NilSlice)
    case Bytes(b) => Ok(Slice(b))
    case _ => Err("Scan source is not []byte")
  }

  /** Reading back a stored value gives the value again, except that an empty value and
      `null` come back as nil. */
  lemma StoreThenScan(j: ByteSlice)
    ensures Scanned(Value(j)) == Ok(if Len(j) == 0 || j == Slice("null") then NilSlice else j)
  {
  }

  /** Storing what was read gives the database value back, except that empty bytes and the
      bytes `null` are stored as NULL. */
  lemma ScanThenStore(value: Any)
    requires value.Nil? || value.Bytes?
    ensures Value(Scanned(value).value) == (if value.Nil? || value.b == "" || value.b == "null" then Nil else value)
  {
  }

  /** `ToMap` / `ToArray`: an empty value decodes to nil without an error; anything else is
      handed to the decoder. */
  function Decoded<T>(j: ByteSlice, decode: string -> Result<Option<T>>): (r: Result<Option<T>>)
    ensures Len(j) == 0 ==> r == Ok(None)
    ensures Len(j) > 0 ==> r == decode(j.data)
  {
    if Len(j) == 0 then Ok(None) else decode(j.data)
  }

  /** `ToMap`. */
  function ToMap(j: ByteSlice, decode: string -> Result<Option<map<string, Any>>>): (r: Result<Option<map<string, Any>>>)
    ensures Len(j) == 0 ==> r == Ok(None)
    ensures Len(j) > 0 ==> r == decode(j.data)
  {
    Decoded(j, decode)
  }

  /** `ToArray`. */
  function ToArray(j: ByteSlice, decode: string -> Result<Option<seq<Any>>>): (r: Result<Option<seq<Any>>>)
    ensures Len(j) == 0 ==> r == Ok(None)
    ensures Len(j) > 0 ==> r == decode(j.data)
  {
    Decoded(j, decode)
  }

  /** A `JsonRaw` variable, written through its pointer by `Scan` and `UnmarshalJSON`. */
  class JsonRawCell {
    var raw: ByteSlice

    constructor (j: ByteSlice)
      ensures raw == j
    {
      raw := j;
    }

    /** `Scan`: NULL clears the value, bytes are copied in, anything else is an error
        that leaves the value alone. */
    method Scan(value: Any) returns (r: Outcome)
      modifies this
      ensures Scanned(value).Ok? ==> r == Pass && raw == Scanned(value).value
      ensures Scanned(value).Err? ==> r == Fail(Scanned(value).msg) && raw == old(raw)
    {
      if value.Nil? {
        raw := NilSlice;
        return Pass;
      }
      if !value.Bytes? {
        return Fail("Scan source is not []byte");
      }
      raw := Slice(value.b);
      return Pass;
    }
  }

  /** `UnmarshalJSON`: a nil pointer is an error; otherwise the input is copied in, so the
      value is non-nil even for empty input. */
  method UnmarshalJSON(j: JsonRawCell?, data: string) returns (r: Outcome)
    modifies j
    ensures j == null ==> r == Fail("JsonRaw: UnmarshalJSON on nil pointer")
    ensures j != null ==> r == Pass && j.raw == Slice(data)
  {
    if j == null {
      return Fail("JsonRaw: UnmarshalJSON on nil pointer");
    }
    j.raw := Slice(data);
    return Pass;
  }

  /** Decoding a non-empty JSON text and encoding it again gives the same text; empty
      input encodes as `null`. */
  lemma UnmarshalThenMarshal(data: string)
    ensures MarshalJSON(Slice(data)) == if data == "" then "null" else data
  {
  }

  /** Encoding a value and decoding the text again gives the value back, except that an
      empty value comes back as the bytes `null`. */
  lemma MarshalThenUnmarshal(j: ByteSlice)
    ensures Slice(MarshalJSON(j)) == if Len(j) == 0 then Slice("null") else j
  {
  }
}
