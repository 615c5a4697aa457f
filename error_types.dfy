/** Values shared by the declaration macros, the string table, the registry
    and the push path of the custom error-library support. */
module ErrorTypes {
  import opened Encoding

  datatype Option<+T> = None | Some(value: T)

  /** The two generations of the host's error interface, fixed at build time:
      `Ossl300` is the `ossl300` configuration, `Legacy` everything older. */
  datatype Abi = Ossl300 | Legacy

  /** Rust's `u32`, the type of a source line number. */
  newtype u32 = x: int | 0 <= x < 0x1_0000_0000

  /** The host's packing rule `ERR_PACK(lib, func, reason)`. Its bit layout is
      not part of this model, so every member that needs it takes it as a
      parameter and nothing is assumed about it unless a lemma says so. */
  type Packer = (int, int, int) -> int

  /** `concat!(s, "\0")`: a literal followed by its terminating nul. */
  function CStr(s: seq<char>): seq<char>
  {
    s + ['\0']
  }

  /** What a function token holds: a sequential number under the legacy ABI,
      a pointer to the function's own nul-terminated name under `ossl300`. */
  datatype FunctionInner = FuncNum(num: int) | FuncPtr(str: seq<char>)

  /** A token has the representation its ABI gives `FunctionInner`. */
  predicate FitsAbi(abi: Abi, f: FunctionInner)
  {
    match abi
    case Legacy => f.FuncNum?
    case Ossl300 => f.FuncPtr?
  }

  /** `Function<T>`; `tag` names the marker type `T` of its library. */
  datatype Function = Function(raw: FunctionInner, tag: seq<char>)

  /** `Reason<T>`; `tag` names the marker type `T` of its library. */
  datatype Reason = Reason(raw: int, tag: seq<char>)

  /** One `NAME("display string");` line of a `functions` or `reasons` block. */
  datatype Item = Item(name: seq<char>, display: seq<char>)

  /** One `library Name("display") { functions {..} reasons {..} }` block. */
  datatype LibraryDecl = LibraryDecl(
    name: seq<char>,
    display: seq<char>,
    functions: seq<Item>,
    reasons: seq<Item>)

  /** `ERR_STRING_DATA`: a packed code and a string pointer (`None` is null). */
  datatype StringData = StringData(error: int, str: Option<seq<char>>)

  /** The optional message, `Cow<'static, str>`: a borrowed static string or an
      owned formatted one. Both already end with the nul the macro appends.
      The host receives the text's UTF-8 bytes (`Encoding.Utf8`). */
  datatype Message = Borrowed(text: seq<char>) | Owned(text: seq<char>)

  /** Flags of `ERR_set_error_data`, with the values of the host's err.h. */
  const ErrTxtMalloced: bv32 := 0x01
  const ErrTxtString: bv32 := 0x02

  /** One call into the host, with the arguments it received. */
  datatype Event =
    | InitCall
    | NextErrorLibraryCall(lib: int)
    | LoadStringsCall(lib: int, table: seq<StringData>)
    | PutErrorCall(lib: int, func: int, reason: int, file: seq<char>, line: int)
    | NewCall
    | SetDebugCall(file: seq<char>, line: int, funcName: seq<char>)
    | SetErrorCall(lib: int, reason: int)
    | MallocCall(size: nat, file: seq<char>, line: int)
    | SetErrorDataCall(data: seq<byte>, flags: bv32)
}
