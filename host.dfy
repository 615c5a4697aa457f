/** The host library as this core sees it: each `ERR_*` / `CRYPTO_*` call is
    recorded, with its arguments, in `trace`; the library-id registry is a
    counter; the allocator may or may not grant a buffer. */
module HostModel {
  import opened Encoding
  import opened ErrorTypes

  class Host {
    /** The id `ERR_get_next_error_library` hands out next. */
    var nextLibrary: int
    /** Every host call made so far, in order. */
    var trace: seq<Event>

    constructor (firstLibrary: int)
      ensures nextLibrary == firstLibrary && trace == []
    {
      nextLibrary := firstLibrary;
      trace := [];
    }

    /** `init()`: make sure the host's error strings are set up. */
    method Init()
      modifies this
      ensures trace == old(trace) + [InitCall] && nextLibrary == old(nextLibrary)
    {
      trace := trace + [InitCall];
    }

    /** `ERR_get_next_error_library()`: a fresh library id from the counter. */
    method GetNextErrorLibrary() returns (lib: int)
      modifies this
      ensures lib == old(nextLibrary) && nextLibrary == old(nextLibrary) + 1
      ensures trace == old(trace) + [NextErrorLibraryCall(lib)]
    {
      lib := nextLibrary;
      nextLibrary := nextLibrary + 1;
      trace := trace + [NextErrorLibraryCall(lib)];
    }

    /** `ERR_load_strings(lib, table)`: the table as it is at the call. */
    method LoadStrings(lib: int, table: array<StringData>)
      modifies this
      ensures trace == old(trace) + [LoadStringsCall(lib, table[..])] && nextLibrary == old(nextLibrary)
    {
      trace := trace + [LoadStringsCall(lib, table[..])];
    }

    /** Legacy `ERR_put_error(lib, func, reason, file, line)`. */
    method PutError(lib: int, func: int, reason: int, file: seq<char>, line: int)
      modifies this
      ensures trace == old(trace) + [PutErrorCall(lib, func, reason, file, line)]
      ensures nextLibrary == old(nextLibrary)
    {
      trace := trace + [PutErrorCall(lib, func, reason, file, line)];
    }

    /** `ERR_new()`: start a new record. */
    method New()
      modifies this
      ensures trace == old(trace) + [NewCall] && nextLibrary == old(nextLibrary)
    {
      trace := trace + [NewCall];
    }

    /** `ERR_set_debug(file, line, func)`. */
    method SetDebug(file: seq<char>, line: int, func: seq<char>)
      modifies this
      ensures trace == old(trace) + [SetDebugCall(file, line, func)] && nextLibrary == old(nextLibrary)
    {
      trace := trace + [SetDebugCall(file, line, func)];
    }

    /** `ERR_set_error(lib, reason, null)`. */
    method SetError(lib: int, reason: int)
      modifies this
      ensures trace == old(trace) + [SetErrorCall(lib, reason)] && nextLibrary == old(nextLibrary)
    {
      trace := trace + [SetErrorCall(lib, reason)];
    }

    /** `CRYPTO_malloc(size, file, line)`: either null or a fresh buffer of
        `size` bytes; which one is the allocator's choice. */
    method Malloc(size: nat, file: seq<char>, line: int) returns (buf: array?<byte>)
      modifies this
      ensures trace == old(trace) + [MallocCall(size, file, line)] && nextLibrary == old(nextLibrary)
      ensures buf != null ==> fresh(buf) && buf.Length == size
    {
      trace := trace + [MallocCall(size, file, line)];
      var granted: bool :| true;
      if granted {
        buf := new byte[size];
      } else {
        buf := null;
      }
    }

    /** `ERR_set_error_data(data, flags)`: the bytes the pointer designates. */
    method SetErrorData(data: seq<byte>, flags: bv32)
      modifies this
      ensures trace == old(trace) + [SetErrorDataCall(data, flags)] && nextLibrary == old(nextLibrary)
    {
      trace := trace + [SetErrorDataCall(data, flags)];
    }
  }
}
