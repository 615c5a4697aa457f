# gmssl-errors: custom error libraries, in Dafny

This project models the `gmssl-errors` crate. The crate lets a Rust program
declare its own error "library" in the OpenSSL/GmSSL error system and push
errors against it. The model covers three parts of `gmssl-errors/src/lib.rs`:

- **Declaration (`gmssl_errors!`).** A library declaration names functions and
  reasons. Reasons are numbered 1..M in declaration order. Under the legacy
  ABI, functions are numbered 1..N the same way. Under the `ossl300` ABI, a
  function's token is its own nul-terminated name. The declaration also
  builds the static `STRINGS` table: the library name, the function names
  (legacy only), the reason names, then a `(0, null)` sentinel
  (`declaration.dfy`, `string_table.dfy`).
- **Registration (`Library::id`).** The first call initialises the host,
  takes the next library id from the host's counter, patches entry 0 of the
  table with `ERR_PACK(lib, 0, 0)`, and loads the table. Every later call
  returns the cached id and makes no host call. `Registry.ErrorLibrary`
  holds the table as an `array` and has `libNum` and `once` fields
  (`registry.dfy`).
- **Push (`__put_error`, `put_error_inner`, `put_error!`).** A push first
  sends the base record. The legacy ABI uses one `ERR_put_error`. The
  `ossl300` ABI uses `ERR_new`, then `ERR_set_debug`, then `ERR_set_error`.
  The optional message is then attached in one of four ways:
  - no message: nothing is attached;
  - a borrowed literal: attached with `ERR_TXT_STRING` and no allocation;
  - an owned formatted string: copied into a `CRYPTO_malloc` buffer of its
    length in bytes and attached with `ERR_TXT_MALLOCED | ERR_TXT_STRING`;
  - an owned string whose allocation returns null: silently dropped.

  See `put_error.dfy`.

The host library is `HostModel.Host` (`host.dfy`). It keeps the id counter
behind `ERR_get_next_error_library`. It appends every `ERR_*` and
`CRYPTO_malloc` call, with its arguments, to a `trace`. Its allocator returns
either null or a fresh buffer; which one is not determined. `ERR_PACK` is
the parameter `pack: Packer`, whose layout is never interpreted except by
the two witness layouts in `StringTable.ErrPackLayouts`.
`example.dfy` replays the crate's documentation example (`MyLib`).

A Rust `str` is UTF-8, and `s.len()` counts bytes, not characters. The
message that reaches the host is therefore the UTF-8 encoding of its text,
`Encoding.Utf8` (`encoding.dfy`), as a sequence of `byte`s.

The two ABI generations are the datatype `Abi = Ossl300 | Legacy`. Every
member that depends on the ABI takes it as a parameter.

Notes on the source:
- The allocation for an owned message is attributed to the crate's own
  `file!()`/`line!()` (`gmssl-errors/src/lib.rs:179-180`), not to the call
  site that pushes the error. The model has constants `AllocFile` and
  `AllocLine`.
- A borrowed message is attached with the flags `0 | ERR_TXT_STRING`.
- A library may declare no reasons at all. Under `ossl300`, or when no
  functions are declared either, its table is then just the library entry
  and the sentinel; under the legacy ABI the function entries stay
  (`StringTable.TableLength`).

## Model

| member | source | states |
|---|---|---|
| Declaration.Count | gmssl-errors/src/lib.rs:310-313 | `@count` yields exactly the number of identifiers it is given |
| Declaration.FuncValue | gmssl-errors/src/lib.rs:346-348 | `@func_value n, s` fits its ABI: under the legacy ABI (line 385) it is the number `n`; under `ossl300` it is the display string followed by exactly one nul |
| Declaration.FuncConsts | gmssl-errors/src/lib.rs:296-303 | the recursive expansion gives the i-th declared function the value `@func_value(n + i, display_i)`, tagged with its library, one constant per declaration |
| Declaration.ReasonConsts | gmssl-errors/src/lib.rs:304-309 | the recursive expansion gives the i-th declared reason the code `n + i`, tagged with its library |
| Declaration.ReasonNumbering | gmssl-errors/src/lib.rs:293-309 | reason codes start at 1, are never 0, strictly increase in declaration order, and together are exactly 1..M |
| Declaration.FunctionNumbering | gmssl-errors/src/lib.rs:292-303 | each token has its ABI's representation; under the legacy ABI, function codes are 1..N in order, with no 0 and no gap; under `ossl300`, each token is the function's own nul-terminated display string |
| StringTable.Strings | gmssl-errors/src/lib.rs:321-383 | `STRINGS` has the length its array type declares; entry 0 is the library's nul-terminated name with code 0; every entry but the last has a string, and the last is the `(0, null)` terminator |
| StringTable.TableLength | gmssl-errors/src/lib.rs:326-362 | the initializer has the length the array type declares: 2 + #reasons (`ossl300`) or 2 + #functions + #reasons (legacy); an empty declaration yields exactly [library entry, sentinel] |
| StringTable.TableShape | gmssl-errors/src/lib.rs:326-383 | entry 0 is the library name with code 0; under the legacy ABI it is followed by `ERR_PACK(0, i+1, 0)` with the function strings in order; then come `ERR_PACK(0, 0, j+1)` with the reason strings in order; the last entry is `(0, null)` |
| StringTable.RegistrationPatch | gmssl-errors/src/lib.rs:282 | the registration patch sets entry 0's code to `ERR_PACK(lib, 0, 0)`, keeps its string, and leaves every other entry unchanged |
| StringTable.SentinelTerminates | gmssl-errors/src/lib.rs:279-283 | before and after the patch, only the sentinel has a null string; before the patch entry 0 has code 0; after it, if `pack` is non-zero on non-zero parts within its fields, the id is in 1..255 and the declaration's codes fit the fields, only the sentinel has code 0 |
| StringTable.ErrPackLayouts | gmssl-errors/src/lib.rs:282 | the `ERR_PACK` layouts of the legacy and `ossl300` `err.h` (library in 8 bits; function and reason in 12 bits each, or reason in 23 bits) meet the hypothesis of `SentinelTerminates`; outside the fields they do not: library 256 packs to 0 |
| Registry.ErrorLibrary.constructor | gmssl-errors/src/lib.rs:270-276 | before any call, `LIB_NUM` is 0, the once-guard has not run, and `STRINGS` holds the declared table |
| Registry.ErrorLibrary.Id | gmssl-errors/src/lib.rs:268-288 | the first call makes the calls init, next-library-id and load-strings, in that order; it returns the counter's value, advances the counter once, and loads the table as patched with that id; every later call returns the cached id, with no host call and no change to the table |
| PutError.AsCInt | gmssl-errors/src/lib.rs:157-170 | `line as c_int` gives a value in the 32-bit signed range that is congruent to the line modulo 2^32, and equal to it below 2^31 |
| PutError.BaseEvents | gmssl-errors/src/lib.rs:154-172 | the base record is one call (legacy) or three (`ossl300`), none an allocation or a data call; the last carries the library id and the reason; each call that carries the file carries the line as `c_int` |
| PutError.MessageEvents | gmssl-errors/src/lib.rs:174-193 | only an owned message allocates: once, first, exactly its UTF-8 byte length; data is attached last, is the message's bytes, and is attached exactly when the message is borrowed or the allocation was granted |
| PutError.CopyNonoverlapping | gmssl-errors/src/lib.rs:185 | after the copy, the buffer holds exactly the message's bytes |
| PutError.BaseRecordFirst | gmssl-errors/src/lib.rs:154-172 | whatever the message and the allocator do, the base record is pushed first, against the given library id: one `ERR_put_error` (legacy), or `ERR_new`, `ERR_set_debug`, `ERR_set_error` in that order (`ossl300`); every later call is an allocation or a data call |
| PutError.MessageAttachment | gmssl-errors/src/lib.rs:174-193 | no message: no allocation and no data; borrowed: no allocation, data = the string's UTF-8 bytes with `ERR_TXT_STRING`; owned: exactly one allocation of `s.len()` bytes (the UTF-8 length), and those bytes with the flags `ERR_TXT_MALLOCED` and `ERR_TXT_STRING` only if the allocation was granted |
| PutError.DataFlags | gmssl-errors/src/lib.rs:174-193 | every attached message is exactly the caller's string in UTF-8, carries `ERR_TXT_STRING`, and carries `ERR_TXT_MALLOCED` (host frees it) exactly when it is an owned, allocated copy |
| PutError.Classify | gmssl-errors/src/lib.rs:201-239 | `put_error!` passes no message for the two-argument form; otherwise the message is the text followed by a nul, borrowed for the three-argument form (a bare literal) and owned for the fourth form (a message followed by a comma and zero or more arguments) |
| PutError.MacroMessage | gmssl-errors/src/lib.rs:213-239 | through `put_error!`: a literal message is attached as its UTF-8 bytes and a trailing 0, with no allocation; a formatted one allocates once, its byte length plus 1, and attaches exactly those bytes when granted |
| PutError.PutErrorInner | gmssl-errors/src/lib.rs:146-194 | the host trace grows by exactly the base-record calls and then the message calls, for the allocator's answer, with an owned message measured and copied as its UTF-8 bytes; the library counter is untouched |
| PutError.PutError | gmssl-errors/src/lib.rs:134-144 | `__put_error` resolves the library id with `Library::id` (registering on first use, which advances the host's counter by one) and pushes against that id; the trace is the registration calls (first use only) followed by the push calls |
| PutError.PutErrorMacro | gmssl-errors/src/lib.rs:201-239 | `put_error!` passes the call site's nul-terminated `file!()` and `line!()` and the classified message to `__put_error`; the counter advances on first use only |
| Encoding.Utf8Char | gmssl-errors/src/lib.rs:178 | a character's bytes, as `s.len()` counts them: the shortest UTF-8 form (1 to 4 bytes by code point range), a lead byte announcing the length, continuation bytes `10xxxxxx`, decoding back to the character |
| Encoding.Utf8 | gmssl-errors/src/lib.rs:185 | the bytes `s.as_ptr()` designates: each character's encoding in order, at least one and at most four bytes per character |
| Encoding.NulTerminated | gmssl-errors/src/lib.rs:222-235 | appending the nul character appends the single byte 0 |
| Encoding.AsciiUtf8 | gmssl-errors/src/lib.rs:178 | an ASCII string has one byte per character, with the same values |
| MyLibExample.MyLibConstants | gmssl-errors/src/lib.rs:20-31 | in the documentation example, `FIND_PRIVATE_KEY` is 1 (legacy) or its own nul-terminated name (`ossl300`), `IO_ERROR` is 1 and `BAD_PASSWORD` is 2 |
| MyLibExample.MyLibDeclaration | gmssl-errors/src/lib.rs:20-31 | the example's `STRINGS` table, entry by entry, under both ABIs |
| MyLibExample.AccentedMessage | gmssl-errors/src/lib.rs:177-185 | a formatted "é" allocates 3 bytes (two for the letter, one for the nul) and attaches the bytes 0xC3, 0xA9, 0 |
| MyLibExample.TwoPushes | gmssl-errors/src/lib.rs:33-45 | two pushes against `MyLib` from fresh statics register it once, with the host's first id; both records carry that id, function 1 and reasons 2 then 1; the only allocation is the formatted text's bytes plus the nul |
| MyLibExample.MyLibPushes | gmssl-errors/src/lib.rs:33-45 | two pushes against `MyLib` register it once, with the host's first id; both records carry that id, function 1 and reasons 2 then 1; the only allocation is 14 bytes for "tried 2 times" plus its nul |

## Left out

- The host library itself is left out: the error stack's storage, retrieval
  and per-thread discipline, and the lookup of display strings. Its calls
  appear only as trace events. So the round trip from pushing a record to
  reading it back with its strings is not modelled.
- What `ERR_load_strings` does with the table it receives (for example,
  adding the library id to each code) is host behaviour and is not modelled.
  The trace records the table as it was passed.
- The bit layout of `ERR_PACK` and the values of the flags come from
  `gmssl-sys`, which is not part of this model. `pack` is a parameter. The
  flag values 1 and 2, and the two layouts `StringTable.LegacyErrPack` and
  `StringTable.Ossl300ErrPack`, are those of the host's `err.h`; they serve
  only to show that the hypothesis `NonZeroPacking` can be met.
- `std::sync::Once` racing between threads (`gmssl-errors/src/lib.rs:270`,
  `279`) is not modelled: registration is sequential, and "has run" is a flag.
  Blocking and parking are concurrency and are out of scope.
- `c_int` widths of library ids, function numbers and reason codes are not
  modelled: they are unbounded integers. Declarations large enough to
  overflow a `c_int` are not considered. Only `line as c_int` is modelled
  with its wrap-around. The `ERR_PACK` field widths enter only through
  `StringTable.InFields` and `StringTable.DeclFits`.
- Strings the host receives by pointer and never measures (file names,
  function names, table strings) are kept as characters. Only the message,
  whose length the code takes with `s.len()`, is encoded to UTF-8 bytes.
- Raw-pointer and nul-termination lifetime obligations,
  `unsafe impl Send/Sync`, and the `__from_raw`/`__as_raw` accessors are
  left out. Tokens are plain values whose fields hold the raw value.
- The `PhantomData` marker type is modelled as a `tag` on each token.
  `PutError.PutError` requires that both tags name the library. The source
  enforces this at compile time.
- `format!`/`format_args!` interpolation is left out: the formatted text is
  an input (`MessageArg.Formatted`). Brace unescaping of plain literals is
  likewise taken as already done.
- The value of `file!()` inside `put_error_inner` depends on how the crate is
  compiled. It is modelled as the constant `"src/lib.rs"`.
- PutError.PutErrorInner: states the trace for some allocator answer
  (`exists granted`) and does not name which one, since the allocator's
  choice is not visible to the caller in the source either.
- `systest/build.rs` is build-time configuration for a test generator whose
  helpers are not shown. It has no behaviour to model.
