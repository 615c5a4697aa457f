/** Pushing an error: `put_error_inner` (the ABI adapter), `__put_error`
    (resolve the library id, then push) and the message classification of
    the `put_error!` macro. */
module PutError {
  import opened Encoding
  import opened ErrorTypes
  import opened HostModel
  import opened Registry

  /** `file!()` and `line!()` inside `put_error_inner`: the allocation is
      attributed to this crate's own source location, not to the caller's. */
  const AllocFile: seq<char> := CStr("src/lib.rs")
  const AllocLine: int := 180

  /** `line as c_int`: a `u32` reinterpreted as a 32-bit two's complement
      integer, so lines of 2^31 and above wrap to negative values. */
  function AsCInt(line: u32): (r: int)
    ensures -0x8000_0000 <= r < 0x8000_0000
    ensures (r - line as int) % 0x1_0000_0000 == 0
    ensures line < 0x8000_0000 ==> r == line as int
  {
    if line < 0x8000_0000 then line as int else line as int - 0x1_0000_0000
  }

  /** Number of host calls that push the base record under each ABI. */
  function BaseLength(abi: Abi): nat
  {
    match abi
    case Legacy => 1
    case Ossl300 => 3
  }

  /** The calls that push the base record (the `cfg_if!` in `put_error_inner`):
      one call under the legacy ABI, three under `ossl300`, none of them an
      allocation or a data call; the last one carries the library id and the
      reason, and every call carrying the file also carries the wrapped line. */
  function BaseEvents(abi: Abi, lib: int, func: FunctionInner, reason: int, file: seq<char>, line: u32): (r: seq<Event>)
    requires FitsAbi(abi, func)
    ensures |r| == BaseLength(abi)
    ensures forall k :: 0 <= k < |r| ==> !r[k].MallocCall? && !r[k].SetErrorDataCall?
    ensures (r[|r| - 1].PutErrorCall? || r[|r| - 1].SetErrorCall?) && r[|r| - 1].lib == lib && r[|r| - 1].reason == reason
    ensures forall k :: 0 <= k < |r| && (r[k].PutErrorCall? || r[k].SetDebugCall?) ==>
      r[k].file == file && r[k].line == AsCInt(line)
  {
    match abi
    case Legacy => [PutErrorCall(lib, func.num, reason, file, AsCInt(line))]
    case Ossl300 => [NewCall, SetDebugCall(file, AsCInt(line), func.str), SetErrorCall(lib, reason)]
  }

  /** The calls that attach the message; `granted` is whether the allocator
      returned a buffer. Only an owned message allocates, once, first, and
      exactly its byte length; the message's bytes are attached last, and
      they are attached exactly when the message is borrowed or the
      allocation was granted. */
  function MessageEvents(message: Option<Message>, granted: bool): (r: seq<Event>)
    ensures forall k :: 0 <= k < |r| ==> r[k].MallocCall? || r[k].SetErrorDataCall?
    ensures forall k :: 0 <= k < |r| && r[k].MallocCall? ==>
      k == 0 && message.Some? && message.value.Owned? && r[k].size == |Utf8(message.value.text)|
    ensures forall k :: 0 <= k < |r| && r[k].SetErrorDataCall? ==>
      k == |r| - 1 && message.Some? && r[k].data == Utf8(message.value.text)
    ensures (|r| > 0 && r[|r| - 1].SetErrorDataCall?) <==>
      message.Some? && (message.value.Borrowed? || granted)
  {
    match message
    case None => []
    case Some(Borrowed(s)) => [SetErrorDataCall(Utf8(s), 0 | ErrTxtString)]
    case Some(Owned(s)) =>
      [MallocCall(|Utf8(s)|, AllocFile, AllocLine)]
      + (if granted then [SetErrorDataCall(Utf8(s), ErrTxtMalloced | ErrTxtString)] else [])
  }

  /** All host calls of one `put_error_inner`. */
  function PutErrorEvents(abi: Abi, lib: int, func: FunctionInner, reason: int, file: seq<char>, line: u32,
                          message: Option<Message>, granted: bool): seq<Event>
    requires FitsAbi(abi, func)
  {
    BaseEvents(abi, lib, func, reason, file, line) + MessageEvents(message, granted)
  }

  /** The allocator calls of a trace, in order. */
  function Allocations(ev: seq<Event>): seq<Event>
  {
    if ev == [] then []
    else (if ev[0].MallocCall? then [ev[0]] else []) + Allocations(ev[1..])
  }

  /** The `ERR_set_error_data` calls of a trace, in order. */
  function DataCalls(ev: seq<Event>): seq<Event>
  {
    if ev == [] then []
    else (if ev[0].SetErrorDataCall? then [ev[0]] else []) + DataCalls(ev[1..])
  }

  lemma {:induction false} AllocationsAppend(a: seq<Event>, b: seq<Event>)
    ensures Allocations(a + b) == Allocations(a) + Allocations(b)
  {
    if a == [] {
      assert a + b == b;
    } else {
      assert (a + b)[1..] == a[1..] + b;
      AllocationsAppend(a[1..], b);
    }
  }

  lemma {:induction false} DataCallsAppend(a: seq<Event>, b: seq<Event>)
    ensures DataCalls(a + b) == DataCalls(a) + DataCalls(b)
  {
    if a == [] {
      assert a + b == b;
    } else {
      assert (a + b)[1..] == a[1..] + b;
      DataCallsAppend(a[1..], b);
    }
  }

  /** The base record is pushed first, whatever the message and the
      allocator do: one `ERR_put_error` under the legacy ABI, `ERR_new`,
      `ERR_set_debug`, `ERR_set_error` in that order under `ossl300`, always
      against `lib`; every later call belongs to the message. */
  lemma BaseRecordFirst(abi: Abi, lib: int, func: FunctionInner, reason: int, file: seq<char>, line: u32,
                        message: Option<Message>, granted: bool)
    requires FitsAbi(abi, func)
    ensures |PutErrorEvents(abi, lib, func, reason, file, line, message, granted)| >= BaseLength(abi)
    ensures abi == Legacy ==>
      PutErrorEvents(abi, lib, func, reason, file, line, message, granted)[0] ==
        PutErrorCall(lib, func.num, reason, file, AsCInt(line))
    ensures abi == Ossl300 ==>
      PutErrorEvents(abi, lib, func, reason, file, line, message, granted)[..3] ==
        [NewCall, SetDebugCall(file, AsCInt(line), func.str), SetErrorCall(lib, reason)]
    ensures forall k :: 0 <= k < BaseLength(abi) ==>
      var e := PutErrorEvents(abi, lib, func, reason, file, line, message, granted)[k];
      !e.MallocCall? && !e.SetErrorDataCall?
    ensures forall k :: BaseLength(abi) <= k < |PutErrorEvents(abi, lib, func, reason, file, line, message, granted)| ==>
      var e := PutErrorEvents(abi, lib, func, reason, file, line, message, granted)[k];
      e.MallocCall? || e.SetErrorDataCall?
  {
    var base := BaseEvents(abi, lib, func, reason, file, line);
    var msg := MessageEvents(message, granted);
    var ev := base + msg;
    assert |base| == BaseLength(abi);
    forall k | BaseLength(abi) <= k < |ev|
      ensures ev[k].MallocCall? || ev[k].SetErrorDataCall?
    {
      assert ev[k] == msg[k - |base|];
    }
  }

  /** What happens to the message: without one, nothing is allocated or
      attached; a borrowed string is attached (its UTF-8 bytes) with `ERR_TXT_STRING`
      and nothing allocated; an owned string causes exactly one allocation of
      its UTF-8 byte length, and, if granted, those bytes are attached with
      `ERR_TXT_MALLOCED | ERR_TXT_STRING`, otherwise nothing is attached.
      The host is told to free the data exactly when it was allocated. */
  lemma MessageAttachment(abi: Abi, lib: int, func: FunctionInner, reason: int, file: seq<char>, line: u32,
                          message: Option<Message>, granted: bool)
    requires FitsAbi(abi, func)
    ensures Allocations(PutErrorEvents(abi, lib, func, reason, file, line, message, granted)) ==
      if message.Some? && message.value.Owned? then [MallocCall(|Utf8(message.value.text)|, AllocFile, AllocLine)] else []
    ensures DataCalls(PutErrorEvents(abi, lib, func, reason, file, line, message, granted)) ==
      match message
      case None => []
      case Some(Borrowed(s)) => [SetErrorDataCall(Utf8(s), ErrTxtString)]
      case Some(Owned(s)) => if granted then [SetErrorDataCall(Utf8(s), ErrTxtMalloced | ErrTxtString)] else []
  {
    var base := BaseEvents(abi, lib, func, reason, file, line);
    var msg := MessageEvents(message, granted);
    AllocationsAppend(base, msg);
    DataCallsAppend(base, msg);
    NoMessageCalls(base);
    MessageCalls(message, granted);
  }

  /** Every attached message is the caller's string in UTF-8, flagged as a string,
      and flagged for the host to free exactly when it was allocated. */
  lemma DataFlags(abi: Abi, lib: int, func: FunctionInner, reason: int, file: seq<char>, line: u32,
                  message: Option<Message>, granted: bool)
    requires FitsAbi(abi, func)
    ensures forall e :: e in DataCalls(PutErrorEvents(abi, lib, func, reason, file, line, message, granted)) ==>
      e.SetErrorDataCall? && message.Some? && e.data == Utf8(message.value.text) &&
      e.flags & ErrTxtString != 0 &&
      (e.flags & ErrTxtMalloced != 0 <==> message.value.Owned?)
  {
    MessageAttachment(abi, lib, func, reason, file, line, message, granted);
  }

  /** The allocations and data calls of the message part alone. */
  lemma MessageCalls(message: Option<Message>, granted: bool)
    ensures Allocations(MessageEvents(message, granted)) ==
      if message.Some? && message.value.Owned? then [MallocCall(|Utf8(message.value.text)|, AllocFile, AllocLine)] else []
    ensures DataCalls(MessageEvents(message, granted)) ==
      match message
      case None => []
      case Some(Borrowed(s)) => [SetErrorDataCall(Utf8(s), ErrTxtString)]
      case Some(Owned(s)) => if granted then [SetErrorDataCall(Utf8(s), ErrTxtMalloced | ErrTxtString)] else []
  {
    var msg := MessageEvents(message, granted);
    match message {
      case None =>
      case Some(Borrowed(s)) =>
        Single(msg[0]);
        assert 0 | ErrTxtString == ErrTxtString;
      case Some(Owned(s)) =>
        if granted {
          assert msg == [msg[0]] + [msg[1]];
          AllocationsAppend([msg[0]], [msg[1]]);
          DataCallsAppend([msg[0]], [msg[1]]);
          Single(msg[0]);
          Single(msg[1]);
        } else {
          Single(msg[0]);
        }
    }
  }

  /** A trace of one call filters to that call or to nothing. */
  lemma Single(e: Event)
    ensures Allocations([e]) == if e.MallocCall? then [e] else []
    ensures DataCalls([e]) == if e.SetErrorDataCall? then [e] else []
  {
    assert [e][1..] == [];
  }

  /** A trace with neither allocations nor data calls filters to nothing. */
  lemma {:induction false} NoMessageCalls(ev: seq<Event>)
    requires forall k :: 0 <= k < |ev| ==> !ev[k].MallocCall? && !ev[k].SetErrorDataCall?
    ensures Allocations(ev) == [] && DataCalls(ev) == []
  {
    if ev != [] {
      NoMessageCalls(ev[1..]);
    }
  }

  /** The three message forms of `put_error!`: without a message, with a
      bare literal (the three-argument arm), and with a message followed by a
      comma and zero or more arguments (the fourth arm, even when the comma
      is trailing and no argument follows), which the caller's formatting has
      already turned into `text`. */
  datatype MessageArg = NoMessage | Literal(text: seq<char>) | Formatted(text: seq<char>)

  /** The `message` argument the macro passes to `__put_error`: the nul is
      appended to the bare literal, which is borrowed, or to the result of
      the fourth arm's formatting, which is owned. */
  function Classify(arg: MessageArg): (r: Option<Message>)
    ensures r.None? <==> arg.NoMessage?
    ensures r.Some? ==> r.value.text == arg.text + ['\0'] && (r.value.Owned? <==> arg.Formatted?)
  {
    match arg
    case NoMessage => None
    case Literal(t) => Some(Borrowed(CStr(t)))
    case Formatted(t) => Some(Owned(CStr(t)))
  }

  /** End to end through the macro: no message attaches nothing; a literal is
      attached, nul-terminated, without allocating; a formatted message
      allocates exactly once, room for its text's UTF-8 bytes plus the
      terminator, and, when granted, the attached bytes are those bytes plus
      the terminator. */
  lemma MacroMessage(abi: Abi, lib: int, func: FunctionInner, reason: int, file: seq<char>, line: u32,
                     arg: MessageArg, granted: bool)
    requires FitsAbi(abi, func)
    ensures arg.NoMessage? ==>
      Allocations(PutErrorEvents(abi, lib, func, reason, file, line, Classify(arg), granted)) == [] &&
      DataCalls(PutErrorEvents(abi, lib, func, reason, file, line, Classify(arg), granted)) == []
    ensures arg.Literal? ==>
      Allocations(PutErrorEvents(abi, lib, func, reason, file, line, Classify(arg), granted)) == [] &&
      DataCalls(PutErrorEvents(abi, lib, func, reason, file, line, Classify(arg), granted)) ==
        [SetErrorDataCall(Utf8(arg.text) + [0], ErrTxtString)]
    ensures arg.Formatted? ==>
      Allocations(PutErrorEvents(abi, lib, func, reason, file, line, Classify(arg), granted)) ==
        [MallocCall(|Utf8(arg.text)| + 1, AllocFile, AllocLine)] &&
      DataCalls(PutErrorEvents(abi, lib, func, reason, file, line, Classify(arg), granted)) ==
        if granted then [SetErrorDataCall(Utf8(arg.text) + [0], ErrTxtMalloced | ErrTxtString)] else []
  {
    if !arg.NoMessage? {
      NulTerminated(arg.text);
    }
    MessageAttachment(abi, lib, func, reason, file, line, Classify(arg), granted);
  }

  /** `ptr::copy_nonoverlapping(src, dst, src.len())` into a buffer of
      exactly that length: afterwards the buffer holds the source bytes. */
  method CopyNonoverlapping(src: seq<byte>, dst: array<byte>)
    requires dst.Length == |src|
    modifies dst
    ensures dst[..] == src
  {
    forall i | 0 <= i < |src| {
      dst[i] := src[i];
    }
  }

  /** `put_error_inner`: push the base record, then attach the message. */
  method PutErrorInner(host: Host, abi: Abi, library: int, func: FunctionInner, reason: int,
                       file: seq<char>, line: u32, message: Option<Message>)
    requires FitsAbi(abi, func)
    modifies host
    ensures host.nextLibrary == old(host.nextLibrary)
    ensures exists granted: bool {:trigger PutErrorEvents(abi, library, func, reason, file, line, message, granted)} ::
      host.trace == old(host.trace) + PutErrorEvents(abi, library, func, reason, file, line, message, granted)
  {
    match abi {
      case Ossl300 =>
        host.New();
        host.SetDebug(file, AsCInt(line), func.str);
        host.SetError(library, reason);
      case Legacy =>
        host.PutError(library, func.num, reason, file, AsCInt(line));
    }
    ghost var afterBase := host.trace;
    assert afterBase == old(host.trace) + BaseEvents(abi, library, func, reason, file, line);
    ghost var granted := false;
    var data: Option<(seq<byte>, bv32)>;
    match message {
      case Some(Borrowed(s)) =>
        data := Some((Utf8(s), 0));
      case Some(Owned(s)) =>
        var bytes := Utf8(s);
        var ptr := host.Malloc(|bytes|, AllocFile, AllocLine);
        if ptr == null {
          data := None;
        } else {
          CopyNonoverlapping(bytes, ptr);
          data := Some((ptr[..], ErrTxtMalloced));
          granted := true;
        }
      case None =>
        data := None;
    }
    if data.Some? {
      host.SetErrorData(data.value.0, data.value.1 | ErrTxtString);
    }
    assert host.trace == afterBase + MessageEvents(message, granted);
    assert host.trace == old(host.trace) + PutErrorEvents(abi, library, func, reason, file, line, message, granted);
  }

  /** `__put_error`: resolve the library's id (registering it on first use)
      and push against that id. Function and reason must belong to the same
      library, which the source enforces through their marker type. */
  method PutError(library: ErrorLibrary, host: Host, func: Function, reason: Reason,
                  file: seq<char>, line: u32, message: Option<Message>)
    requires library.Valid()
    requires func.tag == library.decl.name && reason.tag == library.decl.name
    requires FitsAbi(library.abi, func.raw)
    modifies library, library.strings, host
    ensures library.Valid() && library.once
    ensures library.libNum == if old(library.once) then old(library.libNum) else old(host.nextLibrary)
    ensures host.nextLibrary == if old(library.once) then old(host.nextLibrary) else old(host.nextLibrary) + 1
    ensures exists granted: bool {:trigger PutErrorEvents(library.abi, library.libNum, func.raw, reason.raw, file, line, message, granted)} ::
      host.trace == old(host.trace)
        + (if old(library.once) then [] else RegistrationEvents(library.libNum, library.strings[..]))
        + PutErrorEvents(library.abi, library.libNum, func.raw, reason.raw, file, line, message, granted)
  {
    ghost var before := host.trace;
    var id := library.Id(host);
    ghost var registered := host.trace;
    assert registered == before + (if old(library.once) then [] else RegistrationEvents(id, library.strings[..]));
    PutErrorInner(host, library.abi, id, func.raw, reason.raw, file, line, message);
    ghost var granted: bool :| host.trace == registered
      + PutErrorEvents(library.abi, id, func.raw, reason.raw, file, line, message, granted);
    assert host.trace == before
      + (if old(library.once) then [] else RegistrationEvents(id, library.strings[..]))
      + PutErrorEvents(library.abi, id, func.raw, reason.raw, file, line, message, granted);
  }

  /** `put_error!(function, reason [, message [, args]])` at a call site with
      the given `file!()` and `line!()`. */
  method PutErrorMacro(library: ErrorLibrary, host: Host, func: Function, reason: Reason,
                       file: seq<char>, line: u32, arg: MessageArg)
    requires library.Valid()
    requires func.tag == library.decl.name && reason.tag == library.decl.name
    requires FitsAbi(library.abi, func.raw)
    modifies library, library.strings, host
    ensures library.Valid() && library.once
    ensures library.libNum == if old(library.once) then old(library.libNum) else old(host.nextLibrary)
    ensures host.nextLibrary == if old(library.once) then old(host.nextLibrary) else old(host.nextLibrary) + 1
    ensures exists granted: bool {:trigger PutErrorEvents(library.abi, library.libNum, func.raw, reason.raw, CStr(file), line, Classify(arg), granted)} ::
      host.trace == old(host.trace)
        + (if old(library.once) then [] else RegistrationEvents(library.libNum, library.strings[..]))
        + PutErrorEvents(library.abi, library.libNum, func.raw, reason.raw, CStr(file), line, Classify(arg), granted)
  {
    PutError(library, host, func, reason, CStr(file), line, Classify(arg));
  }
}
