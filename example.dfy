/** The library of the crate's documentation example: `MyLib("my cool
    library")` with one function and two reasons, its constants, its table,
    and two pushes against it. */
module MyLibExample {
  import opened Encoding
  import opened ErrorTypes
  import opened Declaration
  import opened StringTable
  import opened HostModel
  import opened Registry
  import opened PutError

  const MyLib: LibraryDecl := LibraryDecl(
    "MyLib", "my cool library",
    [Item("FIND_PRIVATE_KEY", "find_private_key")],
    [Item("IO_ERROR", "IO error"), Item("BAD_PASSWORD", "invalid private key password")])

  /** The formatted text of the example's second push, `"tried {} times"`
      with the argument 2. */
  const Tried: seq<char> := "tried 2 times"

  /** The constants the macro declares for `MyLib`. */
  lemma MyLibConstants()
    ensures DeclaredFunctions(Legacy, MyLib) == [Function(FuncNum(1), "MyLib")]
    ensures DeclaredFunctions(Ossl300, MyLib) == [Function(FuncPtr("find_private_key\0"), "MyLib")]
    ensures DeclaredReasons(MyLib) == [Reason(1, "MyLib"), Reason(2, "MyLib")]
  {
    FunctionNumbering(Legacy, MyLib);
    FunctionNumbering(Ossl300, MyLib);
    ReasonNumbering(MyLib);
    assert CStr("find_private_key") == "find_private_key\0";
  }

  /** The tables of `MyLib`: the legacy table lists the library, the
      function, the two reasons and the sentinel, and the `ossl300` table
      leaves out the function. */
  lemma MyLibDeclaration(pack: Packer)
    ensures Strings(Legacy, pack, MyLib) == [
      StringData(0, Some("my cool library\0")),
      StringData(pack(0, 1, 0), Some("find_private_key\0")),
      StringData(pack(0, 0, 1), Some("IO error\0")),
      StringData(pack(0, 0, 2), Some("invalid private key password\0")),
      StringData(0, None)]
    ensures Strings(Ossl300, pack, MyLib) == [
      StringData(0, Some("my cool library\0")),
      StringData(pack(0, 0, 1), Some("IO error\0")),
      StringData(pack(0, 0, 2), Some("invalid private key password\0")),
      StringData(0, None)]
  {
    MyLibConstants();
    TableShape(Legacy, pack, MyLib);
    TableShape(Ossl300, pack, MyLib);
    assert CStr("my cool library") == "my cool library\0";
    assert CStr("find_private_key") == "find_private_key\0";
    assert CStr("IO error") == "IO error\0";
    assert CStr("invalid private key password") == "invalid private key password\0";
    var legacy := Strings(Legacy, pack, MyLib);
    assert legacy[1] == StringData(pack(0, 1, 0), Some("find_private_key\0"));
    assert legacy[2] == StringData(pack(0, 0, 1), Some("IO error\0"));
    assert legacy[3] == StringData(pack(0, 0, 2), Some("invalid private key password\0"));
  }

  /** The host calls of the first push: no message, so the base record only. */
  lemma FirstPushEvents(lib: int, file: seq<char>, line: u32, granted: bool)
    ensures PutErrorEvents(Legacy, lib, FuncNum(1), 2, CStr(file), line, Classify(NoMessage), granted) ==
      [PutErrorCall(lib, 1, 2, CStr(file), AsCInt(line))]
  {
  }

  /** A push of `(FIND_PRIVATE_KEY, IO_ERROR)` with a formatted text `t`: the
      base record, then one allocation of the text's bytes plus the nul, and,
      when granted, those bytes attached. */
  lemma FormattedPush(t: seq<char>, lib: int, file: seq<char>, line: u32, granted: bool)
    ensures PutErrorEvents(Legacy, lib, FuncNum(1), 1, CStr(file), line, Classify(Formatted(t)), granted) ==
      [PutErrorCall(lib, 1, 1, CStr(file), AsCInt(line))] + MessageEvents(Some(Owned(CStr(t))), granted)
    ensures Allocations(PutErrorEvents(Legacy, lib, FuncNum(1), 1, CStr(file), line, Classify(Formatted(t)), granted)) ==
      [MallocCall(|Utf8(t)| + 1, AllocFile, AllocLine)]
    ensures granted ==>
      DataCalls(PutErrorEvents(Legacy, lib, FuncNum(1), 1, CStr(file), line, Classify(Formatted(t)), granted)) ==
        [SetErrorDataCall(Utf8(t) + [0], ErrTxtMalloced | ErrTxtString)]
  {
    MacroMessage(Legacy, lib, FuncNum(1), 1, CStr(file), line, Formatted(t), granted);
  }

  /** "tried 2 times" is ASCII: thirteen bytes. */
  lemma TriedBytes()
    ensures |Utf8(Tried)| == 13
  {
    AsciiUtf8(Tried);
  }

  /** The letter "é" (U+00E9) is two bytes in UTF-8. */
  lemma AccentBytes()
    ensures Utf8("\U{E9}") == [0xC3, 0xA9]
  {
    assert Utf8("\U{E9}") == Utf8Char('\U{E9}') + Utf8([]);
  }

  /** A formatted message is measured in bytes: `put_error!(.., "{}", "é")`
      allocates three bytes, two for the accented letter and one for the nul,
      and attaches exactly those bytes. */
  lemma AccentedMessage(lib: int, file: seq<char>, line: u32, granted: bool)
    ensures Allocations(PutErrorEvents(Legacy, lib, FuncNum(1), 1, CStr(file), line, Classify(Formatted("\U{E9}")), granted)) ==
      [MallocCall(3, AllocFile, AllocLine)]
    ensures granted ==>
      DataCalls(PutErrorEvents(Legacy, lib, FuncNum(1), 1, CStr(file), line, Classify(Formatted("\U{E9}")), granted)) ==
        [SetErrorDataCall([0xC3, 0xA9, 0], ErrTxtMalloced | ErrTxtString)]
  {
    AccentBytes();
    assert Utf8("\U{E9}") + [0] == [0xC3, 0xA9, 0];
    FormattedPush("\U{E9}", lib, file, line, granted);
  }

  /** The whole trace of the two pushes, registration first, for a second
      message with the formatted text `t`. */
  lemma TwoPushTrace(pack: Packer, lib: int, file: seq<char>, line1: u32, line2: u32, t: seq<char>, g1: bool, g2: bool)
    ensures
      var registration := RegistrationEvents(lib, Registered(Legacy, pack, MyLib, lib));
      var first := PutErrorEvents(Legacy, lib, FuncNum(1), 2, CStr(file), line1, Classify(NoMessage), g1);
      var second := PutErrorEvents(Legacy, lib, FuncNum(1), 1, CStr(file), line2, Classify(Formatted(t)), g2);
      registration + first + second == registration
        + [PutErrorCall(lib, 1, 2, CStr(file), AsCInt(line1))]
        + [PutErrorCall(lib, 1, 1, CStr(file), AsCInt(line2))]
        + MessageEvents(Some(Owned(CStr(t))), g2)
  {
    FirstPushEvents(lib, file, line1, g1);
    FormattedPush(t, lib, file, line2, g2);
  }

  /** After calls that neither allocate nor attach data, the two pushes
      allocate once, for the formatted message. */
  lemma TwoPushAllocations(before: seq<Event>, lib: int, file: seq<char>, line1: u32, line2: u32, t: seq<char>,
                           g1: bool, g2: bool)
    requires forall k :: 0 <= k < |before| ==> !before[k].MallocCall? && !before[k].SetErrorDataCall?
    ensures
      var first := PutErrorEvents(Legacy, lib, FuncNum(1), 2, CStr(file), line1, Classify(NoMessage), g1);
      var second := PutErrorEvents(Legacy, lib, FuncNum(1), 1, CStr(file), line2, Classify(Formatted(t)), g2);
      Allocations(before + first + second) == [MallocCall(|Utf8(t)| + 1, AllocFile, AllocLine)]
  {
    var first := PutErrorEvents(Legacy, lib, FuncNum(1), 2, CStr(file), line1, Classify(NoMessage), g1);
    var second := PutErrorEvents(Legacy, lib, FuncNum(1), 1, CStr(file), line2, Classify(Formatted(t)), g2);
    FirstPushEvents(lib, file, line1, g1);
    FormattedPush(t, lib, file, line2, g2);
    NoMessageCalls(before + first);
    AllocationsAppend(before + first, second);
  }

  /** Under the legacy ABI, from a fresh host and fresh statics: push
      `(FIND_PRIVATE_KEY, BAD_PASSWORD)` without a message, then
      `(FIND_PRIVATE_KEY, IO_ERROR)` with a formatted message whose text is
      `text`. The first push registers the library with the host's next id;
      the second reuses it; only the formatted message allocates, its bytes
      plus the nul. */
  method TwoPushes(pack: Packer, firstLibrary: int, file: seq<char>, line1: u32, line2: u32, text: seq<char>)
    returns (lib: int, trace: seq<Event>)
    ensures lib == firstLibrary
    ensures exists granted: bool {:trigger MessageEvents(Some(Owned(CStr(text))), granted)} ::
      trace == RegistrationEvents(lib, Registered(Legacy, pack, MyLib, lib))
        + [PutErrorCall(lib, 1, 2, CStr(file), AsCInt(line1))]
        + [PutErrorCall(lib, 1, 1, CStr(file), AsCInt(line2))]
        + MessageEvents(Some(Owned(CStr(text))), granted)
    ensures Allocations(trace) == [MallocCall(|Utf8(text)| + 1, AllocFile, AllocLine)]
  {
    MyLibConstants();
    var host := new Host(firstLibrary);
    var library := new ErrorLibrary(Legacy, pack, MyLib);
    var findPrivateKey := DeclaredFunctions(Legacy, MyLib)[0];
    var ioError := DeclaredReasons(MyLib)[0];
    var badPassword := DeclaredReasons(MyLib)[1];

    PutErrorMacro(library, host, findPrivateKey, badPassword, file, line1, NoMessage);
    lib := library.libNum;
    ghost var registration := RegistrationEvents(lib, Registered(Legacy, pack, MyLib, lib));
    ghost var g1: bool :| host.trace == registration
      + PutErrorEvents(Legacy, lib, FuncNum(1), 2, CStr(file), line1, Classify(NoMessage), g1);

    PutErrorMacro(library, host, findPrivateKey, ioError, file, line2, Formatted(text));
    ghost var g2: bool :| host.trace == registration
      + PutErrorEvents(Legacy, lib, FuncNum(1), 2, CStr(file), line1, Classify(NoMessage), g1)
      + PutErrorEvents(Legacy, lib, FuncNum(1), 1, CStr(file), line2, Classify(Formatted(text)), g2);
    trace := host.trace;
    TwoPushTrace(pack, lib, file, line1, line2, text, g1, g2);
    TwoPushAllocations(registration, lib, file, line1, line2, text, g1, g2);
  }

  /** The documentation example: the second push formats `"tried {} times"`
      with 2, so its single allocation is 14 bytes. */
  method MyLibPushes(pack: Packer, firstLibrary: int, file: seq<char>, line1: u32, line2: u32)
    returns (lib: int, trace: seq<Event>)
    ensures lib == firstLibrary
    ensures exists granted: bool {:trigger MessageEvents(Some(Owned(CStr(Tried))), granted)} ::
      trace == RegistrationEvents(lib, Registered(Legacy, pack, MyLib, lib))
        + [PutErrorCall(lib, 1, 2, CStr(file), AsCInt(line1))]
        + [PutErrorCall(lib, 1, 1, CStr(file), AsCInt(line2))]
        + MessageEvents(Some(Owned(CStr(Tried))), granted)
    ensures Allocations(trace) == [MallocCall(14, AllocFile, AllocLine)]
  {
    lib, trace := TwoPushes(pack, firstLibrary, file, line1, line2, Tried);
    TriedBytes();
  }
}
