/** `impl Library for Name { fn id() }` as `gmssl_errors!` expands it: the
    cached `LIB_NUM`, the `STRINGS` array and the `Once` guard of one
    declared library. */
module Registry {
  import opened ErrorTypes
  import opened StringTable
  import opened HostModel

  /** The host calls of the one-time registration, in order. */
  function RegistrationEvents(lib: int, table: seq<StringData>): seq<Event>
  {
    [InitCall, NextErrorLibraryCall(lib), LoadStringsCall(lib, table)]
  }

  class ErrorLibrary {
    const abi: Abi
    const pack: Packer
    const decl: LibraryDecl
    /** `static mut STRINGS`. */
    const strings: array<StringData>
    /** `static mut LIB_NUM`, 0 until registration. */
    var libNum: int
    /** Whether `INIT.call_once` has run its closure. */
    var once: bool

    /** Before registration the table is as declared and the id is 0; after
        it, the table is patched with the id that was assigned. */
    ghost predicate Valid()
      reads this, strings
    {
      strings.Length == |Strings(abi, pack, decl)| &&
      if once then strings[..] == Registered(abi, pack, decl, libNum)
      else libNum == 0 && strings[..] == Strings(abi, pack, decl)
    }

    /** The statics as the program starts: nothing registered yet. */
    constructor (abi: Abi, pack: Packer, decl: LibraryDecl)
      ensures Valid() && !once && libNum == 0 && fresh(strings)
      ensures this.abi == abi && this.pack == pack && this.decl == decl
      ensures strings[..] == Strings(abi, pack, decl)
    {
      this.abi := abi;
      this.pack := pack;
      this.decl := decl;
      var table := Strings(abi, pack, decl);
      TableLength(abi, pack, decl);
      strings := new StringData[TableSize(abi, decl)](i requires 0 <= i < |table| => table[i]);
      libNum := 0;
      once := false;
    }

    /** `Library::id()`. The first call initialises the host, takes the next
        library id, patches entry 0 of the table with it and loads the table;
        every later call returns the cached id and calls nothing. */
    method Id(host: Host) returns (id: int)
      requires Valid()
      modifies this, strings, host
      ensures Valid() && once && id == libNum
      ensures old(once) ==>
        && id == old(libNum)
        && strings[..] == old(strings[..])
        && host.trace == old(host.trace)
        && host.nextLibrary == old(host.nextLibrary)
      ensures !old(once) ==>
        && id == old(host.nextLibrary)
        && host.nextLibrary == old(host.nextLibrary) + 1
        && strings[..] == Registered(abi, pack, decl, id)
        && host.trace == old(host.trace) + RegistrationEvents(id, Registered(abi, pack, decl, id))
    {
      if !once {
        host.Init();
        libNum := host.GetNextErrorLibrary();
        strings[0] := strings[0].(error := pack(libNum, 0, 0));
        host.LoadStrings(libNum, strings);
        once := true;
      }
      id := libNum;
    }
  }
}
