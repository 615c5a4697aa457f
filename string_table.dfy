/** The static `STRINGS` table that `__gmssl_errors_helper!` (`@strings`)
    builds for one library, under each ABI, and the one patch registration
    makes to it. */
module StringTable {
  import opened ErrorTypes
  import opened Declaration

  /** Entry 0: the library's display string, code 0 until registration. */
  function LibraryEntry(decl: LibraryDecl): StringData
  {
    StringData(0, Some(CStr(decl.display)))
  }

  /** The terminating entry `(0, null)`. */
  const Sentinel: StringData := StringData(0, None)

  /** Legacy ABI only: `ERR_PACK(0, f, 0)` with each function's string. */
  function FunctionEntries(pack: Packer, funcs: seq<Function>, items: seq<Item>): seq<StringData>
    requires |funcs| == |items|
    requires forall i :: 0 <= i < |funcs| ==> funcs[i].raw.FuncNum?
  {
    seq(|items|, i requires 0 <= i < |items| =>
      StringData(pack(0, funcs[i].raw.num, 0), Some(CStr(items[i].display))))
  }

  /** `ERR_PACK(0, 0, r)` with each reason's string. */
  function ReasonEntries(pack: Packer, reasons: seq<Reason>, items: seq<Item>): seq<StringData>
    requires |reasons| == |items|
  {
    seq(|items|, i requires 0 <= i < |items| =>
      StringData(pack(0, 0, reasons[i].raw), Some(CStr(items[i].display))))
  }

  /** The initial contents of `STRINGS`: as many entries as the array type
      declares, the library's own entry first with code 0, and a string in
      every entry except the last, which is the `(0, null)` terminator. */
  function Strings(abi: Abi, pack: Packer, decl: LibraryDecl): (r: seq<StringData>)
    ensures |r| == TableSize(abi, decl)
    ensures r[0].error == 0 && r[0].str == Some(CStr(decl.display))
    ensures forall k :: 0 <= k < |r| - 1 ==> r[k].str.Some?
    ensures r[|r| - 1] == Sentinel
  {
    var funcs := DeclaredFunctions(Legacy, decl);
    [LibraryEntry(decl)]
    + (if abi == Legacy then FunctionEntries(pack, funcs, decl.functions) else [])
    + ReasonEntries(pack, DeclaredReasons(decl), decl.reasons)
    + [Sentinel]
  }

  /** The array length the macro declares: `2 + @count(...)` over the reason
      names, and under the legacy ABI over the function names too. */
  function TableSize(abi: Abi, decl: LibraryDecl): nat
  {
    match abi
    case Ossl300 => 2 + Count(decl.reasons)
    case Legacy => 2 + Count(decl.functions + decl.reasons)
  }

  /** The table after registration: `STRINGS[0].error = ERR_PACK(lib, 0, 0)`. */
  function Registered(abi: Abi, pack: Packer, decl: LibraryDecl, lib: int): seq<StringData>
  {
    var t := Strings(abi, pack, decl);
    t[0 := t[0].(error := pack(lib, 0, 0))]
  }

  /** The initializer has exactly the length the array type declares; an empty
      declaration gives just the library entry and the sentinel. */
  lemma TableLength(abi: Abi, pack: Packer, decl: LibraryDecl)
    ensures |Strings(abi, pack, decl)| == TableSize(abi, decl)
    ensures abi == Ossl300 ==> TableSize(abi, decl) == 2 + |decl.reasons|
    ensures abi == Legacy ==> TableSize(abi, decl) == 2 + |decl.functions| + |decl.reasons|
    ensures decl.functions == [] && decl.reasons == [] ==>
      Strings(abi, pack, decl) == [LibraryEntry(decl), Sentinel]
  {
    if decl.functions == [] && decl.reasons == [] {
      assert ReasonEntries(pack, DeclaredReasons(decl), decl.reasons) == [];
      assert abi == Legacy ==> FunctionEntries(pack, DeclaredFunctions(Legacy, decl), decl.functions) == [];
    }
  }

  /** Offset of the first reason entry: after the library entry and, under the
      legacy ABI, the function entries. */
  function ReasonOffset(abi: Abi, decl: LibraryDecl): nat
  {
    1 + (if abi == Legacy then |decl.functions| else 0)
  }

  /** Shape of the table: the library name with code 0; under the legacy ABI
      `ERR_PACK(0, i + 1, 0)` with the i-th function string; then
      `ERR_PACK(0, 0, j + 1)` with the j-th reason string; then the sentinel. */
  lemma TableShape(abi: Abi, pack: Packer, decl: LibraryDecl)
    ensures |Strings(abi, pack, decl)| == ReasonOffset(abi, decl) + |decl.reasons| + 1
    ensures Strings(abi, pack, decl)[0] == StringData(0, Some(decl.display + ['\0']))
    ensures abi == Legacy ==> forall i :: 0 <= i < |decl.functions| ==>
      Strings(abi, pack, decl)[1 + i] == StringData(pack(0, i + 1, 0), Some(decl.functions[i].display + ['\0']))
    ensures forall j :: 0 <= j < |decl.reasons| ==>
      Strings(abi, pack, decl)[ReasonOffset(abi, decl) + j] ==
        StringData(pack(0, 0, j + 1), Some(decl.reasons[j].display + ['\0']))
    ensures Strings(abi, pack, decl)[|Strings(abi, pack, decl)| - 1] == StringData(0, None)
  {
    var t := Strings(abi, pack, decl);
    var fe := if abi == Legacy then FunctionEntries(pack, DeclaredFunctions(Legacy, decl), decl.functions) else [];
    var re := ReasonEntries(pack, DeclaredReasons(decl), decl.reasons);
    assert t == [LibraryEntry(decl)] + fe + re + [Sentinel];
    forall j | 0 <= j < |decl.reasons|
      ensures t[ReasonOffset(abi, decl) + j] == StringData(pack(0, 0, j + 1), Some(decl.reasons[j].display + ['\0']))
    {
      assert t[1 + |fe| + j] == re[j];
    }
    if abi == Legacy {
      forall i | 0 <= i < |decl.functions|
        ensures t[1 + i] == StringData(pack(0, i + 1, 0), Some(decl.functions[i].display + ['\0']))
      {
        assert t[1 + i] == fe[i];
      }
    }
  }

  /** Registration changes only the code of entry 0, to `ERR_PACK(lib, 0, 0)`;
      the library's string and every other entry keep their values. */
  lemma RegistrationPatch(abi: Abi, pack: Packer, decl: LibraryDecl, lib: int)
    ensures |Registered(abi, pack, decl, lib)| == |Strings(abi, pack, decl)|
    ensures Registered(abi, pack, decl, lib)[0] == StringData(pack(lib, 0, 0), Some(decl.display + ['\0']))
    ensures forall k :: 1 <= k < |Strings(abi, pack, decl)| ==>
      Registered(abi, pack, decl, lib)[k] == Strings(abi, pack, decl)[k]
  {
  }

  /** The field ranges of the host's `ERR_PACK`: the library in 8 bits;
      under the legacy ABI the function and the reason in 12 bits each; under
      `ossl300` no function part and the reason in 23 bits. */
  predicate InFields(abi: Abi, l: int, f: int, r: int)
  {
    0 <= l < 0x100 &&
    match abi
    case Legacy => 0 <= f < 0x1000 && 0 <= r < 0x1000
    case Ossl300 => f == 0 && 0 <= r < 0x80_0000
  }

  /** A declaration whose codes fit those fields: at most 0xFFF functions
      and reasons (legacy), at most 0x7F_FFFF reasons (`ossl300`). */
  predicate DeclFits(abi: Abi, decl: LibraryDecl)
  {
    match abi
    case Legacy => |decl.functions| < 0x1000 && |decl.reasons| < 0x1000
    case Ossl300 => |decl.reasons| < 0x80_0000
  }

  /** Within the field ranges, the host's packing gives a non-zero code
      whenever one of the parts is non-zero. */
  ghost predicate NonZeroPacking(abi: Abi, pack: Packer)
  {
    forall l, f, r :: InFields(abi, l, f, r) && (l != 0 || f != 0 || r != 0) ==> pack(l, f, r) != 0
  }

  /** `ERR_PACK` of the legacy `err.h`: library in bits 24-31, function in
      bits 12-23, reason in bits 0-11, each part masked to its width. */
  function LegacyErrPack(l: int, f: int, r: int): int
  {
    (l % 0x100) * 0x100_0000 + (f % 0x1000) * 0x1000 + r % 0x1000
  }

  /** `ERR_PACK` of the `ossl300` `err.h`: library in bits 23-30, reason in
      bits 0-22; the function is not packed. */
  function Ossl300ErrPack(l: int, f: int, r: int): int
  {
    (l % 0x100) * 0x80_0000 + r % 0x80_0000
  }

  /** Both layouts are non-zero on non-zero parts within their fields, and
      neither is outside them: a library id of 256 packs to the code 0. */
  lemma ErrPackLayouts()
    ensures NonZeroPacking(Legacy, LegacyErrPack)
    ensures NonZeroPacking(Ossl300, Ossl300ErrPack)
    ensures LegacyErrPack(0x100, 0, 0) == 0 && Ossl300ErrPack(0x100, 0, 0) == 0
  {
    forall l, f, r | InFields(Legacy, l, f, r) && (l != 0 || f != 0 || r != 0)
      ensures LegacyErrPack(l, f, r) != 0
    {
      assert l % 0x100 == l && f % 0x1000 == f && r % 0x1000 == r;
    }
    forall l, f, r | InFields(Ossl300, l, f, r) && (l != 0 || f != 0 || r != 0)
      ensures Ossl300ErrPack(l, f, r) != 0
    {
      assert l % 0x100 == l && r % 0x80_0000 == r;
    }
  }

  /** Both before and after registration the sentinel is the only entry with a
      null string. Before registration entry 0 has code 0; after it, given a
      packing that is non-zero on non-zero parts within its fields, a
      non-zero library id that fits the library field and a declaration that
      fits the other fields, the sentinel is the only entry whose code is 0. */
  lemma SentinelTerminates(abi: Abi, pack: Packer, decl: LibraryDecl, lib: int)
    ensures forall k :: 0 <= k < |Strings(abi, pack, decl)| - 1 ==>
      Strings(abi, pack, decl)[k].str.Some? && Registered(abi, pack, decl, lib)[k].str.Some?
    ensures Registered(abi, pack, decl, lib)[|Strings(abi, pack, decl)| - 1] == Sentinel
    ensures Strings(abi, pack, decl)[0].error == 0
    ensures NonZeroPacking(abi, pack) && 0 < lib < 0x100 && DeclFits(abi, decl) ==>
      forall k :: 0 <= k < |Strings(abi, pack, decl)| - 1 ==> Registered(abi, pack, decl, lib)[k].error != 0
  {
    TableShape(abi, pack, decl);
    RegistrationPatch(abi, pack, decl, lib);
    var t := Strings(abi, pack, decl);
    var off := ReasonOffset(abi, decl);
    forall k | 0 <= k < |t| - 1
      ensures t[k].str.Some?
    {
      if k >= off {
        assert t[off + (k - off)].str.Some?;
      }
    }
    if NonZeroPacking(abi, pack) && 0 < lib < 0x100 && DeclFits(abi, decl) {
      RegisteredCodesNonZero(abi, pack, decl, lib);
    }
  }

  /** With a packing that is non-zero within its fields, and an id and a
      declaration that fit them, every entry but the last has a non-zero code
      after registration. */
  lemma RegisteredCodesNonZero(abi: Abi, pack: Packer, decl: LibraryDecl, lib: int)
    requires NonZeroPacking(abi, pack) && 0 < lib < 0x100 && DeclFits(abi, decl)
    ensures forall k :: 0 <= k < |Strings(abi, pack, decl)| - 1 ==> Registered(abi, pack, decl, lib)[k].error != 0
  {
    RegistrationPatch(abi, pack, decl, lib);
    PackNonZero(abi, pack, lib, 0, 0);
    ReasonCodesNonZero(abi, pack, decl);
    if abi == Legacy {
      FunctionCodesNonZero(pack, decl);
    }
  }

  /** Legacy ABI: every function entry has a non-zero code. */
  lemma FunctionCodesNonZero(pack: Packer, decl: LibraryDecl)
    requires NonZeroPacking(Legacy, pack) && DeclFits(Legacy, decl)
    ensures forall k :: 1 <= k < ReasonOffset(Legacy, decl) ==> Strings(Legacy, pack, decl)[k].error != 0
  {
    TableShape(Legacy, pack, decl);
    forall k | 1 <= k < ReasonOffset(Legacy, decl)
      ensures Strings(Legacy, pack, decl)[k].error != 0
    {
      assert Strings(Legacy, pack, decl)[1 + (k - 1)].error == pack(0, k, 0);
      PackNonZero(Legacy, pack, 0, k, 0);
    }
  }

  /** Every reason entry has a non-zero code. */
  lemma ReasonCodesNonZero(abi: Abi, pack: Packer, decl: LibraryDecl)
    requires NonZeroPacking(abi, pack) && DeclFits(abi, decl)
    ensures forall k :: ReasonOffset(abi, decl) <= k < |Strings(abi, pack, decl)| - 1 ==>
      Strings(abi, pack, decl)[k].error != 0
  {
    TableShape(abi, pack, decl);
    var off := ReasonOffset(abi, decl);
    forall k | off <= k < |Strings(abi, pack, decl)| - 1
      ensures Strings(abi, pack, decl)[k].error != 0
    {
      assert Strings(abi, pack, decl)[off + (k - off)].error == pack(0, 0, k - off + 1);
      PackNonZero(abi, pack, 0, 0, k - off + 1);
    }
  }

  /** One instance of `NonZeroPacking`. */
  lemma PackNonZero(abi: Abi, pack: Packer, l: int, f: int, r: int)
    requires NonZeroPacking(abi, pack) && InFields(abi, l, f, r) && (l != 0 || f != 0 || r != 0)
    ensures pack(l, f, r) != 0
  {
  }
}
