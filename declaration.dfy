/** The constants that `gmssl_errors!` declares for one library: the recursive
    `@func_consts`, `@reason_consts` and `@count` expansions and the
    `@func_value` choice of the token's representation. */
module Declaration {
  import opened ErrorTypes

  /** `@count`: one for each identifier, by recursion over the list. */
  function Count<T>(xs: seq<T>): (r: nat)
    ensures r == |xs|
  {
    if xs == [] then 0 else 1 + Count(xs[1..])
  }

  /** `@func_value n, s`: the number itself under the legacy ABI, the nul-
      terminated display string under `ossl300`. */
  function FuncValue(abi: Abi, n: int, display: seq<char>): (r: FunctionInner)
    ensures FitsAbi(abi, r)
    ensures r.FuncNum? ==> r.num == n
    ensures r.FuncPtr? ==> |r.str| == |display| + 1 && r.str[..|display|] == display && r.str[|display|] == '\0'
  {
    match abi
    case Ossl300 => FuncPtr(CStr(display))
    case Legacy => FuncNum(n)
  }

  /** `@func_consts lib; n; ...`: the first function gets `n`, the rest are
      declared by the recursive expansion with `n + 1`. */
  function FuncConsts(abi: Abi, tag: seq<char>, n: int, funcs: seq<Item>): (r: seq<Function>)
    ensures |r| == |funcs|
    ensures forall i :: 0 <= i < |funcs| ==> r[i] == Function(FuncValue(abi, n + i, funcs[i].display), tag)
    decreases |funcs|
  {
    if funcs == [] then []
    else [Function(FuncValue(abi, n, funcs[0].display), tag)] + FuncConsts(abi, tag, n + 1, funcs[1..])
  }

  /** `@reason_consts lib; n; ...`: the first reason gets `n`, the rest are
      declared by the recursive expansion with `n + 1`. */
  function ReasonConsts(tag: seq<char>, n: int, reasons: seq<Item>): (r: seq<Reason>)
    ensures |r| == |reasons|
    ensures forall i :: 0 <= i < |reasons| ==> r[i] == Reason(n + i, tag)
    decreases |reasons|
  {
    if reasons == [] then []
    else [Reason(n, tag)] + ReasonConsts(tag, n + 1, reasons[1..])
  }

  /** The function constants of a library; the numbering starts at 1. */
  function DeclaredFunctions(abi: Abi, decl: LibraryDecl): seq<Function>
  {
    FuncConsts(abi, decl.name, 1, decl.functions)
  }

  /** The reason constants of a library; the numbering starts at 1. */
  function DeclaredReasons(decl: LibraryDecl): seq<Reason>
  {
    ReasonConsts(decl.name, 1, decl.reasons)
  }

  /** The set of reason codes a library declares. */
  function ReasonCodes(decl: LibraryDecl): set<int>
  {
    set r | r in DeclaredReasons(decl) :: r.raw
  }

  /** The set of function numbers a library declares (meaningful under the
      legacy ABI, where tokens are numbers). */
  function FunctionCodes(abi: Abi, decl: LibraryDecl): set<int>
  {
    set f | f in DeclaredFunctions(abi, decl) && f.raw.FuncNum? :: f.raw.num
  }

  /** Reasons get the codes 1..M in declaration order: none is 0 (the host's
      "no reason"), they strictly increase, and together they are exactly
      the integers 1..M. Every one is tagged with its own library. */
  lemma ReasonNumbering(decl: LibraryDecl)
    ensures |DeclaredReasons(decl)| == |decl.reasons|
    ensures forall i :: 0 <= i < |decl.reasons| ==>
      DeclaredReasons(decl)[i].raw == i + 1 && DeclaredReasons(decl)[i].tag == decl.name
    ensures forall i, j :: 0 <= i < j < |decl.reasons| ==>
      0 < DeclaredReasons(decl)[i].raw < DeclaredReasons(decl)[j].raw
    ensures forall k :: k in ReasonCodes(decl) <==> 1 <= k <= |decl.reasons|
  {
    var rs := DeclaredReasons(decl);
    forall k | 1 <= k <= |decl.reasons|
      ensures k in ReasonCodes(decl)
    {
      assert rs[k - 1] in rs;
    }
  }

  /** Under the legacy ABI functions get the numbers 1..N in declaration order,
      none of them 0, together exactly 1..N; under `ossl300` a function's
      token is its own nul-terminated display string. */
  lemma FunctionNumbering(abi: Abi, decl: LibraryDecl)
    ensures |DeclaredFunctions(abi, decl)| == |decl.functions|
    ensures forall i :: 0 <= i < |decl.functions| ==>
      DeclaredFunctions(abi, decl)[i].tag == decl.name &&
      FitsAbi(abi, DeclaredFunctions(abi, decl)[i].raw)
    ensures abi == Legacy ==> forall i :: 0 <= i < |decl.functions| ==>
      DeclaredFunctions(abi, decl)[i].raw == FuncNum(i + 1)
    ensures abi == Legacy ==>
      forall k :: k in FunctionCodes(abi, decl) <==> 1 <= k <= |decl.functions|
    ensures abi == Ossl300 ==> forall i :: 0 <= i < |decl.functions| ==>
      DeclaredFunctions(abi, decl)[i].raw == FuncPtr(decl.functions[i].display + ['\0'])
  {
    var fs := DeclaredFunctions(abi, decl);
    if abi == Legacy {
      forall k | 1 <= k <= |decl.functions|
        ensures k in FunctionCodes(abi, decl)
      {
        assert fs[k - 1] in fs;
      }
      forall n | n in FunctionCodes(abi, decl)
        ensures 1 <= n <= |decl.functions|
      {
        var f :| f in fs && f.raw.num == n;
        var i :| 0 <= i < |fs| && fs[i] == f;
      }
    }
  }
}
