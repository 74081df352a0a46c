/** Function and global-variable declarations of the Subzero code generator,
    with the initializers that give a global variable its bytes.

    The two declaration kinds are classes, since their name, linkage and
    (for variables) initializer list are updated in place; a reference to
    either kind is the closed sum GlobalDeclarationRef, which carries the
    queries the common base class defines once for both.  Initializers are
    values: explicit data, a run of zero bytes, or a relocation against
    another declaration. */
module GlobalInits {
  import opened IceDefs

  datatype Option<T> = None | Some(value: T)

  /** LLVM's linkage kinds, reduced to the two this code tells apart. */
  datatype LinkageType = InternalLinkage | ExternalLinkage | OtherLinkage
  {
    predicate IsInternal() { InternalLinkage? }

    function IsExternal(): (r: bool)
      ensures r ==> !IsInternal()
    {
      ExternalLinkage?
    }
  }

  /** A function's type signature: a return type and argument types, each
      given by its code in the code generator's type table. */
  datatype FuncSigType = FuncSigType(returnType: nat, argTypes: seq<nat>)

  /** LLVM calling-convention identifier. */
  type CallingConv = nat

  /** One byte of a global's data image: a known value, or a byte of an
      address the linker fills in. */
  datatype ImageByte = Literal(value: int8) | RelocatedByte

  /** One piece of a global variable's initial value. */
  datatype Initializer =
    | DataInitializer(contents: seq<int8>)
    | ZeroInitializer(size: SizeT)
    | RelocInitializer(declaration: GlobalDeclarationRef, offset: int32)
  {
    /** The bytes this initializer lays down, in order. */
    function Image(): seq<ImageByte> {
      match this
      case DataInitializer(contents) =>
        seq(|contents|, i requires 0 <= i < |contents| => Literal(contents[i]))
      case ZeroInitializer(size) => seq(size as int, _ => Literal(0))
      case RelocInitializer(_, _) => seq(RelocAddrSize as int, _ => RelocatedByte)
    }

    /** getNumBytes: the length of the image, as a SizeT. */
    function NumBytes(): (n: SizeT)
      ensures n == WrapSizeT(|Image()|)
      ensures ZeroInitializer? ==> n == size
      ensures RelocInitializer? ==> n == RelocAddrSize
      ensures DataInitializer? && |contents| < SizeTModulus ==> n as int == |contents|
    {
      match this
      case DataInitializer(contents) => WrapSizeT(|contents|)
      case ZeroInitializer(size) => size
      case RelocInitializer(_, _) => RelocAddrSize
    }
  }

  /** The data image of a whole initializer list: each initializer's image,
      in list order. */
  function Layout(inits: seq<Initializer>): seq<ImageByte> {
    if inits == [] then []
    else Layout(inits[..|inits| - 1]) + inits[|inits| - 1].Image()
  }

  /** The exact (unwrapped) sum of the initializers' byte counts. */
  function SumNumBytes(inits: seq<Initializer>): nat {
    if inits == [] then 0
    else SumNumBytes(inits[..|inits| - 1]) + inits[|inits| - 1].NumBytes() as int
  }

  lemma {:induction false} SumNumBytesConcat(a: seq<Initializer>, b: seq<Initializer>)
    ensures SumNumBytes(a + b) == SumNumBytes(a) + SumNumBytes(b)
    decreases |b|
  {
    if b == [] {
      assert a + b == a;
    } else {
      var b' := b[..|b| - 1];
      assert (a + b)[..|a + b| - 1] == a + b';
      SumNumBytesConcat(a, b');
    }
  }

  /** Wrapping a partial sum before adding does not change the wrapped total. */
  lemma WrapSizeTAdd(a: int, b: int)
    ensures WrapSizeT(WrapSizeT(a) as int + b) == WrapSizeT(a + b)
  {
    var w := WrapSizeT(a) as int;
    var r1 := WrapSizeT(w + b) as int;
    var r2 := WrapSizeT(a + b) as int;
    var k0 := (w - a) / SizeTModulus;
    var k1 := (r1 - (w + b)) / SizeTModulus;
    var k2 := (r2 - (a + b)) / SizeTModulus;
    assert w - a == k0 * SizeTModulus;
    assert r1 - (w + b) == k1 * SizeTModulus;
    assert r2 - (a + b) == k2 * SizeTModulus;
    assert r1 - r2 == (k0 + k1 - k2) * SizeTModulus;
  }

  /** Summing the wrapped per-initializer counts gives the image length,
      up to the 32-bit wrap-around; with no overflow, exactly. */
  lemma {:induction false} SumNumBytesMatchesLayout(inits: seq<Initializer>)
    ensures WrapSizeT(SumNumBytes(inits)) == WrapSizeT(|Layout(inits)|)
    ensures |Layout(inits)| < SizeTModulus ==> SumNumBytes(inits) == |Layout(inits)|
  {
    if inits != [] {
      var front := inits[..|inits| - 1];
      var last := inits[|inits| - 1];
      SumNumBytesMatchesLayout(front);
      var sum, len := SumNumBytes(front), |Layout(front)|;
      var n, m := last.NumBytes() as int, |last.Image()|;
      assert SumNumBytes(inits) == sum + n;
      assert |Layout(inits)| == len + m;
      WrapSizeTStep(sum, len, n, m);
    }
  }

  /** One step of SumNumBytesMatchesLayout: adding a wrapped count to
      a sum keeps it congruent to the exact length. */
  lemma WrapSizeTStep(sum: int, len: int, n: int, m: int)
    requires WrapSizeT(sum) == WrapSizeT(len)
    requires n == WrapSizeT(m) as int
    ensures WrapSizeT(sum + n) == WrapSizeT(len + m)
  {
    WrapSizeTAdd(sum, n);
    WrapSizeTAdd(len, n);
    WrapSizeTAdd(m, len);
  }

  /** A reference to either kind of declaration: the base class
      GlobalDeclaration, whose virtual queries dispatch on the kind. */
  datatype GlobalDeclarationRef =
    | FunctionRef(func: FunctionDeclaration)
    | VariableRef(variable: VariableDeclaration)
  {
    function Object(): object {
      if FunctionRef? then func else variable
    }

    function Name(): string reads Object() {
      if FunctionRef? then func.name else variable.name
    }

    function Linkage(): LinkageType reads Object() {
      if FunctionRef? then func.linkage else variable.linkage
    }

    function HasName(): (r: bool)
      reads Object()
      ensures r <==> |Name()| > 0
    {
      Name() != []
    }

    predicate IsInternal() reads Object() { Linkage().IsInternal() }

    function IsExternal(): (r: bool)
      reads Object()
      ensures r ==> !IsInternal()
    {
      Linkage().IsExternal()
    }

    /** Whether the declaration is defined in this module: a function that is
        not a prototype, a variable that has an initializer. */
    predicate IsDefinedLocally() reads Object() {
      if FunctionRef? then !func.isProto else variable.hasInitializer
    }

    /** Whether mangling was forced off (only variables can be). */
    predicate ForcedSuppression() reads Object() {
      VariableRef? && variable.forceSuppressMangling
    }

    /** getSuppressMangling: names are mangled unless the declaration is
        external and not defined locally, or mangling was forced off. */
    function SuppressMangling(): (r: bool)
      reads Object()
      ensures r <==> ForcedSuppression() || (IsExternal() && !IsDefinedLocally())
    {
      if FunctionRef? then func.SuppressMangling() else variable.SuppressMangling()
    }

    /** mangleName: the name as emitted, where `mangler` is the global
        context's name mangler. */
    function MangleName(mangler: string -> string): (r: string)
      reads Object()
      ensures SuppressMangling() ==> r == Name()
      ensures !SuppressMangling() ==> r == mangler(Name())
      ensures IsInternal() && !ForcedSuppression() ==> r == mangler(Name())
    {
      if SuppressMangling() then Name() else mangler(Name())
    }
  }

  /** A function declaration: signature, calling convention, linkage, and
      whether it is only a prototype (no local definition). */
  class FunctionDeclaration {
    var name: string
    var linkage: LinkageType
    const signature: FuncSigType
    const callingConv: CallingConv
    const isProto: bool

    constructor (signature: FuncSigType, callingConv: CallingConv,
                 linkage: LinkageType, isProto: bool)
      ensures this.signature == signature && this.callingConv == callingConv
      ensures this.linkage == linkage && this.isProto == isProto
      ensures name == []
    {
      this.signature := signature;
      this.callingConv := callingConv;
      this.linkage := linkage;
      this.isProto := isProto;
      name := [];
    }

    method SetName(newName: string)
      modifies this`name
      ensures name == newName
    {
      name := newName;
    }

    method SetLinkage(newLinkage: LinkageType)
      modifies this`linkage
      ensures linkage == newLinkage
    {
      linkage := newLinkage;
    }

    /** An external prototype keeps its name as written. */
    function SuppressMangling(): (r: bool)
      reads this
      ensures r <==> linkage.IsExternal() && isProto
      ensures !isProto || linkage.IsInternal() ==> !r
    {
      linkage.IsExternal() && isProto
    }
  }

  /** A global variable declaration and its list of initializers. */
  class VariableDeclaration {
    var name: string
    var linkage: LinkageType
    /** None once the initializers have been discarded. */
    var initializers: Option<seq<Initializer>>
    var hasInitializer: bool
    var alignment: uint32
    var isConstant: bool
    /** When set, SuppressMangling() holds whatever else is true. */
    var forceSuppressMangling: bool

    /** hasInitializer records whether an initializer was ever added, so
        while the list is present it says exactly whether the list is
        non-empty. */
    ghost predicate Valid() reads this {
      initializers.Some? ==> (hasInitializer <==> initializers.value != [])
    }

    constructor ()
      ensures Valid()
      ensures name == [] && linkage == InternalLinkage
      ensures initializers == Some([]) && !hasInitializer
      ensures alignment == 0 && !isConstant && !forceSuppressMangling
    {
      name := [];
      linkage := InternalLinkage;
      initializers := Some([]);
      hasInitializer := false;
      alignment := 0;
      isConstant := false;
      forceSuppressMangling := false;
    }

    method SetName(newName: string)
      modifies this`name
      ensures name == newName
    {
      name := newName;
    }

    method SetLinkage(newLinkage: LinkageType)
      modifies this`linkage
      ensures linkage == newLinkage
    {
      linkage := newLinkage;
    }

    method SetIsConstant(newValue: bool)
      modifies this`isConstant
      ensures isConstant == newValue
    {
      isConstant := newValue;
    }

    method SetAlignment(newAlignment: uint32)
      modifies this`alignment
      ensures alignment == newAlignment
    {
      alignment := newAlignment;
    }

    /** False exactly when the whole initializer is a single run of zeros,
        in which case every byte of the image is zero. Any other list is
        reported as nonzero, including the empty list and a data
        initializer whose bytes all happen to be zero. */
    function HasNonzeroInitializer(): (r: bool)
      reads this
      requires initializers.Some?
      ensures !r <==> |initializers.value| == 1 && initializers.value[0].ZeroInitializer?
      ensures !r ==> forall b | b in Layout(initializers.value) :: b == Literal(0)
      ensures initializers.value == [] ==> r
    {
      var inits := initializers.value;
      !(|inits| == 1 && inits[0].ZeroInitializer?)
    }

    /** getNumBytes: the byte count of the whole initializer, summed in a
        32-bit counter. */
    method GetNumBytes() returns (count: SizeT)
      requires initializers.Some?
      ensures count == WrapSizeT(SumNumBytes(initializers.value))
      ensures count == WrapSizeT(|Layout(initializers.value)|)
      ensures |Layout(initializers.value)| < SizeTModulus ==>
                count as int == |Layout(initializers.value)|
    {
      var inits := initializers.value;
      count := 0;
      for i := 0 to |inits|
        invariant count == WrapSizeT(SumNumBytes(inits[..i]))
      {
        assert inits[..i + 1][..i] == inits[..i];
        WrapSizeTAdd(SumNumBytes(inits[..i]), inits[i].NumBytes() as int);
        count := WrapSizeT(count as int + inits[i].NumBytes() as int);
      }
      assert inits[..|inits|] == inits;
      SumNumBytesMatchesLayout(inits);
    }

    /** Appends one initializer, taking ownership of it. */
    method AddInitializer(init: Initializer)
      requires Valid() && initializers.Some?
      modifies this`initializers, this`hasInitializer
      ensures Valid() && hasInitializer
      ensures initializers == Some(old(initializers.value) + [init])
      ensures SumNumBytes(initializers.value)
              == old(SumNumBytes(initializers.value)) + init.NumBytes() as int
      ensures Layout(initializers.value) == old(Layout(initializers.value)) + init.Image()
      ensures SuppressMangling() == forceSuppressMangling
    {
      var inits := initializers.value + [init];
      assert inits[..|inits| - 1] == initializers.value;
      initializers := Some(inits);
      hasInitializer := true;
    }

    /** A variable keeps its name as written if mangling was forced off, or
        if it is external and has no initializer. */
    function SuppressMangling(): (r: bool)
      reads this
      ensures forceSuppressMangling ==> r
      ensures !forceSuppressMangling ==> (r <==> linkage.IsExternal() && !hasInitializer)
      ensures Valid() && initializers.Some? && !forceSuppressMangling ==>
                (r <==> linkage.IsExternal() && initializers.value == [])
    {
      if forceSuppressMangling then true
      else linkage.IsExternal() && !hasInitializer
    }

    /** Forces SuppressMangling() on; no other method clears the flag. */
    method SetSuppressMangling()
      modifies this`forceSuppressMangling
      ensures forceSuppressMangling && SuppressMangling()
    {
      forceSuppressMangling := true;
    }

    /** Drops the initializer list.  hasInitializer is left as it was, so
        the mangling decision does not change. */
    method DiscardInitializers()
      modifies this`initializers
      ensures Valid() && initializers == None
      ensures SuppressMangling() == old(SuppressMangling())
    {
      initializers := None;
    }
  }

  /** DataInitializer built from the values of a bitcode record: one byte
      per value, each the value truncated to int8. */
  method DataInitializerFromRecord(values: seq<uint64>) returns (init: Initializer)
    ensures init.DataInitializer? && |init.contents| == |values|
    ensures forall i :: 0 <= i < |values| ==> init.contents[i] == TruncateToInt8(values[i])
  {
    var contents := new int8[|values|];
    for i := 0 to |values|
      invariant forall j :: 0 <= j < i ==> contents[j] == TruncateToInt8(values[j])
    {
      contents[i] := TruncateToInt8(values[i]);
    }
    init := DataInitializer(contents[..]);
  }

  /** DataInitializer built from the first strLen characters of str. */
  method DataInitializerFromString(str: seq<int8>, strLen: nat) returns (init: Initializer)
    requires strLen <= |str|
    ensures init.DataInitializer? && init.contents == str[..strLen]
    ensures init.Image() == seq(strLen, i requires 0 <= i < strLen => Literal(str[i]))
  {
    var contents := new int8[strLen];
    for i := 0 to strLen
      invariant contents[..i] == str[..i]
    {
      contents[i] := str[i];
      assert contents[..i + 1] == contents[..i] + [str[i]];
    }
    assert contents[..] == contents[..strLen];
    init := DataInitializer(contents[..]);
  }
}
