/** The Go declarations of the same requests, and that they lay out the same bytes. */
module GoLayout {
  import opened Borsh
  import opened Wire

  /** Go types as the Go Borsh library tells them apart. An asset is one byte of the shared asset list. */
  datatype GoType =
    | Uint8 | Uint64 | AssetType
    | ByteArray(size: nat) | ByteSlice | Slice(item: GoType) | Pointer(to: GoType)
    | GoStruct(fields: GoFields) | EnumStruct(variants: GoFields)

  datatype GoFields = End | Field(t: GoType, rest: GoFields)

  /** How the library lays a type out: slices carry a count, pointers a presence byte, and a struct
      marked as an enumeration its tag and the one field that the tag selects. */
  function SchemaOf(n: nat, t: GoType): (s: Schema)
    decreases t
  {
    match t
    case Uint8 => U8
    case Uint64 => U64
    case AssetType => Tag(n)
    case ByteArray(size) => Fixed(size)
    case ByteSlice => Blob
    case Slice(item) => Vec(SchemaOf(n, item))
    case Pointer(to) => Opt(SchemaOf(n, to))
    case GoStruct(fields) => Struct(SchemasOf(n, fields))
    case EnumStruct(variants) => Enum(SchemasOf(n, variants))
  }

  function SchemasOf(n: nat, fs: GoFields): (s: Schemas)
    decreases fs
  {
    match fs
    case End => NoMore
    case Field(t, rest) => More(SchemaOf(n, t), SchemasOf(n, rest))
  }

  const PERMIT: GoType :=
    GoStruct(Field(AssetType, Field(Uint64, Field(Uint8, Field(ByteArray(32), Field(ByteArray(32), End))))))
  const FROM_ARGS: GoType := GoStruct(Field(AssetType, Field(ByteArray(32), Field(ByteArray(32), End))))
  const SOLVE_ARGS: GoType :=
    GoStruct(Field(Slice(PERMIT), Field(Slice(FROM_ARGS), Field(ByteArray(20), Field(ByteSlice, Field(ByteArray(16), End))))))
  const SIG_ARGS: GoType := GoStruct(Field(ByteArray(64), Field(SOLVE_ARGS, End)))
  const FRESH_BACKWARDS: GoType :=
    GoStruct(Field(ByteArray(32), Field(ByteArray(20), Field(Uint8, Field(ByteArray(32), Field(ByteArray(32),
             Field(Slice(SIG_ARGS), Field(Pointer(ByteArray(20)), End))))))))
  const SOLVE: GoType := GoStruct(Field(Slice(SIG_ARGS), End))
  const EMPTY: GoType := GoStruct(End)
  const SOLVE_V2_ARGS: GoType := GoStruct(Field(Slice(SOLVE_ARGS), Field(ByteArray(20), Field(ByteArray(20), End))))
  const SOLVE_V2: GoType := GoStruct(Field(SOLVE_V2_ARGS, Field(ByteArray(64), End)))
  const GO_TRANSFER_PERMIT: GoType :=
    GoStruct(Field(Uint64, Field(Uint8, Field(ByteArray(32), Field(ByteArray(32), End)))))
  const TRANSFER: GoType :=
    GoStruct(Field(ByteArray(20), Field(AssetType, Field(ByteArray(20), Field(ByteArray(32), Field(Pointer(GO_TRANSFER_PERMIT), End))))))
  const TRANSFER_ONLY_ARGS: GoType := GoStruct(Field(Slice(TRANSFER), Field(ByteArray(16), End)))
  const TRANSFER_ONLY: GoType := GoStruct(Field(TRANSFER_ONLY_ARGS, Field(ByteArray(64), End)))
  const STATEMENT_ARGS: GoType := GoStruct(Field(ByteSlice, Field(ByteArray(6), End)))
  const GO_STATEMENT: GoType := GoStruct(Field(STATEMENT_ARGS, Field(ByteArray(64), End)))
  const SOLVE_V3_ARGS: GoType :=
    GoStruct(Field(Slice(SOLVE_ARGS), Field(AssetType, Field(Uint64, Field(Pointer(PERMIT), End)))))
  const SOLVE_V3: GoType := GoStruct(Field(SOLVE_V3_ARGS, Field(ByteArray(64), End)))

  const LATER: GoFields :=
    Field(TRANSFER_ONLY, Field(GO_STATEMENT, Field(EMPTY, Field(EMPTY, Field(SOLVE_V3, Field(EMPTY, End))))))

  /** The variants in the order of the Go enumeration constants. */
  const ARGS: GoType :=
    EnumStruct(Field(FRESH_BACKWARDS, Field(SOLVE, Field(EMPTY, Field(EMPTY, Field(SOLVE_V2, LATER))))))

  lemma ItemLayouts(n: nat)
    ensures SchemaOf(n, PERMIT) == PermitSchema(n)
    ensures SchemaOf(n, FROM_ARGS) == FromSchema(n)
    ensures SchemaOf(n, GO_TRANSFER_PERMIT) == Wire.TRANSFER_PERMIT
    ensures SchemaOf(n, STATEMENT_ARGS) == Wire.STATEMENT
  {
  }

  lemma SolveLayouts(n: nat)
    ensures SchemaOf(n, SOLVE_ARGS) == SolveSchema(n)
    ensures SchemaOf(n, SIG_ARGS) == SigArgsSchema(n)
    ensures SchemaOf(n, SOLVE_V2_ARGS) == V2Schema(n)
    ensures SchemaOf(n, SOLVE_V3_ARGS) == V3Schema(n)
    ensures SchemaOf(n, TRANSFER_ONLY_ARGS) == TransferOnlySchema(n)
  {
    ItemLayouts(n);
    assert SchemaOf(n, SOLVE_ARGS) == SolveSchema(n);
    assert SchemaOf(n, TRANSFER) == TransferSchema(n);
  }

  /** The Go and the Rust declarations describe the same layout. */
  lemma SameLayout(n: nat)
    ensures SchemaOf(n, ARGS) == ArgsSchema(n)
  {
    SolveLayouts(n);
    ItemLayouts(n);
    assert SchemaOf(n, FRESH_BACKWARDS) == FreshSchema(n);
    assert SchemaOf(n, SOLVE) == VariantSchema(n, 1);
    assert SchemaOf(n, SOLVE_V2) == VariantSchema(n, 4);
    assert SchemaOf(n, TRANSFER_ONLY) == VariantSchema(n, 5);
    assert SchemaOf(n, GO_STATEMENT) == VariantSchema(n, 6);
    assert SchemaOf(n, SOLVE_V3) == VariantSchema(n, 9);
    assert SchemasOf(n, LATER) == Five(VariantSchema(n, 5), VariantSchema(n, 6), UNIT, UNIT, VariantSchema(n, 9), Of1(UNIT));
  }

  /** A Go client and the contract agree on the bytes of every request. */
  lemma SameBytes(n: nat, a: Args)
    requires ArgsFit(n, a)
    ensures Typed(SchemaOf(n, ARGS), ArgsValue(a)) && Encode(SchemaOf(n, ARGS), ArgsValue(a)) == EncodeArgs(n, a)
  {
    SameLayout(n);
    ArgsFitTyped(n, a);
  }
}
