/**
 * What the host compiler makes of the generated items. The struct's size and
 * trait solving for `StackOnly` are inputs: `sizeOfSelf` stands for
 * `core::mem::size_of::<Self>()`, `stackOnly` for "the type implements
 * `StackOnly`".
 */
module Generated {
  import opened Wrappers
  import opened Syntax
  import opened OuterAttr
  import opened Derive

  /** The primitive types `resource-bound-core` marks as `StackOnly`, besides `()`. */
  const STACK_ONLY_PRIMITIVES: set<string> := {
    "i8", "i16", "i32", "i64", "i128", "isize",
    "u8", "u16", "u32", "u64", "u128", "usize",
    "f32", "f64", "bool", "char"
  }

  /** The allow-list as a `StackOnly` predicate. */
  predicate InAllowList(t: Ty) {
    (t.Path? && t.path in STACK_ONLY_PRIMITIVES) || t == Tuple([])
  }

  /**
   * The array length `(size_of::<Self>() <= limit) as usize - 1`, evaluated in
   * `usize` arithmetic at compile time; `None` is the overflow error.
   */
  function SizeAssertionLength(sizeOfSelf: nat, limit: nat): (r: Option<nat>)
    ensures r == Some(0) <==> sizeOfSelf <= limit
    ensures r.Some? ==> r == Some(0)
  {
    var cond: nat := if sizeOfSelf <= limit then 1 else 0;
    if cond < 1 then None else Some(cond - 1)
  }

  /** The size constant is declared `[(); 0]`, so it type-checks when the length evaluates to 0. */
  predicate SizeAssertionHolds(sizeOfSelf: nat, limit: nat) {
    SizeAssertionLength(sizeOfSelf, limit) == Some(0)
  }

  /** `assert_fn::<T>()` with `T: StackOnly` type-checks when the field type has the trait. */
  predicate FieldAssertionHolds(a: FieldAssertion, stackOnly: Ty -> bool) {
    stackOnly(a.ty)
  }

  /** The build succeeds when every generated item type-checks. */
  predicate BuildPasses(plan: Plan, sizeOfSelf: nat, stackOnly: Ty -> bool) {
    && (forall i :: 0 <= i < |plan.fieldAsserts| ==> FieldAssertionHolds(plan.fieldAsserts[i], stackOnly))
    && SizeAssertionHolds(sizeOfSelf, plan.sizeLimit)
  }

  /**
   * For an accepted struct the build passes exactly when its size is within
   * the effective limit and, unless heap use is allowed, every field type is
   * `StackOnly`.
   */
  lemma BuildOutcome(input: DeriveInput, sizeOfSelf: nat, stackOnly: Ty -> bool)
    requires Expand(input).Ok?
    ensures input.data.Struct?
    ensures BuildPasses(Expand(input).value, sizeOfSelf, stackOnly) <==>
              && sizeOfSelf <= EffectiveLimit(input.attrs)
              && (AllowsHeap(input.attrs) ||
                  forall i :: 0 <= i < |input.data.fields| ==> stackOnly(input.data.fields[i].ty))
  {
    ExpandPlan(input);
    var plan := Expand(input).value;
    if !AllowsHeap(input.attrs) {
      assert forall i :: 0 <= i < |input.data.fields| ==> plan.fieldAsserts[i].ty == input.data.fields[i].ty;
    }
  }

  /** Without a valid `size_limit` the limit is 0, so only a zero-sized struct builds. */
  lemma UnsetLimitNeedsZeroSize(input: DeriveInput, sizeOfSelf: nat, stackOnly: Ty -> bool)
    requires Expand(input).Ok? && LastLimit(input.attrs, None) == None
    requires BuildPasses(Expand(input).value, sizeOfSelf, stackOnly)
    ensures sizeOfSelf == 0
  {
    BuildOutcome(input, sizeOfSelf, stackOnly);
  }

  // ---------------------------------------------------------------------------
  // Worked cases.

  function Point(attrs: seq<Attribute>, fields: seq<Field>): DeriveInput {
    DeriveInput(attrs, "Point", [], Struct(fields))
  }

  /** `#[size_limit = 4] struct Point { x: i32 }` of size 4 builds. */
  lemma OneIntFieldBuilds()
    ensures var plan := Expand(Point([SizeLimitAttr(4)], [Field(Some("x"), Path("i32"))])).value;
            Expand(Point([SizeLimitAttr(4)], [Field(Some("x"), Path("i32"))])).Ok? &&
            BuildPasses(plan, 4, InAllowList)
  {
  }

  /** `#[size_limit = 24] struct Point { x: i32, s: String }` is refused at the assertion for `s`. */
  lemma StringFieldFails(sizeOfSelf: nat)
    ensures var input := Point([SizeLimitAttr(24)], [Field(Some("x"), Path("i32")), Field(Some("s"), Path("String"))]);
            Expand(input).Ok? &&
            |Expand(input).value.fieldAsserts| == 2 &&
            FieldAssertionHolds(Expand(input).value.fieldAsserts[0], InAllowList) &&
            !FieldAssertionHolds(Expand(input).value.fieldAsserts[1], InAllowList) &&
            !BuildPasses(Expand(input).value, sizeOfSelf, InAllowList)
  {
    var input := Point([SizeLimitAttr(24)], [Field(Some("x"), Path("i32")), Field(Some("s"), Path("String"))]);
    SizeLimitRoundTrip(Initial, 24);
    assert FoldAttrs(Initial, input.attrs) == Ok(Initial.(maxSize := Some(24)));
    BorrowedLifetimesNonEmpty(input.data.fields);
    ExpandPlan(input);
  }

  /**
   * `struct TacomaHygin<'a> { field1: i32, field2: String, feld3: &'a str }` with
   * `#[size_limit = 524]`: refused without `#[allow_heap = true]`; with it,
   * accepted with no field assertions, building exactly when it fits in 524 bytes.
   */
  lemma BorrowedFieldNeedsHeap(sizeOfSelf: nat)
    ensures var fields := [Field(Some("field1"), Path("i32")), Field(Some("field2"), Path("String")),
                           Field(Some("feld3"), Reference(Some("'a"), false, Path("str")))];
            var strict := DeriveInput([SizeLimitAttr(524)], "TacomaHygin", [LifetimeParam("'a")], Struct(fields));
            var relaxed := strict.(attrs := [SizeLimitAttr(524), AllowHeapAttr(true)]);
            && Expand(strict) == Err(Borrowed(map[fields[2].ty := "'a"]))
            && Expand(relaxed).Ok?
            && Expand(relaxed).value.fieldAsserts == []
            && Expand(relaxed).value.implLifetimes == ["'a"]
            && (BuildPasses(Expand(relaxed).value, sizeOfSelf, InAllowList) <==> sizeOfSelf <= 524)
  {
    var fields := [Field(Some("field1"), Path("i32")), Field(Some("field2"), Path("String")),
                   Field(Some("feld3"), Reference(Some("'a"), false, Path("str")))];
    var strict := DeriveInput([SizeLimitAttr(524)], "TacomaHygin", [LifetimeParam("'a")], Struct(fields));
    var relaxed := strict.(attrs := [SizeLimitAttr(524), AllowHeapAttr(true)]);
    SizeLimitRoundTrip(Initial, 524);
    var limited := Initial.(maxSize := Some(524));
    AllowHeapRoundTrip(limited, true);
    assert FoldAttrs(Initial, strict.attrs) == Ok(limited);
    assert [SizeLimitAttr(524), AllowHeapAttr(true)][1..] == [AllowHeapAttr(true)];
    assert FoldAttrs(Initial, relaxed.attrs) == Ok(limited.(allowHeap := true));
    assert fields[..2][..1] == [fields[0]] && fields[..2][..1][..0] == [];
    assert BorrowedLifetimes(fields[..2][..1]) == map[];
    assert BorrowedLifetimes(fields[..2]) == map[];
    assert BorrowedLifetimes(fields) == map[fields[2].ty := "'a"];
    assert [LifetimeParam("'a")][..0] == [];
    BuildOutcome(relaxed, sizeOfSelf, InAllowList);
    FoldAttrsLastWins(Initial, relaxed.attrs, limited.(allowHeap := true));
  }
}
