# resource-bound derive, modelled in Dafny

`#[derive(ResourceBound)]` checks a struct's resource limits at compile time.
It reads two outer attributes on the struct. `#[size_limit = N]` is the
maximum size in bytes. `#[allow_heap = b]` says whether fields may hold heap
or borrowed data. From these it emits:

- unless heap use is allowed, one `const FIELD<i><NAME>` per field, which type-checks only if the field type implements `StackOnly`;
- one size constant of type `[(); 0]` whose length is `(size_of::<Self>() <= N) as usize - 1`;
- an `impl<'a, ..> Name<'a, ..>` header that carries the struct's lifetime parameters.

The derive refuses enums and unions. It refuses a malformed attribute. It
refuses a field of type `&'a T` unless heap use is allowed.

This project models the derive itself: the attribute record and its parser
(`outer_attr.rs`) and the expansion (`lib.rs`). It then proves what the
emitted items mean for the build.

Modules, one per concern:

- `Wrappers` (`wrappers.dfy`): `Option`, `Result`, `Outcome`.
- `Syntax` (`syntax.dfy`): the parsed item as plain datatypes.
  - Types are `Path`, `Reference(lifetime, mutable, elem)`, `Tuple` or `OtherTy`.
  - Literals are `IntLit(digits)`, `BoolLit` or `OtherLit`.
  - An attribute's meta is `NameValue(expr)`, `PathOnly` or `List`.
  - Fields, generics, the item kind (`Struct`/`Enum`/`Union`), spans and diagnostics.
  - A diagnostic's message is a fixed text, or the borrow-rule message. The borrow-rule message is built from a lifetime and the struct's name, and `MessageText` renders it.
- `Text` (`text.dfy`): the standard-library pieces the derive calls.
  - `usize` is 64-bit, written `Usize`.
  - `ToDecimal` is `to_string`, and `ParseUsize` is `str::parse::<usize>`.
  - `AsciiUpper` and `AsciiLower` are `to_ascii_uppercase` and `to_ascii_lowercase`.
- `OuterAttr` (`outer_attr.dfy`): the attribute record and its parser.
  - The class `OuterAttributes` has the record's three fields, its setters, `PushType` and getters.
  - `ParseStructAttrs` is the method that updates the record in place.
  - `Interpret` and `ParseAttr` are the pure decision it is proved against.
  - `FoldAttrs` is the attribute loop. `LastLimit` and `LastHeap` are reference definitions that read the attributes from the last one backwards.
- `Derive` (`derive.dfy`): the expansion.
  - `LifetimeAttr` is the map of borrowed field types. `MapFields` is the field loop.
  - `FieldAsserts` is the counter closure, and `LifetimeParams` the lifetime collection.
  - `BorrowError` is rule 1. `ExpandFields` and `ExpandResource` are the imperative pipeline.
  - `Expand` and `ExpandStruct` are its pure specification, and the lemmas follow them.
  - `Expand` leaves open which borrowed field the error cites. `Borrowed(offenders)` and the predicate `Reports` say "some entry of the map".
- `Generated` (`generated.dfy`): what the host compiler makes of the plan.
  - The struct's size `sizeOfSelf` and the trait test `stackOnly: Ty -> bool` are inputs.
  - `InAllowList` transcribes the `StackOnly` impls of `resource-bound-core` for use in worked examples.

Behaviour worth noting:

- An unset size limit stays `None` in the record. It becomes 0 only in `expand_resource` (lib.rs:59-62).
- `size_limit = 0` is accepted, although the usage text asks for a positive integer.
- The errors "parse int error" and "#[size_limit] only accepts integer literals" carry no usage example.

## Model

| member | source | states |
|---|---|---|
| Text.ToDecimal | resource-bound-derive/src/lib.rs:71-73 | `field_ctr.to_string()` is a non-empty string of decimal digits with no leading zero |
| Text.ValueOfToDecimal | resource-bound-derive/src/lib.rs:71-73 | the digits printed for a counter denote that counter |
| Text.ToDecimalInjective | resource-bound-derive/src/lib.rs:71-73 | two counters that print the same are equal |
| Text.ParseUsize | resource-bound-derive/src/outer_attr.rs:45 | a digit string parses to its value when that value is below 2^64 and fails otherwise; the empty string fails |
| Text.ParseUsizeOfToDecimal | resource-bound-derive/src/outer_attr.rs:45-48 | printing `n` and parsing it back gives `Some(n)` exactly when `n` fits in `usize`, `None` otherwise |
| Text.AsciiUpper | resource-bound-derive/src/lib.rs:71 | `to_ascii_uppercase`: maps each ASCII lower-case letter to its upper-case form and keeps every other character; `AsciiUpperKeepsDigits` and `Derive.ConstNamesIgnoreCase` are proved about it |
| Text.AsciiLower | resource-bound-derive/src/lib.rs:73 | `to_ascii_lowercase`: maps each ASCII upper-case letter to its lower-case form and keeps every other character; it gives the struct-name part of `Derive.FnName`, whose names `FnNameInjective` proves distinct per counter |
| Text.AsciiUpperKeepsDigits | resource-bound-derive/src/lib.rs:71 | upper-casing the counter's digits leaves them unchanged |
| Syntax.MessageText | resource-bound-derive/src/lib.rs:120-125 | renders a diagnostic's message: a fixed text as is, the borrow rule as the source's `format!` text with the lifetime and the struct name filled in; `BorrowTextMentions` is proved about it |
| Syntax.BorrowTextMentions | resource-bound-derive/src/lib.rs:120-125 | the borrow-rule message contains the lifetime and, after it, the struct's name |
| OuterAttr.OuterAttributes.constructor | resource-bound-derive/src/outer_attr.rs:13-15 | a new record has no size limit, heap not allowed and no field types |
| OuterAttr.OuterAttributes.SetMaxSize | resource-bound-derive/src/outer_attr.rs:17-19 | the limit becomes `Some(value)`; the heap flag and the types are unchanged |
| OuterAttr.OuterAttributes.SetHeapAllo | resource-bound-derive/src/outer_attr.rs:20-22 | the heap flag becomes `value`; the limit and the types are unchanged |
| OuterAttr.OuterAttributes.PushType | resource-bound-derive/src/outer_attr.rs:29-31 | the types become the old types followed by `value`; limit and flag are unchanged |
| OuterAttr.OuterAttributes.GetMaxSize | resource-bound-derive/src/outer_attr.rs:23-25 | returns the record's size limit, `None` when none was set |
| OuterAttr.OuterAttributes.GetHeapAllo | resource-bound-derive/src/outer_attr.rs:26-28 | returns the record's heap flag |
| OuterAttr.OuterAttributes.GetTypes | resource-bound-derive/src/outer_attr.rs:32-34 | returns the recorded field types in the order they were pushed |
| OuterAttr.Interpret | resource-bound-derive/src/outer_attr.rs:37-87 | the validation half of `parse_struct_attrs`: which setter an attribute asks for, or the diagnostic it raises; `SizeLimitShapes`, `AllowHeapShapes` and `OtherAttributeIgnored` state its cases |
| OuterAttr.ParseAttr | resource-bound-derive/src/outer_attr.rs:37-87 | a successful parse never changes the recorded field types |
| OuterAttr.ParseStructAttrs | resource-bound-derive/src/outer_attr.rs:37-87 | the record after the call is the one `ParseAttr` computes; on an error the same error is returned and the record is unchanged, because setters run only after validation |
| OuterAttr.OtherAttributeIgnored | resource-bound-derive/src/outer_attr.rs:65-86 | an attribute whose path is neither `size_limit` nor `allow_heap` is accepted and changes nothing |
| OuterAttr.SizeLimitRoundTrip | resource-bound-derive/src/outer_attr.rs:41-49 | `#[size_limit = n]` with `n` below 2^64 sets the limit to `Some(n)` and changes nothing else |
| OuterAttr.SizeLimitOverflow | resource-bound-derive/src/outer_attr.rs:45-48 | a limit of 2^64 or more fails with "parse int error" at the literal |
| OuterAttr.SizeLimitShapes | resource-bound-derive/src/outer_attr.rs:41-63 | `size_limit` succeeds exactly for `= <integer literal>` whose digits fit in `usize`; a non-integer literal gets "only accepts integer literals" at the literal; a non-literal value or a non-name-value meta gets the usage text at the attribute |
| OuterAttr.AllowHeapRoundTrip | resource-bound-derive/src/outer_attr.rs:66-70 | `#[allow_heap = b]` sets the heap flag to `b` and changes nothing else |
| OuterAttr.AllowHeapShapes | resource-bound-derive/src/outer_attr.rs:66-84 | `allow_heap` succeeds exactly for `= <bool literal>`; every other shape fails with the usage text at the attribute |
| OuterAttr.FoldAttrs | resource-bound-derive/src/lib.rs:52-54 | the `for attr in &input.attrs` loop as a value: parses the attributes front to back and stops at the first error; `FoldAttrsSnoc`, `FoldAttrsFirstError` and `FoldAttrsLastWins` are proved about it |
| OuterAttr.FoldAttrsSnoc | resource-bound-derive/src/lib.rs:52-54 | folding one more attribute parses it in the state the earlier ones produced, unless they already failed |
| OuterAttr.FoldAttrsFirstError | resource-bound-derive/src/lib.rs:52-54 | the loop fails with `e` exactly when some attribute fails with `e` and every earlier one is valid; later attributes are never consulted |
| OuterAttr.FoldAttrsLastWins | resource-bound-derive/src/lib.rs:52-54 | after a successful loop, the limit and the flag are those of the last valid attribute of each key, or the starting values; no field type is added |
| Derive.LifetimeAttr.constructor | resource-bound-derive/src/lib.rs:58 | the lifetime map starts empty |
| Derive.BorrowedLifetimes | resource-bound-derive/src/lib.rs:150-173 | the lifetime map `map_fields` builds, as a value: each field type that is `&'a T` mapped to `'a`; `BorrowedLifetimesSpec` and `BorrowedLifetimesNonEmpty` characterise it |
| Derive.LifetimeNames | resource-bound-derive/src/lib.rs:100-104 | the lifetime parameters of the generics in declaration order; `LifetimeNamesAppend` and `LifetimeNamesMembers` characterise it |
| Derive.ConstName | resource-bound-derive/src/lib.rs:71 | `FIELD` followed by the upper-cased counter and the upper-cased struct name; `ConstNameInjective`, `FieldAssertionNamesDistinct` and `ConstNamesIgnoreCase` are proved about it |
| Derive.FnName | resource-bound-derive/src/lib.rs:73 | `assert_fn` followed by the counter and the lower-cased struct name; `FnNameInjective` and `FieldAssertionNamesDistinct` are proved about it |
| Derive.FieldAssertions | resource-bound-derive/src/lib.rs:67-83 | one assertion per field type, the i-th named from counter i + 1 and checking the i-th type; `FieldAsserts` is proved equal to it and `FieldAssertionNamesDistinct` is proved about it |
| Derive.ExpandStruct | resource-bound-derive/src/lib.rs:58-146 | the expansion of a struct after its attributes are folded: the size limit defaults to 0, the borrow rule applies unless heap use is allowed, and otherwise the plan is built; `ExpandFields` is proved against it |
| Derive.Expand | resource-bound-derive/src/lib.rs:27-147 | `expand_resource` as a value: refuses enums and unions, folds the attributes, then `ExpandStruct`; `ExpandRejectsNonStruct`, `ExpandStopsAtFirstBadAttribute`, `ExpandBorrowRule` and `ExpandPlan` characterise it, and `ExpandResource` is proved against it |
| Derive.MapFields | resource-bound-derive/src/lib.rs:150-173 | appends every field type in declaration order; adds each `&'a T` field type to the lifetime map with its lifetime; the record's limit and flag are unchanged |
| Derive.ParseOuterAttrs | resource-bound-derive/src/lib.rs:51-54 | a new record folded through all attributes: the result is exactly `FoldAttrs` from the initial record, including the first error |
| Derive.FieldAsserts | resource-bound-derive/src/lib.rs:67-83 | one assertion per collected type, in order, the i-th (from 1) named from counter i and the struct name |
| Derive.LifetimeParams | resource-bound-derive/src/lib.rs:100-104 | collects the lifetime parameters of the generics in order |
| Derive.BorrowError | resource-bound-derive/src/lib.rs:117-128 | the rule-1 error cites one entry of the lifetime map, at that field type, with a message built from its lifetime and the struct name |
| Derive.ExpandFields | resource-bound-derive/src/lib.rs:58-146 | after the attribute loop, returns the plan or the borrow error that `ExpandStruct` specifies |
| Derive.ExpandResource | resource-bound-derive/src/lib.rs:27-147 | returns exactly the plan `Expand` gives; on a rejection an error `Expand` allows (for the borrow rule, one citing some recorded field) |
| Derive.BorrowedLifetimesSpec | resource-bound-derive/src/lib.rs:155-164 | the recorded map's keys are exactly the field types that are references with an explicit lifetime, each mapped to that lifetime; references without a lifetime are not recorded |
| Derive.BorrowedLifetimesNonEmpty | resource-bound-derive/src/lib.rs:117 | the map is non-empty exactly when some field is `&'a T` |
| Derive.LifetimeNamesAppend | resource-bound-derive/src/lib.rs:100-104 | lifetime collection keeps declaration order: collecting a concatenation concatenates the results |
| Derive.LifetimeNamesMembers | resource-bound-derive/src/lib.rs:100-108 | a name is in the impl header's list exactly when it is a lifetime parameter of the struct |
| Derive.ExpandRejectsNonStruct | resource-bound-derive/src/lib.rs:31-45 | enums and unions give their error at the item, whatever the attributes hold |
| Derive.ExpandStopsAtFirstBadAttribute | resource-bound-derive/src/lib.rs:52-54 | the first invalid attribute's error is the expansion's error, and no plan is produced |
| Derive.ExpandBorrowRule | resource-bound-derive/src/lib.rs:117-129 | with valid attributes, the expansion fails exactly when heap use is not allowed and some field is `&'a T`; the rejection carries the whole map of such fields |
| Derive.ExpandPlan | resource-bound-derive/src/lib.rs:59-108 | a plan has the last valid size limit (0 if none) and the struct's lifetimes; with heap allowed it has no field assertion; otherwise it has one per field in field order, with counters 1..n |
| Derive.ConstNameInjective | resource-bound-derive/src/lib.rs:71 | two counters give the same `FIELD..` name for one struct only if they are equal |
| Derive.FnNameInjective | resource-bound-derive/src/lib.rs:73 | two counters give the same `assert_fn..` name for one struct only if they are equal |
| Derive.FieldAssertionNamesDistinct | resource-bound-derive/src/lib.rs:67-83 | within one struct no two generated constants and no two assertion functions share a name |
| Derive.ConstNamesIgnoreCase | resource-bound-derive/src/lib.rs:71-81 | the constant for field 1 of `Point` and of `POINT` is the same name: names are unique per struct, not across structs |
| Generated.SizeAssertionLength | resource-bound-derive/src/lib.rs:138-139 | the array length is 0 exactly when `size_of <= limit`; otherwise `0usize - 1` overflows |
| Generated.BuildPasses | resource-bound-derive/src/lib.rs:133-139 | the emitted block type-checks, and so the build succeeds, when every field assertion's type is `StackOnly` and the size array's length is 0; `BuildOutcome` restates it in terms of the input struct |
| Generated.BuildOutcome | resource-bound-derive/src/lib.rs:133-140 | an accepted struct builds iff its size is within the effective limit and, unless heap is allowed, every field type is `StackOnly` |
| Generated.UnsetLimitNeedsZeroSize | resource-bound-derive/src/lib.rs:59-62 | without a valid `size_limit`, only a zero-sized struct builds |
| Generated.OneIntFieldBuilds | resource-bound-core/src/lib.rs:17 | `#[size_limit = 4] struct Point { x: i32 }` of size 4 is accepted and builds |
| Generated.StringFieldFails | resource-bound-core/src/lib.rs:17-24 | with an `i32` and a `String` field, the `String` assertion fails, so the build fails whatever the size |
| Generated.BorrowedFieldNeedsHeap | test_only/src/main.rs:11-19 | the sample struct with `&'a str` is refused without `allow_heap = true`; with it, there is no field assertion, the header keeps `'a`, and it builds iff it fits in 524 bytes |

## Left out

- The `proc_macro`, `quote!` and `syn` plumbing is not modelled: token parsing, `to_compile_error` and `Ident` creation. The plan stands for the emitted tokens, and a type stands for its syntax tree.
- Spans are kept only as which node an error points at: the item, the attribute, the literal or the field type.
- `core::mem::size_of` and the host compiler's `StackOnly` trait solving are inputs (`sizeOfSelf`, `stackOnly`), not computed. `InAllowList` is an approximation: it matches types by their text, for the worked examples only.
- Derive.BorrowError: it does not say which borrowed field is cited. The source takes the first entry of a `HashMap` iterator, whose order is unspecified.
- Derive.MapFields: the source returns `syn::Result<()>`, but the value is always `Ok`. The model has no result, and the `?` at lib.rs:65 is dropped.
- Derive.FieldAsserts: the counter is an unbounded `nat`. The source's `field_ctr` is an `i32`, which overflows only past 2^31 - 1 fields.
- Text.ParseUsize: assumes a 64-bit `usize`.
- Generated.BuildOutcome: `FieldAssertionHolds` is only `stackOnly(ty)`. It does not capture two further ways the emitted const can fail to compile, because it sits at item scope, outside the impl. First, the bound is written as a bare `StackOnly`, which must be in scope where the derive is used. Second, a field type other than `&'a T` that names one of the struct's lifetimes (such as `Wrapper<'a>`) uses a lifetime that is undeclared there (E0261). In both cases the real build fails where the model says it passes.
- `syn::Ident::new` is not modelled, so the model does not capture its panic on a name that is not a plain identifier. For a raw-identifier struct such as `struct r#Foo`, `name.to_string()` is `"r#Foo"`, and building `FIELD1R#FOO` at lib.rs:71-74 panics whenever heap use is not allowed and the struct has a field. The model returns a plan there.
- The impl header carries only lifetime parameters. A struct with type or const parameters gets an impl the host compiler rejects; that rejection is not modelled.
- The older vendored `resource-bound-derive-0.1.2` copy (no borrow rule) is not part of this model. Neither is the re-export crate `resource-bound` or the `test_only` binary (beyond its sample struct).
