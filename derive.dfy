/**
 * The `ResourceBound` expansion: target check, attribute loop, size-limit
 * default, field collection, the borrow rule, and the plan of generated items.
 */
module Derive {
  import opened Wrappers
  import opened Syntax
  import opened Text
  import opened OuterAttr

  const ENUM_REJECTED := Fixed("ResourceBound cannot be derived for enums")
  const UNION_REJECTED := Fixed("ResourceBound cannot be derived for unions")

  /** The HashMap from a borrowed field type to its lifetime, filled by `map_fields`. */
  class LifetimeAttr {
    var lt: map<Ty, string>

    constructor ()
      ensures lt == map[]
    {
      lt := map[];
    }
  }

  /** One generated `const FIELD<i><NAME>: () = { const fn assert_fn<i><name><T: StackOnly>(){}; ... }`. */
  datatype FieldAssertion = FieldAssertion(constName: string, fnName: string, ty: Ty)

  /** The generated code: per-field assertions, one size assertion, and the impl header's lifetimes. */
  datatype Plan = Plan(fieldAsserts: seq<FieldAssertion>, typeName: string, implLifetimes: seq<string>, sizeLimit: Usize)

  /**
   * Why the expansion stops. The borrow rule reports one entry of the map of
   * borrowed field types, which one is left open (HashMap iteration order).
   */
  datatype Rejection = Fatal(d: Diagnostic) | Borrowed(offenders: map<Ty, string>)

  /** `d` is a diagnostic the source may emit for rejection `rej` of struct `name`. */
  ghost predicate Reports(rej: Rejection, name: string, d: Diagnostic) {
    match rej
    case Fatal(e) => d == e
    case Borrowed(offenders) =>
      exists t :: t in offenders && d == Diagnostic(TypeSpan(t), BorrowRule(offenders[t], name))
  }

  // ---------------------------------------------------------------------------
  // Specification functions.

  predicate IsLifetimeRef(t: Ty) {
    t.Reference? && t.lifetime.Some?
  }

  /** The field types in declaration order. */
  function FieldTypes(fields: seq<Field>): seq<Ty> {
    seq(|fields|, i requires 0 <= i < |fields| => fields[i].ty)
  }

  /** The map `map_fields` builds: each `&'a T` field type to its lifetime. */
  function BorrowedLifetimes(fields: seq<Field>): map<Ty, string>
    decreases |fields|
  {
    if fields == [] then map[]
    else
      var ty := fields[|fields| - 1].ty;
      var rest := BorrowedLifetimes(fields[..|fields| - 1]);
      if IsLifetimeRef(ty) then rest[ty := ty.lifetime.value] else rest
  }

  /** The lifetime parameters among the generics, in declaration order. */
  function LifetimeNames(generics: seq<GenericParam>): seq<string>
    decreases |generics|
  {
    if generics == [] then []
    else
      var g := generics[|generics| - 1];
      LifetimeNames(generics[..|generics| - 1]) + (if g.LifetimeParam? then [g.lifetime] else [])
  }

  /** `"FIELD" + ctr.to_string().to_ascii_uppercase() + name.to_ascii_uppercase()`. */
  function ConstName(ctr: nat, name: string): string {
    "FIELD" + AsciiUpper(ToDecimal(ctr)) + AsciiUpper(name)
  }

  /** `"assert_fn" + ctr.to_string() + name.to_ascii_lowercase()`. */
  function FnName(ctr: nat, name: string): string {
    "assert_fn" + ToDecimal(ctr) + AsciiLower(name)
  }

  /** The assertion made for the field type numbered `ctr` (counting from 1). */
  function MakeAssertion(ctr: nat, name: string, ty: Ty): FieldAssertion {
    FieldAssertion(ConstName(ctr, name), FnName(ctr, name), ty)
  }

  function FieldAssertions(types: seq<Ty>, name: string): seq<FieldAssertion> {
    seq(|types|, i requires 0 <= i < |types| => MakeAssertion(i + 1, name, types[i]))
  }

  /** `expand_resource`, with the choice of cited borrowed field left open. */
  function Expand(input: DeriveInput): Result<Plan, Rejection> {
    match input.data
    case Enum => Err(Fatal(Diagnostic(InputSpan, ENUM_REJECTED)))
    case Union => Err(Fatal(Diagnostic(InputSpan, UNION_REJECTED)))
    case Struct(fields) =>
      match FoldAttrs(Initial, input.attrs)
      case Err(e) => Err(Fatal(e))
      case Ok(cfg) => ExpandStruct(input.ident, input.generics, fields, cfg)
  }

  /** The rest of `expand_resource` for a struct whose attributes parsed to `cfg`. */
  function ExpandStruct(name: string, generics: seq<GenericParam>, fields: seq<Field>, cfg: AttrState): Result<Plan, Rejection> {
    var sizeLimit: Usize := match cfg.maxSize case Some(n) => n case None => 0;
    var types := if cfg.allowHeap then [] else FieldTypes(fields);
    var borrowed := if cfg.allowHeap then map[] else BorrowedLifetimes(fields);
    if |borrowed| > 0 && !cfg.allowHeap then Err(Borrowed(borrowed))
    else
      var asserts := if !cfg.allowHeap then FieldAssertions(types, name) else [];
      Ok(Plan(asserts, name, LifetimeNames(generics), sizeLimit))
  }

  // ---------------------------------------------------------------------------
  // The imperative pipeline.

  /** `map_fields`: records every field type in order, and the lifetime of every `&'a T` field. */
  method MapFields(fields: seq<Field>, mutable: OuterAttributes, fieldAttr: LifetimeAttr)
    modifies mutable, fieldAttr
    ensures mutable.State() == old(mutable.State()).(fieldTypes := old(mutable.fieldTypes) + FieldTypes(fields))
    ensures fieldAttr.lt == old(fieldAttr.lt) + BorrowedLifetimes(fields)
  {
    for i := 0 to |fields|
      invariant mutable.State() == old(mutable.State()).(fieldTypes := old(mutable.fieldTypes) + FieldTypes(fields[..i]))
      invariant fieldAttr.lt == old(fieldAttr.lt) + BorrowedLifetimes(fields[..i])
    {
      var ty := fields[i].ty;
      assert fields[..i + 1][..i] == fields[..i];
      assert FieldTypes(fields[..i + 1]) == FieldTypes(fields[..i]) + [ty];
      mutable.PushType(ty);
      match ty {
        case Reference(lifetime, _, _) =>
          match lifetime {
            case Some(lt) => fieldAttr.lt := fieldAttr.lt[ty := lt];
            case None =>
          }
        case _ =>
      }
    }
    assert fields[..|fields|] == fields;
  }

  /** The `for attr in &input.attrs { parse_struct_attrs(&mut outer_attrs, attr)?; }` loop on a new record. */
  method ParseOuterAttrs(attrs: seq<Attribute>) returns (outerAttrs: OuterAttributes, r: Outcome<Diagnostic>)
    ensures fresh(outerAttrs)
    ensures r.Pass? ==> FoldAttrs(Initial, attrs) == Ok(outerAttrs.State())
    ensures r.Fail? ==> FoldAttrs(Initial, attrs) == Err(r.error)
  {
    outerAttrs := new OuterAttributes();
    for k := 0 to |attrs|
      invariant FoldAttrs(Initial, attrs) == FoldAttrs(outerAttrs.State(), attrs[k..])
    {
      assert attrs[k..][1..] == attrs[k + 1..];
      r := ParseStructAttrs(outerAttrs, attrs[k]);
      if r.Fail? {
        return;
      }
    }
    assert attrs[|attrs|..] == [];
    r := Pass;
  }

  /** The `field_types.iter().map(..)` closure: bumps `field_ctr` and names one assertion per type. */
  method FieldAsserts(fieldTypes: seq<Ty>, name: string) returns (fieldAssert: seq<FieldAssertion>)
    ensures fieldAssert == FieldAssertions(fieldTypes, name)
  {
    var fieldCtr := 0;
    fieldAssert := [];
    for i := 0 to |fieldTypes|
      invariant fieldCtr == i
      invariant |fieldAssert| == i
      invariant forall j :: 0 <= j < i ==> fieldAssert[j] == MakeAssertion(j + 1, name, fieldTypes[j])
    {
      fieldCtr := fieldCtr + 1;
      fieldAssert := fieldAssert + [MakeAssertion(fieldCtr, name, fieldTypes[i])];
    }
  }

  /** `input.generics.lifetimes().for_each(|lt| lifetimes_names.push(..))`. */
  method LifetimeParams(generics: seq<GenericParam>) returns (lifetimesNames: seq<string>)
    ensures lifetimesNames == LifetimeNames(generics)
  {
    lifetimesNames := [];
    for j := 0 to |generics|
      invariant lifetimesNames == LifetimeNames(generics[..j])
    {
      assert generics[..j + 1][..j] == generics[..j];
      if generics[j].LifetimeParam? {
        lifetimesNames := lifetimesNames + [generics[j].lifetime];
      }
    }
    assert generics[..|generics|] == generics;
  }

  /**
   * Rule 1 (`&'a T` needs `allow_heap=true`): the error built from one entry
   * of the recorded map, as `lt.iter().next().unwrap()` picks it.
   */
  method BorrowError(lt: map<Ty, string>, name: string) returns (e: Diagnostic)
    requires |lt| > 0
    ensures Reports(Borrowed(lt), name, e)
  {
    var unsolvedType :| unsolvedType in lt;
    var unsolvedLt := lt[unsolvedType];
    e := Diagnostic(TypeSpan(unsolvedType), BorrowRule(unsolvedLt, name));
  }

  /**
   * `expand_resource` from the size-limit default on, for struct `name` whose
   * attributes have been folded into `outerAttrs`.
   */
  method ExpandFields(name: string, generics: seq<GenericParam>, fields: seq<Field>, outerAttrs: OuterAttributes)
    returns (r: Result<Plan, Diagnostic>)
    requires outerAttrs.fieldTypes == []
    modifies outerAttrs
    ensures ExpandStruct(name, generics, fields, old(outerAttrs.State())).Ok? ==>
              r == Ok(ExpandStruct(name, generics, fields, old(outerAttrs.State())).value)
    ensures ExpandStruct(name, generics, fields, old(outerAttrs.State())).Err? ==>
              r.Err? && Reports(ExpandStruct(name, generics, fields, old(outerAttrs.State())).error, name, r.error)
  {
    ghost var allowHeap := outerAttrs.allowHeap;
    ghost var limit: Usize := match outerAttrs.maxSize case Some(n) => n case None => 0;
    ghost var types := if allowHeap then [] else FieldTypes(fields);
    ghost var borrowed := if allowHeap then map[] else BorrowedLifetimes(fields);
    // Unfolding `ExpandStruct` once here keeps the proof within the solver's resource limit.
    assert ExpandStruct(name, generics, fields, outerAttrs.State())
        == if |borrowed| > 0 && !allowHeap then Err(Borrowed(borrowed))
           else Ok(Plan(if !allowHeap then FieldAssertions(types, name) else [], name, LifetimeNames(generics), limit));
    var lifetimeAttr := new LifetimeAttr();
    var sizeLimit: Usize := match outerAttrs.GetMaxSize() case Some(s) => s case None => 0;
    var heapPermission := outerAttrs.GetHeapAllo();
    if !heapPermission {
      MapFields(fields, outerAttrs, lifetimeAttr);
      assert outerAttrs.fieldTypes == FieldTypes(fields);
      assert lifetimeAttr.lt == BorrowedLifetimes(fields);
    }
    var fieldTypes := outerAttrs.GetTypes();
    assert fieldTypes == types && lifetimeAttr.lt == borrowed && sizeLimit == limit;
    var fieldAssert := FieldAsserts(fieldTypes, name);
    var heapAssertCode := if !heapPermission then fieldAssert else [];

    var lifetimesNames := LifetimeParams(generics);
    assert heapAssertCode == if !allowHeap then FieldAssertions(types, name) else [];

    if |lifetimeAttr.lt| > 0 && !heapPermission {
      var e := BorrowError(lifetimeAttr.lt, name);
      return Err(e);
    }

    r := Ok(Plan(heapAssertCode, name, lifetimesNames, sizeLimit));
  }

  /**
   * `expand_resource`: the same result as `Expand`, and on a borrow-rule
   * rejection a diagnostic citing one of the borrowed field types.
   */
  method ExpandResource(input: DeriveInput) returns (r: Result<Plan, Diagnostic>)
    ensures Expand(input).Ok? ==> r == Ok(Expand(input).value)
    ensures Expand(input).Err? ==> r.Err? && Reports(Expand(input).error, input.ident, r.error)
  {
    var fields;
    match input.data {
      case Struct(fs) => fields := fs;
      case Enum => return Err(Diagnostic(InputSpan, ENUM_REJECTED));
      case Union => return Err(Diagnostic(InputSpan, UNION_REJECTED));
    }

    var outerAttrs, parsed := ParseOuterAttrs(input.attrs);
    if parsed.Fail? {
      return Err(parsed.error);
    }
    FoldAttrsLastWins(Initial, input.attrs, outerAttrs.State());
    r := ExpandFields(input.ident, input.generics, fields, outerAttrs);
  }

  // ---------------------------------------------------------------------------
  // Properties of the expansion.

  /** The effective size limit: the last valid `size_limit`, or 0 when there is none. */
  function EffectiveLimit(attrs: seq<Attribute>): Usize {
    match LastLimit(attrs, None)
    case Some(n) => n
    case None => 0
  }

  /** Whether the last valid `allow_heap` says `true` (false when there is none). */
  function AllowsHeap(attrs: seq<Attribute>): bool {
    LastHeap(attrs, false)
  }

  /** The recorded map holds exactly the `&'a T` field types, each with its own lifetime. */
  lemma {:induction false} BorrowedLifetimesSpec(fields: seq<Field>)
    ensures forall t :: t in BorrowedLifetimes(fields) <==>
                          IsLifetimeRef(t) && exists i :: 0 <= i < |fields| && fields[i].ty == t
    ensures forall t :: t in BorrowedLifetimes(fields) ==> IsLifetimeRef(t) && BorrowedLifetimes(fields)[t] == t.lifetime.value
    decreases |fields|
  {
    if fields != [] {
      var init := fields[..|fields| - 1];
      BorrowedLifetimesSpec(init);
      forall t | IsLifetimeRef(t) && exists i :: 0 <= i < |fields| && fields[i].ty == t
        ensures t in BorrowedLifetimes(fields)
      {
        var i :| 0 <= i < |fields| && fields[i].ty == t;
        if i < |fields| - 1 {
          assert init[i].ty == t;
        }
      }
      forall t | t in BorrowedLifetimes(fields)
        ensures exists i :: 0 <= i < |fields| && fields[i].ty == t
      {
        if t != fields[|fields| - 1].ty {
          var i :| 0 <= i < |init| && init[i].ty == t;
          assert fields[i].ty == t;
        }
      }
    }
  }

  /** The map is non-empty exactly when some field is a reference with an explicit lifetime. */
  lemma BorrowedLifetimesNonEmpty(fields: seq<Field>)
    ensures |BorrowedLifetimes(fields)| > 0 <==> exists i :: 0 <= i < |fields| && IsLifetimeRef(fields[i].ty)
  {
    BorrowedLifetimesSpec(fields);
  }

  /** Collecting lifetimes keeps the order of the generics: collecting a concatenation concatenates. */
  lemma {:induction false} LifetimeNamesAppend(g1: seq<GenericParam>, g2: seq<GenericParam>)
    ensures LifetimeNames(g1 + g2) == LifetimeNames(g1) + LifetimeNames(g2)
    decreases |g2|
  {
    if g2 == [] {
      assert g1 + g2 == g1;
    } else {
      var init := g2[..|g2| - 1];
      assert (g1 + g2)[..|g1 + g2| - 1] == g1 + init;
      LifetimeNamesAppend(g1, init);
    }
  }

  /** The impl header lists exactly the struct's lifetime parameters. */
  lemma {:induction false} LifetimeNamesMembers(generics: seq<GenericParam>, l: string)
    ensures l in LifetimeNames(generics) <==> LifetimeParam(l) in generics
    decreases |generics|
  {
    if generics != [] {
      var init := generics[..|generics| - 1];
      assert generics == init + [generics[|generics| - 1]];
      LifetimeNamesMembers(init, l);
    }
  }

  /** Enums and unions are refused before any attribute is read, whatever the attributes hold. */
  lemma ExpandRejectsNonStruct(input: DeriveInput)
    requires !input.data.Struct?
    ensures Expand(input) == Err(Fatal(Diagnostic(InputSpan, if input.data.Enum? then ENUM_REJECTED else UNION_REJECTED)))
    ensures forall attrs :: Expand(input.(attrs := attrs)) == Expand(input)
  {
  }

  /** The first invalid attribute's error is the expansion's error; nothing is generated. */
  lemma ExpandStopsAtFirstBadAttribute(input: DeriveInput, k: nat)
    requires input.data.Struct?
    requires k < |input.attrs| && Interpret(input.attrs[k]).Err?
    requires forall j :: 0 <= j < k ==> Interpret(input.attrs[j]).Ok?
    ensures Expand(input) == Err(Fatal(Interpret(input.attrs[k]).error))
  {
    FoldAttrsFirstError(Initial, input.attrs, Interpret(input.attrs[k]).error);
  }

  /**
   * Once the attributes are valid, a struct is refused exactly when heap use
   * is not allowed and some field is a reference with an explicit lifetime.
   */
  lemma ExpandBorrowRule(input: DeriveInput)
    requires input.data.Struct? && FoldAttrs(Initial, input.attrs).Ok?
    ensures Expand(input).Err? <==>
              !AllowsHeap(input.attrs) &&
              exists i :: 0 <= i < |input.data.fields| && IsLifetimeRef(input.data.fields[i].ty)
    ensures Expand(input).Err? ==> Expand(input).error == Borrowed(BorrowedLifetimes(input.data.fields))
  {
    FoldAttrsLastWins(Initial, input.attrs, FoldAttrs(Initial, input.attrs).value);
    BorrowedLifetimesNonEmpty(input.data.fields);
  }

  /**
   * A successful plan: the limit of the last `size_limit` (0 if none), one
   * assertion per field in field order numbered from 1 when heap use is not
   * allowed and none otherwise, and the struct's lifetimes.
   */
  lemma ExpandPlan(input: DeriveInput)
    requires Expand(input).Ok?
    ensures input.data.Struct?
    ensures var plan := Expand(input).value;
            && plan.typeName == input.ident
            && plan.sizeLimit == EffectiveLimit(input.attrs)
            && plan.implLifetimes == LifetimeNames(input.generics)
            && (AllowsHeap(input.attrs) ==> plan.fieldAsserts == [])
            && (!AllowsHeap(input.attrs) ==>
                  |plan.fieldAsserts| == |input.data.fields| &&
                  forall i :: 0 <= i < |input.data.fields| ==>
                    plan.fieldAsserts[i] == FieldAssertion(ConstName(i + 1, input.ident), FnName(i + 1, input.ident), input.data.fields[i].ty))
  {
    FoldAttrsLastWins(Initial, input.attrs, FoldAttrs(Initial, input.attrs).value);
  }

  /** Distinct counters give distinct constant names for the same struct. */
  lemma ConstNameInjective(i: nat, j: nat, name: string)
    requires ConstName(i, name) == ConstName(j, name)
    ensures i == j
  {
    AsciiUpperKeepsDigits(ToDecimal(i));
    AsciiUpperKeepsDigits(ToDecimal(j));
    var a, b, u := "FIELD" + ToDecimal(i), "FIELD" + ToDecimal(j), AsciiUpper(name);
    assert a + u == b + u;
    assert |a| == |b|;
    assert a == (a + u)[..|a|] == (b + u)[..|b|] == b;
    assert ToDecimal(i) == a[5..] == b[5..] == ToDecimal(j);
    ToDecimalInjective(i, j);
  }

  /** Distinct counters give distinct assertion-function names for the same struct. */
  lemma FnNameInjective(i: nat, j: nat, name: string)
    requires FnName(i, name) == FnName(j, name)
    ensures i == j
  {
    var a, b, l := "assert_fn" + ToDecimal(i), "assert_fn" + ToDecimal(j), AsciiLower(name);
    assert a + l == b + l;
    assert a == (a + l)[..|a|] == (b + l)[..|b|] == b;
    assert ToDecimal(i) == a[9..] == b[9..] == ToDecimal(j);
    ToDecimalInjective(i, j);
  }

  /** Within one struct, no two generated constants and no two assertion functions share a name. */
  lemma FieldAssertionNamesDistinct(types: seq<Ty>, name: string)
    ensures forall i, j :: 0 <= i < j < |FieldAssertions(types, name)| ==>
              FieldAssertions(types, name)[i].constName != FieldAssertions(types, name)[j].constName &&
              FieldAssertions(types, name)[i].fnName != FieldAssertions(types, name)[j].fnName
  {
    var asserts := FieldAssertions(types, name);
    forall i, j | 0 <= i < j < |asserts|
      ensures asserts[i].constName != asserts[j].constName && asserts[i].fnName != asserts[j].fnName
    {
      if ConstName(i + 1, name) == ConstName(j + 1, name) {
        ConstNameInjective(i + 1, j + 1, name);
      }
      if FnName(i + 1, name) == FnName(j + 1, name) {
        FnNameInjective(i + 1, j + 1, name);
      }
    }
  }

  /**
   * The constants are emitted next to the struct, outside its impl block:
   * structs whose names differ only in case emit the same constant name.
   */
  lemma ConstNamesIgnoreCase()
    ensures ConstName(1, "Point") == ConstName(1, "POINT")
  {
  }
}
