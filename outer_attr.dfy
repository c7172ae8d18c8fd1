/**
 * The attribute record of one derive invocation and the parser that folds a
 * single `#[size_limit = ..]` or `#[allow_heap = ..]` attribute into it.
 */
module OuterAttr {
  import opened Wrappers
  import opened Syntax
  import opened Text

  const SIZE_LIMIT_KEY := "size_limit"
  const ALLOW_HEAP_KEY := "allow_heap"

  const PARSE_INT_ERROR: Message := Fixed("parse int error")
  const SIZE_LIMIT_NOT_INT: Message := Fixed("#[size_limit] only accepts integer literals\n")
  const SIZE_LIMIT_USAGE: Message :=
    Fixed("invalid #[size_limit] attribute\nexpected: #[size_limit = <positive integer in bytes>]\nexample:  #[size_limit = 1024]")
  const ALLOW_HEAP_USAGE: Message :=
    Fixed("invalid #[allow_heap] attribute\nexpected: #[allow_heap = <bool>]\nexample:  #[allow_heap = true]")

  /** The contents of an `OuterAttributes` record, as a value. */
  datatype AttrState = AttrState(maxSize: Option<Usize>, allowHeap: bool, fieldTypes: seq<Ty>)

  /** What `OuterAttributes::new()` holds. */
  const Initial := AttrState(None, false, [])

  class OuterAttributes {
    var maxSize: Option<Usize>
    var allowHeap: bool
    var fieldTypes: seq<Ty>

    function State(): AttrState
      reads this
    {
      AttrState(maxSize, allowHeap, fieldTypes)
    }

    /** `OuterAttributes::new`: no limit, heap not allowed, no types. */
    constructor ()
      ensures State() == Initial
    {
      maxSize, allowHeap, fieldTypes := None, false, [];
    }

    method SetMaxSize(value: Usize)
      modifies this
      ensures State() == old(State()).(maxSize := Some(value))
    {
      maxSize := Some(value);
    }

    method SetHeapAllo(value: bool)
      modifies this
      ensures State() == old(State()).(allowHeap := value)
    {
      allowHeap := value;
    }

    /** The recorded limit, as `State` reports it. */
    function GetMaxSize(): (r: Option<Usize>)
      reads this
      ensures r == State().maxSize
    {
      maxSize
    }

    /** The recorded heap flag, as `State` reports it. */
    function GetHeapAllo(): (r: bool)
      reads this
      ensures r == State().allowHeap
    {
      allowHeap
    }

    /** Appends `value`; the limit and the heap flag stay as they were. */
    method PushType(value: Ty)
      modifies this
      ensures State() == old(State()).(fieldTypes := old(fieldTypes) + [value])
    {
      fieldTypes := fieldTypes + [value];
    }

    /** The recorded field types, in push order, as `State` reports them. */
    function GetTypes(): (r: seq<Ty>)
      reads this
      ensures r == State().fieldTypes
    {
      fieldTypes
    }
  }

  /** What one attribute asks of the record once it has been validated. */
  datatype Directive = Ignore | SetLimit(limit: Usize) | SetHeap(allow: bool)

  /**
   * The decision `parse_struct_attrs` takes about one attribute: validate its
   * shape for a recognised key, or ignore any other attribute.
   */
  function Interpret(attr: Attribute): Result<Directive, Diagnostic> {
    if IsIdent(attr.path, SIZE_LIMIT_KEY) then
      match attr.meta
      case NameValue(LitExpr(IntLit(digits))) =>
        (match ParseUsize(digits)
         case Some(n) => Ok(SetLimit(n))
         case None => Err(Diagnostic(LitSpan(IntLit(digits)), PARSE_INT_ERROR)))
      case NameValue(LitExpr(lit)) => Err(Diagnostic(LitSpan(lit), SIZE_LIMIT_NOT_INT))
      case _ => Err(Diagnostic(AttrSpan(attr), SIZE_LIMIT_USAGE))
    else if IsIdent(attr.path, ALLOW_HEAP_KEY) then
      match attr.meta
      case NameValue(LitExpr(BoolLit(b))) => Ok(SetHeap(b))
      case _ => Err(Diagnostic(AttrSpan(attr), ALLOW_HEAP_USAGE))
    else
      Ok(Ignore)
  }

  function Apply(s: AttrState, d: Directive): AttrState {
    match d
    case Ignore => s
    case SetLimit(n) => s.(maxSize := Some(n))
    case SetHeap(b) => s.(allowHeap := b)
  }

  /** The record after `parse_struct_attrs(&mut s, attr)`, or its error. */
  function ParseAttr(s: AttrState, attr: Attribute): (r: Result<AttrState, Diagnostic>)
    ensures r.Ok? ==> r.value.fieldTypes == s.fieldTypes
  {
    match Interpret(attr)
    case Ok(d) => Ok(Apply(s, d))
    case Err(e) => Err(e)
  }

  /**
   * `parse_struct_attrs`: validates the attribute first and only then calls a
   * setter, so an error leaves the record as it was.
   */
  method ParseStructAttrs(structAttr: OuterAttributes, attr: Attribute) returns (r: Outcome<Diagnostic>)
    modifies structAttr
    ensures r.Pass? ==> ParseAttr(old(structAttr.State()), attr) == Ok(structAttr.State())
    ensures r.Fail? ==> ParseAttr(old(structAttr.State()), attr) == Err(r.error)
    ensures r.Fail? ==> structAttr.State() == old(structAttr.State())
  {
    if IsIdent(attr.path, SIZE_LIMIT_KEY) {
      match attr.meta {
        case NameValue(value) =>
          if value.LitExpr? {
            if value.lit.IntLit? {
              var parsed := ParseUsize(value.lit.digits);
              var sizeLimit;
              match parsed {
                case Some(n) => sizeLimit := n;
                case None => return Fail(Diagnostic(LitSpan(value.lit), PARSE_INT_ERROR));
              }
              structAttr.SetMaxSize(sizeLimit);
            } else {
              return Fail(Diagnostic(LitSpan(value.lit), SIZE_LIMIT_NOT_INT));
            }
          } else {
            return Fail(Diagnostic(AttrSpan(attr), SIZE_LIMIT_USAGE));
          }
        case _ =>
          return Fail(Diagnostic(AttrSpan(attr), SIZE_LIMIT_USAGE));
      }
    } else if IsIdent(attr.path, ALLOW_HEAP_KEY) {
      match attr.meta {
        case NameValue(value) =>
          if value.LitExpr? {
            if value.lit.BoolLit? {
              structAttr.SetHeapAllo(value.lit.value);
            } else {
              return Fail(Diagnostic(AttrSpan(attr), ALLOW_HEAP_USAGE));
            }
          } else {
            return Fail(Diagnostic(AttrSpan(attr), ALLOW_HEAP_USAGE));
          }
        case _ =>
          return Fail(Diagnostic(AttrSpan(attr), ALLOW_HEAP_USAGE));
      }
    }
    return Pass;
  }

  /** The `for attr in &input.attrs { parse_struct_attrs(..)?; }` loop: stops at the first error. */
  function FoldAttrs(s: AttrState, attrs: seq<Attribute>): Result<AttrState, Diagnostic>
    decreases |attrs|
  {
    if attrs == [] then Ok(s)
    else
      match ParseAttr(s, attrs[0])
      case Err(e) => Err(e)
      case Ok(s') => FoldAttrs(s', attrs[1..])
  }

  // ---------------------------------------------------------------------------
  // Reference definitions, read from the last attribute backwards.

  /** The limit set by the last `size_limit` attribute, or `dflt` if there is none. */
  function LastLimit(attrs: seq<Attribute>, dflt: Option<Usize>): Option<Usize>
    decreases |attrs|
  {
    if attrs == [] then dflt
    else
      match Interpret(attrs[|attrs| - 1])
      case Ok(SetLimit(n)) => Some(n)
      case _ => LastLimit(attrs[..|attrs| - 1], dflt)
  }

  /** The flag set by the last `allow_heap` attribute, or `dflt` if there is none. */
  function LastHeap(attrs: seq<Attribute>, dflt: bool): bool
    decreases |attrs|
  {
    if attrs == [] then dflt
    else
      match Interpret(attrs[|attrs| - 1])
      case Ok(SetHeap(b)) => b
      case _ => LastHeap(attrs[..|attrs| - 1], dflt)
  }

  /** `#[size_limit = n]` written with `n` in decimal. */
  function SizeLimitAttr(n: nat): Attribute {
    Attribute([SIZE_LIMIT_KEY], NameValue(LitExpr(IntLit(ToDecimal(n)))))
  }

  /** `#[allow_heap = b]`. */
  function AllowHeapAttr(b: bool): Attribute {
    Attribute([ALLOW_HEAP_KEY], NameValue(LitExpr(BoolLit(b))))
  }

  // ---------------------------------------------------------------------------
  // Properties of one attribute.

  /** An attribute with any other path is accepted and changes nothing. */
  lemma OtherAttributeIgnored(s: AttrState, attr: Attribute)
    requires !IsIdent(attr.path, SIZE_LIMIT_KEY) && !IsIdent(attr.path, ALLOW_HEAP_KEY)
    ensures ParseAttr(s, attr) == Ok(s)
  {
  }

  /** Writing a limit that fits in `usize` sets exactly that limit and nothing else. */
  lemma SizeLimitRoundTrip(s: AttrState, n: Usize)
    ensures ParseAttr(s, SizeLimitAttr(n)) == Ok(s.(maxSize := Some(n)))
  {
    ParseUsizeOfToDecimal(n);
  }

  /** A limit beyond `usize::MAX` is reported as "parse int error" at the literal. */
  lemma SizeLimitOverflow(s: AttrState, n: nat)
    requires n >= USIZE_BOUND
    ensures ParseAttr(s, SizeLimitAttr(n)) == Err(Diagnostic(LitSpan(IntLit(ToDecimal(n))), PARSE_INT_ERROR))
  {
    ParseUsizeOfToDecimal(n);
  }

  /** `size_limit` accepts only `key = <integer literal>`; every other shape is rejected. */
  lemma SizeLimitShapes(s: AttrState, attr: Attribute)
    requires IsIdent(attr.path, SIZE_LIMIT_KEY)
    ensures !(attr.meta.NameValue? && attr.meta.value.LitExpr?) ==>
              ParseAttr(s, attr) == Err(Diagnostic(AttrSpan(attr), SIZE_LIMIT_USAGE))
    ensures attr.meta.NameValue? && attr.meta.value.LitExpr? && !attr.meta.value.lit.IntLit? ==>
              ParseAttr(s, attr) == Err(Diagnostic(LitSpan(attr.meta.value.lit), SIZE_LIMIT_NOT_INT))
    ensures ParseAttr(s, attr).Ok? <==>
              attr.meta.NameValue? && attr.meta.value.LitExpr? && attr.meta.value.lit.IntLit? &&
              ParseUsize(attr.meta.value.lit.digits).Some?
  {
  }

  /** Writing a boolean sets exactly that flag and nothing else. */
  lemma AllowHeapRoundTrip(s: AttrState, b: bool)
    ensures ParseAttr(s, AllowHeapAttr(b)) == Ok(s.(allowHeap := b))
  {
  }

  /** `allow_heap` accepts only `key = <bool literal>`; every other shape is rejected with the usage text. */
  lemma AllowHeapShapes(s: AttrState, attr: Attribute)
    requires IsIdent(attr.path, ALLOW_HEAP_KEY)
    ensures ParseAttr(s, attr).Ok? <==> attr.meta.NameValue? && attr.meta.value.LitExpr? && attr.meta.value.lit.BoolLit?
    ensures ParseAttr(s, attr).Err? ==> ParseAttr(s, attr) == Err(Diagnostic(AttrSpan(attr), ALLOW_HEAP_USAGE))
  {
  }

  // ---------------------------------------------------------------------------
  // Properties of the attribute loop.

  /** Folding `attrs + [a]` is folding `attrs`, then parsing `a`. */
  lemma {:induction false} FoldAttrsSnoc(s: AttrState, attrs: seq<Attribute>, a: Attribute)
    ensures FoldAttrs(s, attrs + [a]) ==
              match FoldAttrs(s, attrs)
              case Err(e) => Err(e)
              case Ok(t) => ParseAttr(t, a)
    decreases |attrs|
  {
    if attrs == [] {
      assert attrs + [a] == [a];
      assert [a][1..] == [];
    } else {
      assert (attrs + [a])[0] == attrs[0];
      assert (attrs + [a])[1..] == attrs[1..] + [a];
      match ParseAttr(s, attrs[0])
      case Err(e) =>
      case Ok(s') => FoldAttrsSnoc(s', attrs[1..], a);
    }
  }

  /**
   * The fold fails exactly when some attribute is invalid, and then with the
   * error of the first invalid one; attributes after it are never looked at.
   */
  lemma {:induction false} FoldAttrsFirstError(s: AttrState, attrs: seq<Attribute>, e: Diagnostic)
    ensures FoldAttrs(s, attrs) == Err(e) <==>
              exists k :: 0 <= k < |attrs| && Interpret(attrs[k]) == Err(e) &&
                          forall j :: 0 <= j < k ==> Interpret(attrs[j]).Ok?
    decreases |attrs|
  {
    if attrs != [] {
      match ParseAttr(s, attrs[0])
      case Err(e0) =>
      case Ok(s') =>
        FoldAttrsFirstError(s', attrs[1..], e);
        if FoldAttrs(s, attrs) == Err(e) {
          var k :| 0 <= k < |attrs[1..]| && Interpret(attrs[1..][k]) == Err(e) &&
                   forall j :: 0 <= j < k ==> Interpret(attrs[1..][j]).Ok?;
          assert Interpret(attrs[k + 1]) == Err(e);
          assert forall j :: 0 <= j < k + 1 ==> Interpret(attrs[j]).Ok? by {
            forall j | 0 <= j < k + 1
              ensures Interpret(attrs[j]).Ok?
            {
              if j > 0 {
                assert attrs[j] == attrs[1..][j - 1];
              }
            }
          }
        }
        if exists k :: 0 <= k < |attrs| && Interpret(attrs[k]) == Err(e) &&
                       forall j :: 0 <= j < k ==> Interpret(attrs[j]).Ok? {
          var k :| 0 <= k < |attrs| && Interpret(attrs[k]) == Err(e) &&
                   forall j :: 0 <= j < k ==> Interpret(attrs[j]).Ok?;
          assert k > 0;
          assert Interpret(attrs[1..][k - 1]) == Err(e);
          assert forall j :: 0 <= j < k - 1 ==> Interpret(attrs[1..][j]).Ok? by {
            forall j | 0 <= j < k - 1
              ensures Interpret(attrs[1..][j]).Ok?
            {
              assert attrs[1..][j] == attrs[j + 1];
            }
          }
        }
    }
  }

  /**
   * On success the last valid attribute of each key wins, a key that never
   * appears keeps its starting value, and no field type is added.
   */
  lemma {:induction false} FoldAttrsLastWins(s: AttrState, attrs: seq<Attribute>, t: AttrState)
    requires FoldAttrs(s, attrs) == Ok(t)
    ensures t.maxSize == LastLimit(attrs, s.maxSize)
    ensures t.allowHeap == LastHeap(attrs, s.allowHeap)
    ensures t.fieldTypes == s.fieldTypes
    decreases |attrs|
  {
    if attrs != [] {
      var init, a := attrs[..|attrs| - 1], attrs[|attrs| - 1];
      assert attrs == init + [a];
      FoldAttrsSnoc(s, init, a);
      match FoldAttrs(s, init)
      case Err(e) =>
      case Ok(u) =>
        FoldAttrsLastWins(s, init, u);
    }
  }
}
