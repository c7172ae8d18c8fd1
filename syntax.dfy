/**
 * The part of the parsed Rust item that the derive inspects, as plain values.
 * Tokens, spans and identifiers are reduced to strings; only the shapes the
 * derive distinguishes are kept apart.
 */
module Syntax {
  import opened Wrappers

  /** A field type. */
  datatype Ty =
    | Path(path: string)                                            // i32, String, Vec<u8>, Option<&'a T>, ...
    | Reference(lifetime: Option<string>, mutable: bool, elem: Ty)  // &'a T, &T, &'a mut T
    | Tuple(elems: seq<Ty>)                                         // (), (A, B)
    | OtherTy(text: string)                                         // arrays, slices, fn pointers, ...

  /** A literal token. */
  datatype Lit =
    | IntLit(digits: string)    // the literal's value written in base 10, suffix and underscores removed
    | BoolLit(value: bool)
    | OtherLit(text: string)    // string, char, float, byte literals

  /** The right-hand side of `key = value`. */
  datatype Expr = LitExpr(lit: Lit) | NonLitExpr(text: string)

  /** The shape of an attribute after its path: `#[p = v]`, `#[p]` or `#[p(...)]`. */
  datatype Meta = NameValue(value: Expr) | PathOnly | List(tokens: string)

  /** An outer attribute `#[path ...]`; `path` lists the path's segments. */
  datatype Attribute = Attribute(path: seq<string>, meta: Meta)

  /** `path.is_ident(id)`: the path is the single identifier `id`. */
  predicate IsIdent(path: seq<string>, id: string) {
    path == [id]
  }

  datatype Field = Field(ident: Option<string>, ty: Ty)

  /** The body of the annotated item. */
  datatype Data = Struct(fields: seq<Field>) | Enum | Union

  datatype GenericParam = LifetimeParam(lifetime: string) | TypeParam(ident: string) | ConstParam(ident: string)

  /** The whole annotated item; lifetimes are written with their quote, as in `'a`. */
  datatype DeriveInput = DeriveInput(attrs: seq<Attribute>, ident: string, generics: seq<GenericParam>, data: Data)

  /** Where a diagnostic points. */
  datatype Span = InputSpan | AttrSpan(attr: Attribute) | LitSpan(lit: Lit) | TypeSpan(ty: Ty)

  /**
   * The text of a compile error: a fixed message, or the borrow-rule message
   * that is formatted from a lifetime and the struct's name.
   */
  datatype Message = Fixed(text: string) | BorrowRule(lifetime: string, structName: string)

  const BORROW_TEXT_HEAD := "if you are borrowing '&T'\n"
  const BORROW_TEXT_MIDDLE := " then allocating mechanism is unknown even if `T` implements `StackOnly`\n , so struct "
  const BORROW_TEXT_TAIL := " must be annotated with  `allow_heap=true`.\n \n consider feature :\n #[allow_heap=true]"

  /** The text a message displays. */
  function MessageText(m: Message): string {
    match m
    case Fixed(text) => text
    case BorrowRule(lifetime, structName) =>
      BORROW_TEXT_HEAD + lifetime + BORROW_TEXT_MIDDLE + structName + BORROW_TEXT_TAIL
  }

  /** The borrow-rule text names the lifetime and then the struct. */
  lemma BorrowTextMentions(lifetime: string, structName: string)
    ensures var text, i := MessageText(BorrowRule(lifetime, structName)), |BORROW_TEXT_HEAD|;
            var j := i + |lifetime| + |BORROW_TEXT_MIDDLE|;
            j + |structName| <= |text| && text[i..i + |lifetime|] == lifetime && text[j..j + |structName|] == structName
  {
  }

  /** A compile error: `syn::Error::new(span, message)`. */
  datatype Diagnostic = Diagnostic(span: Span, message: Message)
}
