/**
 Tokens, and the semantic actions of grammar.c: they build the tree through the
 two cursors `parent` and `setting` of the parse context.
 */
module ConfigActions {
  import opened Options
  import opened ConfigStore

  /** A token with its semantic value. A float keeps its text; atof is not modelled. */
  datatype Token =
    | TBoolean(ival: int) | TInteger(ival: int) | THex(ival: int)
    | TInteger64(llval: int) | THex64(llval: int)
    | TFloat(text: string) | TString(sval: string) | TName(sval: string)
    | TEquals | TNewline | TArrayStart | TArrayEnd | TListStart | TListEnd | TComma
    | TGroupStart | TGroupEnd | TSemicolon | TGarbage | TError

  /** The parser's symbol number of a token (its code through YYTRANSLATE). */
  function Sym(t: Token): (s: int)
    ensures 3 <= s <= 22
  {
    match t
    case TBoolean(_) => 3 case TInteger(_) => 4 case THex(_) => 5
    case TInteger64(_) => 6 case THex64(_) => 7 case TFloat(_) => 8
    case TString(_) => 9 case TName(_) => 10 case TEquals => 11 case TNewline => 12
    case TArrayStart => 13 case TArrayEnd => 14 case TListStart => 15 case TListEnd => 16
    case TComma => 17 case TGroupStart => 18 case TGroupEnd => 19 case TSemicolon => 20
    case TGarbage => 21 case TError => 22
  }

  datatype Ctx = Ctx(store: Store, parent: Option<Id>, setting: Option<Id>, str: Option<string>)

  datatype Error = DuplicateSetting | MismatchedElement | NullPointer

  datatype Outcome = Ok(ctx: Ctx) | Abort(error: Error)

  predicate Known(st: Store, id: Option<Id>) { id.Some? && id.value in st.nodes }

  predicate InVector(c: Ctx)
  {
    Known(c.store, c.parent) &&
    (c.store.nodes[c.parent.value].kind.ArrayKind? || c.store.nodes[c.parent.value].kind.ListKind?)
  }

  predicate InList(c: Ctx)
  {
    Known(c.store, c.parent) && c.store.nodes[c.parent.value].kind.ListKind?
  }

  /** Rule 11, after a name: create the member. */
  function BeginSetting(c: Ctx, name: string): Outcome
  {
    if !Known(c.store, c.parent) then Abort(NullPointer)
    else
      match Add(c.store, c.parent.value, Some(name), NoneKind)
      case None => Abort(DuplicateSetting)
      case Some(st) => Ok(c.(store := st, setting := Some(c.store.next)))
  }

  /** Rules 13, 15 and 38, after an opening bracket. */
  function Open(c: Ctx, kind: Kind): Outcome
  {
    if InList(c) then
      match Add(c.store, c.parent.value, None, kind)
      case None => Abort(NullPointer)
      case Some(st) => Ok(c.(store := st, parent := Some(c.store.next)))
    else if !Known(c.store, c.setting) then Abort(NullPointer)
    else
      var id := c.setting.value;
      Ok(c.(store := c.store.(nodes := c.store.nodes[id := c.store.nodes[id].(kind := kind)]),
            parent := c.setting, setting := None))
  }

  /** Rules 14, 16 and 39, after a closing bracket. */
  function Close(c: Ctx): Outcome
  {
    if c.parent.None? then Ok(c)
    else if !Known(c.store, c.parent) then Abort(NullPointer)
    else Ok(c.(parent := c.store.nodes[c.parent.value].parent))
  }

  /** Rules 23 to 28: a scalar goes to the array or list, or to the current member. */
  function Scalar(c: Ctx, kind: Kind, payload: Payload, format: int): Outcome
  {
    if InVector(c) then
      match Append(c.store, c.parent.value, kind, payload, format)
      case None => Abort(MismatchedElement)
      case Some(st) => Ok(c.(store := st))
    else if !Known(c.store, c.setting) then Abort(NullPointer)
    else Ok(c.(store := Put(c.store, c.setting.value, kind, payload, format)))
  }

  function AppendString(c: Ctx, s: string): Outcome
  {
    Ok(c.(str := Some(if c.str.Some? then c.str.value + s else s)))
  }

  /** Rule 29: the collected string. */
  function TakeString(c: Ctx): Outcome
  {
    Scalar(c.(str := None), StringKind, StringVal(c.str), FORMAT_DEFAULT)
  }

  /** The action of a rule, given the semantic value that it uses. */
  function Act(rule: int, val: Option<Token>, c: Ctx): Outcome
  {
    match rule
    case 11 => if val.Some? && val.value.TName? then BeginSetting(c, val.value.sval) else Abort(NullPointer)
    case 13 => Open(c, ArrayKind)
    case 15 => Open(c, ListKind)
    case 38 => Open(c, GroupKind)
    case 14 => Close(c)
    case 16 => Close(c)
    case 39 => Close(c)
    case 21 => if val.Some? && val.value.TString? then AppendString(c, val.value.sval) else Abort(NullPointer)
    case 22 => if val.Some? && val.value.TString? then AppendString(c, val.value.sval) else Abort(NullPointer)
    case 23 =>
      if val.Some? && val.value.TBoolean?
      then Scalar(c, BoolKind, IntVal(val.value.ival), FORMAT_DEFAULT) else Abort(NullPointer)
    case 24 =>
      if val.Some? && val.value.TInteger?
      then Scalar(c, IntKind, IntVal(val.value.ival), FORMAT_DEFAULT) else Abort(NullPointer)
    case 25 =>
      if val.Some? && val.value.TInteger64?
      then Scalar(c, Int64Kind, Int64Val(val.value.llval), FORMAT_DEFAULT) else Abort(NullPointer)
    case 26 =>
      if val.Some? && val.value.THex?
      then Scalar(c, IntKind, IntVal(val.value.ival), FORMAT_HEX) else Abort(NullPointer)
    case 27 =>
      if val.Some? && val.value.THex64?
      then Scalar(c, Int64Kind, Int64Val(val.value.llval), FORMAT_HEX) else Abort(NullPointer)
    case 28 =>
      if val.Some? && val.value.TFloat?
      then Scalar(c, FloatKind, FloatVal(val.value.text), FORMAT_DEFAULT) else Abort(NullPointer)
    case 29 => TakeString(c)
    case _ => Ok(c)
  }

  /** The parse context at the start of __config_read. */
  const INITIAL: Ctx := Ctx(EMPTY, Some(0), Some(0), None)
}
