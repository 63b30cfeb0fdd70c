/**
 * JSON values and their printed form, over UTF-16 code units: JSON.stringify for strings and
 * scalars, with the escapes of section 7 of RFC 8259.
 */
module JsonText {
  import opened Wrappers

  type CodeUnit = c: int | 0 <= c < 0x10000

  type Text = seq<CodeUnit>

  const QUOTE: CodeUnit := 34
  const COMMA: CodeUnit := 44
  const COLON: CodeUnit := 58
  const OPEN_BRACKET: CodeUnit := 91
  const BACKSLASH: CodeUnit := 92
  const CLOSE_BRACKET: CodeUnit := 93
  const LOWER_U: CodeUnit := 117
  const OPEN_BRACE: CodeUnit := 123
  const CLOSE_BRACE: CodeUnit := 125

  const NULL: Text := [110, 117, 108, 108]
  const TRUE: Text := [116, 114, 117, 101]
  const FALSE: Text := [102, 97, 108, 115, 101]

  /**
   * A number is modelled by the text that JavaScript prints for it. An object's members are in
   * the order in which JavaScript enumerates them.
   */
  datatype Json =
    | Null
    | Bool(value: bool)
    | Number(lexeme: Text)
    | Str(text: Text)
    | Arr(items: seq<Json>)
    | Obj(members: seq<Member>)

  datatype Member = Member(key: Text, value: Json)

  // ---------- strings ----------

  predicate IsHigh(c: CodeUnit) {
    0xD800 <= c < 0xDC00
  }

  predicate IsLow(c: CodeUnit) {
    0xDC00 <= c < 0xE000
  }

  /** The letter of a two-character escape: \b \t \n \f \r \" \\ */
  function ShortEscape(c: CodeUnit): Option<CodeUnit> {
    if c == 8 then Some(98)
    else if c == 9 then Some(116)
    else if c == 10 then Some(110)
    else if c == 12 then Some(102)
    else if c == 13 then Some(114)
    else if c == QUOTE || c == BACKSLASH then Some(c)
    else None
  }

  function HexDigit(n: nat): CodeUnit
    requires n < 16
  {
    if n < 10 then 48 + n else 87 + n
  }

  function UnicodeEscape(c: CodeUnit): Text {
    [BACKSLASH, LOWER_U, HexDigit(c / 4096), HexDigit(c / 256 % 16), HexDigit(c / 16 % 16), HexDigit(c % 16)]
  }

  /** One code unit that is not part of a surrogate pair. */
  function EscapeUnit(c: CodeUnit): Text {
    match ShortEscape(c)
    case Some(letter) => [BACKSLASH, letter]
    case None => if c < 32 || IsHigh(c) || IsLow(c) then UnicodeEscape(c) else [c]
  }

  /** The inside of a string literal; surrogate pairs are printed as they are. */
  function Escape(text: Text): Text {
    if text == [] then
      []
    else if |text| >= 2 && IsHigh(text[0]) && IsLow(text[1]) then
      [text[0], text[1]] + Escape(text[2..])
    else
      EscapeUnit(text[0]) + Escape(text[1..])
  }

  function Quoted(text: Text): Text {
    [QUOTE] + Escape(text) + [QUOTE]
  }

  // ---------- values, printed as they are ----------

  function Plain(value: Json): Text
    decreases value, 1
  {
    match value
    case Null => NULL
    case Bool(b) => if b then TRUE else FALSE
    case Number(lexeme) => lexeme
    case Str(text) => Quoted(text)
    case Arr(items) => [OPEN_BRACKET] + PlainItems(items) + [CLOSE_BRACKET]
    case Obj(members) => [OPEN_BRACE] + PlainMembers(members) + [CLOSE_BRACE]
  }

  function PlainItems(items: seq<Json>): Text
    decreases items, 0
  {
    if items == [] then []
    else if |items| == 1 then Plain(items[0])
    else Plain(items[0]) + [COMMA] + PlainItems(items[1..])
  }

  function PlainMember(member: Member): Text
    decreases member, 2
  {
    Quoted(member.key) + [COLON] + Plain(member.value)
  }

  function PlainMembers(members: seq<Member>): Text
    decreases members, 0
  {
    if members == [] then []
    else if |members| == 1 then PlainMember(members[0])
    else PlainMember(members[0]) + [COMMA] + PlainMembers(members[1..])
  }

  // ---------- which values print as JSON ----------

  predicate IsDigit(c: CodeUnit) {
    48 <= c <= 57
  }

  /** A digit, or one of + - . E e */
  predicate InNumber(c: CodeUnit) {
    IsDigit(c) || c == 43 || c == 45 || c == 46 || c == 69 || c == 101
  }

  predicate IsNumeral(lexeme: Text) {
    && lexeme != []
    && (IsDigit(lexeme[0]) || lexeme[0] == 45)
    && forall i | 0 <= i < |lexeme| :: InNumber(lexeme[i])
  }

  /** Numbers are numerals and no object has two members with one key. */
  ghost predicate IsValue(value: Json)
    decreases value
  {
    match value
    case Null => true
    case Bool(_) => true
    case Str(_) => true
    case Number(lexeme) => IsNumeral(lexeme)
    case Arr(items) => forall i | 0 <= i < |items| :: IsValue(items[i])
    case Obj(members) =>
      && (forall i | 0 <= i < |members| :: IsValue(members[i].value))
      && (forall i, j | 0 <= i < j < |members| :: members[i].key != members[j].key)
  }
}
