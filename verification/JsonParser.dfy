/** A parser that inverts the printer, whatever text follows. */
module JsonParser {
  import opened Wrappers
  import opened JsonText

  // ---------- strings ----------

  function ReadHex(c: CodeUnit): Option<nat> {
    if IsDigit(c) then Some(c - 48)
    else if 97 <= c <= 102 then Some(c - 87)
    else None
  }

  /** The unit that a short escape's letter stands for. */
  function ReadShort(letter: CodeUnit): Option<CodeUnit> {
    if letter == 98 then Some(8)
    else if letter == 116 then Some(9)
    else if letter == 110 then Some(10)
    else if letter == 102 then Some(12)
    else if letter == 114 then Some(13)
    else if letter == QUOTE || letter == BACKSLASH then Some(letter)
    else None
  }

  datatype Read<T> = Nothing | Just(value: T, rest: Text)

  /** Reads one escaped or plain code unit of a string. */
  function ReadUnit(text: Text): (read: Read<CodeUnit>)
    ensures read.Just? ==> |read.rest| < |text|
  {
    if text == [] then
      Nothing
    else if text[0] != BACKSLASH then
      Just(text[0], text[1..])
    else if |text| >= 2 && ReadShort(text[1]).Some? then
      Just(ReadShort(text[1]).value, text[2..])
    else if |text| >= 6 && text[1] == LOWER_U && ReadHex(text[2]).Some? && ReadHex(text[3]).Some?
            && ReadHex(text[4]).Some? && ReadHex(text[5]).Some? then
      Just(ReadHex(text[2]).value * 4096 + ReadHex(text[3]).value * 256
           + ReadHex(text[4]).value * 16 + ReadHex(text[5]).value, text[6..])
    else
      Nothing
  }

  /** Reads the inside of a string literal and its closing quote. */
  function ReadString(text: Text): (read: Read<Text>)
    ensures read.Just? ==> |read.rest| < |text|
    decreases |text|
  {
    if text == [] then
      Nothing
    else if text[0] == QUOTE then
      Just([], text[1..])
    else
      match ReadUnit(text)
      case Nothing => Nothing
      case Just(unit, more) =>
        match ReadString(more)
        case Nothing => Nothing
        case Just(units, rest) => Just([unit] + units, rest)
  }

  // ---------- numbers ----------

  function NumeralLength(text: Text): (n: nat)
    ensures n <= |text|
    ensures forall i | 0 <= i < n :: InNumber(text[i])
    ensures n < |text| ==> !InNumber(text[n])
  {
    if text == [] || !InNumber(text[0]) then 0 else 1 + NumeralLength(text[1..])
  }

  // ---------- values ----------

  function ReadValue(text: Text): (read: Read<Json>)
    ensures read.Just? ==> |read.rest| < |text|
    decreases |text|, 0
  {
    if text == [] then
      Nothing
    else if NULL <= text then
      Just(Null, text[|NULL|..])
    else if TRUE <= text then
      Just(Bool(true), text[|TRUE|..])
    else if FALSE <= text then
      Just(Bool(false), text[|FALSE|..])
    else if text[0] == QUOTE then
      match ReadString(text[1..])
      case Nothing => Nothing
      case Just(chars, rest) => Just(Str(chars), rest)
    else if text[0] == OPEN_BRACKET then
      if |text| >= 2 && text[1] == CLOSE_BRACKET then
        Just(Arr([]), text[2..])
      else
        match ReadItems(text[1..])
        case Nothing => Nothing
        case Just(items, rest) => Just(Arr(items), rest)
    else if text[0] == OPEN_BRACE then
      if |text| >= 2 && text[1] == CLOSE_BRACE then
        Just(Obj([]), text[2..])
      else
        match ReadMembers(text[1..])
        case Nothing => Nothing
        case Just(members, rest) => Just(Obj(members), rest)
    else if NumeralLength(text) > 0 then
      Just(Number(text[..NumeralLength(text)]), text[NumeralLength(text)..])
    else
      Nothing
  }

  /** Reads one or more items and the closing bracket. */
  function ReadItems(text: Text): (read: Read<seq<Json>>)
    ensures read.Just? ==> |read.rest| < |text|
    decreases |text|, 1
  {
    match ReadValue(text)
    case Nothing => Nothing
    case Just(item, more) =>
      if more != [] && more[0] == CLOSE_BRACKET then
        Just([item], more[1..])
      else if more != [] && more[0] == COMMA then
        match ReadItems(more[1..])
        case Nothing => Nothing
        case Just(items, rest) => Just([item] + items, rest)
      else
        Nothing
  }

  function ReadMember(text: Text): (read: Read<Member>)
    ensures read.Just? ==> |read.rest| < |text|
    decreases |text|, 1
  {
    if text == [] || text[0] != QUOTE then
      Nothing
    else
      match ReadString(text[1..])
      case Nothing => Nothing
      case Just(key, more) =>
        if more == [] || more[0] != COLON then
          Nothing
        else
          match ReadValue(more[1..])
          case Nothing => Nothing
          case Just(value, rest) => Just(Member(key, value), rest)
  }

  /** Reads one or more members and the closing brace. */
  function ReadMembers(text: Text): (read: Read<seq<Member>>)
    ensures read.Just? ==> |read.rest| < |text|
    decreases |text|, 2
  {
    match ReadMember(text)
    case Nothing => Nothing
    case Just(member, more) =>
      if more != [] && more[0] == CLOSE_BRACE then
        Just([member], more[1..])
      else if more != [] && more[0] == COMMA then
        match ReadMembers(more[1..])
        case Nothing => Nothing
        case Just(members, rest) => Just([member] + members, rest)
      else
        Nothing
  }

  // ---------- reading what was printed ----------

  /** A delimited piece of text and what follows it, taken apart at the opening delimiter. */
  lemma Wrapped(open: CodeUnit, inside: Text, close: CodeUnit, rest: Text)
    ensures var text := [open] + inside + [close] + rest;
            text != [] && text[0] == open && text[1..] == inside + [close] + rest
  {
    assert [open] + inside + [close] + rest == [open] + (inside + [close] + rest);
  }

  /** One piece, a delimiter, and the rest of a list. */
  lemma Joined(first: Text, separator: CodeUnit, others: Text, close: CodeUnit, rest: Text)
    ensures first + [separator] + others + [close] + rest ==
            first + ([separator] + (others + [close] + rest))
  {
  }

  lemma HexDigitReads(n: nat)
    requires n < 16
    ensures ReadHex(HexDigit(n)) == Some(n)
  {
  }

  lemma HexValue(c: CodeUnit)
    ensures c / 4096 < 16
    ensures c / 4096 * 4096 + c / 256 % 16 * 256 + c / 16 % 16 * 16 + c % 16 == c
  {
    Sixteenth(c, 16);
    Sixteenth(c, 256);
  }

  lemma Sixteenth(n: nat, m: nat)
    requires m == 16 || m == 256
    ensures n / (16 * m) == n / m / 16
  {
    assert n == n / m * m + n % m;
  }

  lemma HexDigitsReads(c: CodeUnit, rest: Text)
    ensures ReadUnit(UnicodeEscape(c) + rest) == Just(c, rest)
  {
    var text := UnicodeEscape(c) + rest;
    HexValue(c);
    HexDigitReads(c / 4096);
    HexDigitReads(c / 256 % 16);
    HexDigitReads(c / 16 % 16);
    HexDigitReads(c % 16);
    assert text[0] == BACKSLASH && text[1] == LOWER_U && text[6..] == rest;
    assert text[2] == HexDigit(c / 4096) && text[3] == HexDigit(c / 256 % 16);
    assert text[4] == HexDigit(c / 16 % 16) && text[5] == HexDigit(c % 16);
  }

  lemma ShortEscapeReads(c: CodeUnit)
    requires ShortEscape(c).Some?
    ensures ReadShort(ShortEscape(c).value) == Some(c)
  {
  }

  lemma ReadEscaped(c: CodeUnit, rest: Text)
    ensures ReadUnit(EscapeUnit(c) + rest) == Just(c, rest)
    ensures EscapeUnit(c) != [] && EscapeUnit(c)[0] != QUOTE
  {
    var text := EscapeUnit(c) + rest;
    if ShortEscape(c).Some? {
      ShortEscapeReads(c);
      assert text[0] == BACKSLASH && text[1] == ShortEscape(c).value && text[2..] == rest;
    } else if c < 32 || IsHigh(c) || IsLow(c) {
      HexDigitsReads(c, rest);
    } else {
      assert text[0] == c && text[1..] == rest;
    }
  }

  lemma ReadStringStep(text: Text, unit: CodeUnit, more: Text, units: Text, rest: Text)
    requires text != [] && text[0] != QUOTE && ReadUnit(text) == Just(unit, more)
    requires ReadString(more) == Just(units, rest)
    ensures ReadString(text) == Just([unit] + units, rest)
  {
  }

  lemma ReadStringLiteralStep(unit: CodeUnit, more: Text, units: Text, rest: Text)
    requires unit != QUOTE && unit != BACKSLASH && ReadString(more) == Just(units, rest)
    ensures ReadString([unit] + more) == Just([unit] + units, rest)
  {
    assert ([unit] + more)[1..] == more;
    ReadStringStep([unit] + more, unit, more, units, rest);
  }

  lemma {:induction false} ReadStringInverts(chars: Text, rest: Text)
    ensures ReadString(Escape(chars) + [QUOTE] + rest) == Just(chars, rest)
    decreases |chars|
  {
    if chars == [] {
      assert Escape(chars) + [QUOTE] + rest == [QUOTE] + rest;
      assert ([QUOTE] + rest)[1..] == rest;
    } else if |chars| >= 2 && IsHigh(chars[0]) && IsLow(chars[1]) {
      ReadStringInverts(chars[2..], rest);
      ReadPairInverts(chars, rest);
    } else {
      ReadStringInverts(chars[1..], rest);
      ReadOneInverts(chars, rest);
    }
  }

  lemma ReadPairInverts(chars: Text, rest: Text)
    requires |chars| >= 2 && IsHigh(chars[0]) && IsLow(chars[1])
    requires ReadString(Escape(chars[2..]) + [QUOTE] + rest) == Just(chars[2..], rest)
    ensures ReadString(Escape(chars) + [QUOTE] + rest) == Just(chars, rest)
  {
    hide ReadString;
    var tail := Escape(chars[2..]) + [QUOTE] + rest;
    ReadStringLiteralStep(chars[1], tail, chars[2..], rest);
    ReadStringLiteralStep(chars[0], [chars[1]] + tail, [chars[1]] + chars[2..], rest);
    assert Escape(chars) == [chars[0], chars[1]] + Escape(chars[2..]);
    assert Escape(chars) + [QUOTE] + rest == [chars[0]] + ([chars[1]] + tail);
    assert chars == [chars[0]] + ([chars[1]] + chars[2..]);
  }

  lemma ReadOneInverts(chars: Text, rest: Text)
    requires chars != [] && !(|chars| >= 2 && IsHigh(chars[0]) && IsLow(chars[1]))
    requires ReadString(Escape(chars[1..]) + [QUOTE] + rest) == Just(chars[1..], rest)
    ensures ReadString(Escape(chars) + [QUOTE] + rest) == Just(chars, rest)
  {
    ReadEscaped(chars[0], Escape(chars[1..]) + [QUOTE] + rest);
    ReadPiece(EscapeUnit(chars[0]), chars[0], Escape(chars[1..]), chars[1..], rest);
    assert Escape(chars) == EscapeUnit(chars[0]) + Escape(chars[1..]);
    assert chars == [chars[0]] + chars[1..];
  }

  lemma ReadPiece(piece: Text, unit: CodeUnit, others: Text, units: Text, rest: Text)
    requires piece != [] && piece[0] != QUOTE
    requires ReadUnit(piece + (others + [QUOTE] + rest)) == Just(unit, others + [QUOTE] + rest)
    requires ReadString(others + [QUOTE] + rest) == Just(units, rest)
    ensures ReadString(piece + others + [QUOTE] + rest) == Just([unit] + units, rest)
  {
    hide ReadString, ReadUnit;
    var tail := others + [QUOTE] + rest;
    assert piece + others + [QUOTE] + rest == piece + tail;
    ReadStringStep(piece + tail, unit, tail, units, rest);
  }

  lemma {:induction false} NumeralEnds(lexeme: Text, rest: Text)
    requires forall i | 0 <= i < |lexeme| :: InNumber(lexeme[i])
    requires rest == [] || !InNumber(rest[0])
    ensures NumeralLength(lexeme + rest) == |lexeme|
  {
    if lexeme == [] {
      assert lexeme + rest == rest;
    } else {
      NumeralEnds(lexeme[1..], rest);
      assert (lexeme + rest)[1..] == lexeme[1..] + rest;
    }
  }

  /** A numeral would swallow a following digit; nothing else reads on. */
  predicate Ends(rest: Text) {
    rest == [] || !InNumber(rest[0])
  }

  lemma {:induction false} ReadValueInverts(value: Json, rest: Text)
    requires IsValue(value) && Ends(rest)
    ensures ReadValue(Plain(value) + rest) == Just(value, rest)
    decreases value, 1
  {
    match value
    case Null => ReadScalarInverts(value, rest);
    case Bool(_) => ReadScalarInverts(value, rest);
    case Number(_) => ReadScalarInverts(value, rest);
    case Str(_) => ReadScalarInverts(value, rest);
    case Arr(items) =>
      if items != [] {
        ReadItemsInverts(items, rest);
        ItemsStart(items);
      }
      ReadArray(PlainItems(items), items, rest);
    case Obj(members) =>
      if members != [] {
        ReadMembersInverts(members, rest);
        MembersStart(members);
      }
      ReadObject(PlainMembers(members), members, rest);
  }

  lemma ReadScalarInverts(value: Json, rest: Text)
    requires IsValue(value) && Ends(rest) && !value.Arr? && !value.Obj?
    ensures ReadValue(Plain(value) + rest) == Just(value, rest)
  {
    var text := Plain(value) + rest;
    match value
    case Null =>
      assert text[..|NULL|] == NULL && text[|NULL|..] == rest;
    case Bool(b) =>
      if b {
        assert text[0] == TRUE[0] && text[..|TRUE|] == TRUE && text[|TRUE|..] == rest;
      } else {
        assert text[0] == FALSE[0] && text[..|FALSE|] == FALSE && text[|FALSE|..] == rest;
      }
    case Number(lexeme) =>
      NumeralEnds(lexeme, rest);
      assert text[..|lexeme|] == lexeme && text[|lexeme|..] == rest;
    case Str(chars) =>
      ReadStringInverts(chars, rest);
      Wrapped(QUOTE, Escape(chars), QUOTE, rest);
  }

  lemma ReadArray(inside: Text, items: seq<Json>, rest: Text)
    requires if items == [] then inside == []
             else inside != [] && inside[0] != CLOSE_BRACKET &&
                  ReadItems(inside + [CLOSE_BRACKET] + rest) == Just(items, rest)
    ensures ReadValue([OPEN_BRACKET] + inside + [CLOSE_BRACKET] + rest) == Just(Arr(items), rest)
  {
    Wrapped(OPEN_BRACKET, inside, CLOSE_BRACKET, rest);
    var text := [OPEN_BRACKET] + inside + [CLOSE_BRACKET] + rest;
    if items == [] {
      assert text[1] == CLOSE_BRACKET && text[2..] == rest;
    } else {
      assert text[1] == inside[0];
    }
  }

  lemma ReadObject(inside: Text, members: seq<Member>, rest: Text)
    requires if members == [] then inside == []
             else inside != [] && inside[0] == QUOTE &&
                  ReadMembers(inside + [CLOSE_BRACE] + rest) == Just(members, rest)
    ensures ReadValue([OPEN_BRACE] + inside + [CLOSE_BRACE] + rest) == Just(Obj(members), rest)
  {
    Wrapped(OPEN_BRACE, inside, CLOSE_BRACE, rest);
    var text := [OPEN_BRACE] + inside + [CLOSE_BRACE] + rest;
    if members == [] {
      assert text[1] == CLOSE_BRACE && text[2..] == rest;
    } else {
      assert text[1] == inside[0];
    }
  }

  lemma MembersStart(members: seq<Member>)
    requires members != []
    ensures PlainMembers(members) != [] && PlainMembers(members)[0] == QUOTE
  {
    assert PlainMember(members[0])[0] == QUOTE;
  }

  /** No value starts with a closing bracket. */
  lemma ItemsStart(items: seq<Json>)
    requires items != [] && IsValue(items[0])
    ensures PlainItems(items) != [] && PlainItems(items)[0] != CLOSE_BRACKET
  {
    assert Plain(items[0]) != [] && Plain(items[0])[0] != CLOSE_BRACKET;
  }

  lemma ReadItemsLast(text: Text, item: Json, rest: Text)
    requires ReadValue(text) == Just(item, [CLOSE_BRACKET] + rest)
    ensures ReadItems(text) == Just([item], rest)
  {
    assert ([CLOSE_BRACKET] + rest)[1..] == rest;
  }

  lemma ReadItemsMore(text: Text, item: Json, more: Text, items: seq<Json>, rest: Text)
    requires ReadValue(text) == Just(item, [COMMA] + more)
    requires ReadItems(more) == Just(items, rest)
    ensures ReadItems(text) == Just([item] + items, rest)
  {
    assert ([COMMA] + more)[1..] == more;
  }

  lemma {:induction false} ReadItemsInverts(items: seq<Json>, rest: Text)
    requires items != [] && forall i | 0 <= i < |items| :: IsValue(items[i])
    ensures ReadItems(PlainItems(items) + [CLOSE_BRACKET] + rest) == Just(items, rest)
    decreases items, 0
  {
    var first := Plain(items[0]);
    if |items| == 1 {
      ReadValueInverts(items[0], [CLOSE_BRACKET] + rest);
      assert first + [CLOSE_BRACKET] + rest == first + ([CLOSE_BRACKET] + rest);
      ReadItemsLast(first + ([CLOSE_BRACKET] + rest), items[0], rest);
      assert items == [items[0]];
    } else {
      var others := PlainItems(items[1..]);
      var tail := others + [CLOSE_BRACKET] + rest;
      ReadValueInverts(items[0], [COMMA] + tail);
      ReadItemsInverts(items[1..], rest);
      Joined(first, COMMA, others, CLOSE_BRACKET, rest);
      ReadItemsMore(first + ([COMMA] + tail), items[0], tail, items[1..], rest);
      assert items == [items[0]] + items[1..];
    }
  }

  lemma ReadKeyed(key: Text, after: Text, value: Json, rest: Text)
    requires ReadValue(after) == Just(value, rest)
    ensures ReadMember(Quoted(key) + [COLON] + after) == Just(Member(key, value), rest)
  {
    var text := Quoted(key) + [COLON] + after;
    assert text == [QUOTE] + (Escape(key) + [QUOTE] + ([COLON] + after));
    assert text[1..] == Escape(key) + [QUOTE] + ([COLON] + after);
    ReadStringInverts(key, [COLON] + after);
    assert ([COLON] + after)[1..] == after;
  }

  lemma {:induction false} ReadMemberInverts(member: Member, rest: Text)
    requires IsValue(member.value) && Ends(rest)
    ensures ReadMember(PlainMember(member) + rest) == Just(member, rest)
    decreases member, 2
  {
    var head, after := Quoted(member.key) + [COLON], Plain(member.value);
    ReadValueInverts(member.value, rest);
    ReadKeyed(member.key, after + rest, member.value, rest);
    assert head + after + rest == head + (after + rest);
  }

  lemma ReadMembersLast(text: Text, member: Member, rest: Text)
    requires ReadMember(text) == Just(member, [CLOSE_BRACE] + rest)
    ensures ReadMembers(text) == Just([member], rest)
  {
    assert ([CLOSE_BRACE] + rest)[1..] == rest;
  }

  lemma ReadMembersMore(text: Text, member: Member, more: Text, members: seq<Member>, rest: Text)
    requires ReadMember(text) == Just(member, [COMMA] + more)
    requires ReadMembers(more) == Just(members, rest)
    ensures ReadMembers(text) == Just([member] + members, rest)
  {
    assert ([COMMA] + more)[1..] == more;
  }

  lemma {:induction false} ReadMembersInverts(members: seq<Member>, rest: Text)
    requires members != [] && forall i | 0 <= i < |members| :: IsValue(members[i].value)
    ensures ReadMembers(PlainMembers(members) + [CLOSE_BRACE] + rest) == Just(members, rest)
    decreases members, 0
  {
    hide ReadMembers, ReadMember, PlainMember;
    var first := PlainMember(members[0]);
    if |members| == 1 {
      ReadMemberInverts(members[0], [CLOSE_BRACE] + rest);
      assert first + [CLOSE_BRACE] + rest == first + ([CLOSE_BRACE] + rest);
      ReadMembersLast(first + ([CLOSE_BRACE] + rest), members[0], rest);
      assert members == [members[0]];
    } else {
      var others := PlainMembers(members[1..]);
      var tail := others + [CLOSE_BRACE] + rest;
      ReadMemberInverts(members[0], [COMMA] + tail);
      ReadMembersInverts(members[1..], rest);
      Joined(first, COMMA, others, CLOSE_BRACE, rest);
      ReadMembersMore(first + ([COMMA] + tail), members[0], tail, members[1..], rest);
      assert members == [members[0]] + members[1..];
    }
  }
}
