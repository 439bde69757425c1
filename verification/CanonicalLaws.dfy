/** The canonical text of a value reads back as the value, up to the order of object keys and nothing else. */
module CanonicalLaws {
  import opened Prelude
  import opened Canonical
  import opened JsonReader

  // ---------------------------------------------------------------------------------------------
  // Numbers

  lemma {:induction false} DigitsDenote(n: nat)
    ensures |Digits(n)| > 0 && Denoted(Digits(n)) == n
    ensures forall i :: 0 <= i < |Digits(n)| ==> IsDigit(Digits(n)[i])
  {
    if n < 10 {
      assert Digits(n)[..0] == [];
    } else {
      DigitsDenote(n / 10);
      assert Digits(n)[..|Digits(n)| - 1] == Digits(n / 10);
    }
  }

  /** What may follow a value: nothing, or something no number goes on with. */
  predicate Delimited(rest: Text) {
    rest == [] || !IsDigit(rest[0])
  }

  lemma {:induction false} DigitsEnd(digits: Text, r: Text)
    requires Delimited(r) && forall i :: 0 <= i < |digits| ==> IsDigit(digits[i])
    ensures DigitsOf(digits + r) == |digits|
  {
    if digits == [] {
      assert digits + r == r;
    } else {
      assert (digits + r)[1..] == digits[1..] + r;
      DigitsEnd(digits[1..], r);
    }
  }

  /** A printed number, followed by no digit, reads back as the number. */
  lemma NumberReads(n: Number, r: Text)
    requires Delimited(r)
    ensures ReadNumber(PrintNumber(n) + r) == Some((Num(n), r))
  {
    hide Digits, Denoted, DigitsOf;
    var m := if n < 0 then -n else n;
    FirstOfNumber(n, r);
    DigitsDenote(m);
    DigitsEnd(Digits(m), r);
    assert (Digits(m) + r)[..|Digits(m)|] == Digits(m) && (Digits(m) + r)[|Digits(m)|..] == r;
    FirstIsDigit(Digits(m), r);
    if n < 0 {
      assert ([MINUS] + (Digits(m) + r))[1..] == Digits(m) + r;
    }
  }

  lemma FirstIsDigit(digits: Text, r: Text)
    requires digits != [] && IsDigit(digits[0])
    ensures (digits + r)[0] != MINUS
  {
  }

  /** Equal concatenations with first parts of equal length have equal parts. */
  lemma Split<T>(a: seq<T>, b: seq<T>, r: seq<T>, t: seq<T>)
    requires a + r == b + t && |a| == |b|
    ensures a == b && r == t
  {
    assert a == (a + r)[..|a|] && b == (b + t)[..|b|];
    assert r == (a + r)[|a|..] && t == (b + t)[|b|..];
  }

  lemma FirstOfNumber(n: int, r: Text)
    ensures |PrintNumber(n)| > 0
    ensures if n < 0 then (PrintNumber(n) + r)[0] == MINUS else IsDigit((PrintNumber(n) + r)[0])
    ensures PrintNumber(n) + r == if n < 0 then [MINUS] + (Digits(-n) + r) else Digits(n) + r
  {
    hide Digits;
    DigitsDenote(if n < 0 then -n else n);
    if n < 0 {
      assert [MINUS] + Digits(-n) + r == [MINUS] + (Digits(-n) + r);
    }
  }

  // ---------------------------------------------------------------------------------------------
  // Strings

  lemma UnitFromHex(u: Unit)
    ensures u == u / 4096 * 4096 + u / 256 % 16 * 256 + u / 16 % 16 * 16 + u % 16
    ensures u / 4096 < 16
  {
    assert u / 256 == u / 4096 * 16 + u / 256 % 16;
    assert u / 16 == u / 256 * 16 + u / 16 % 16;
  }

  lemma HexReads(d: nat)
    requires d < 16
    ensures HexDigit(Hex(d)) == Some(d)
  {
  }

  lemma EscapeReads(u: Unit, r: Text)
    ensures ReadUnit(UnicodeEscape(u) + r) == Some((u, r))
  {
    hide Hex, HexDigit;
    var t := UnicodeEscape(u) + r;
    UnitFromHex(u);
    HexReads(u / 4096);
    HexReads(u / 256 % 16);
    HexReads(u / 16 % 16);
    HexReads(u % 16);
    assert t[6..] == r;
    assert t[2..6] == [Hex(u / 4096), Hex(u / 256 % 16), Hex(u / 16 % 16), Hex(u % 16)];
  }

  /** A printed unit reads back as the unit, whatever follows. */
  lemma UnitReads(u: Unit, r: Text)
    ensures ReadUnit(PrintUnit(u) + r) == Some((u, r))
    ensures (PrintUnit(u) + r)[0] != QUOTE
  {
    hide FromHex, UnicodeEscape, Hex;
    EscapeReads(u, r);
    EscapeHead(u, r);
    assert ([u] + r)[1..] == r;
    assert forall a, b :: ([a, b] + r)[2..] == r;
  }

  lemma EscapeHead(u: Unit, r: Text)
    ensures (UnicodeEscape(u) + r)[0] == BACKSLASH
  {
  }

  predicate Paired(s: Text) {
    |s| > 1 && IsLead(s[0]) && IsTrail(s[1])
  }

  lemma OpenPair(s: Text, r: Text)
    requires Paired(s)
    ensures PrintUnits(s) + [QUOTE] + r == [s[0], s[1]] + (PrintUnits(s[2..]) + [QUOTE] + r)
  {
    hide PrintUnit, IsLead, IsTrail;
    var rest := PrintUnits(s[2..]);
    assert [s[0], s[1]] + rest + [QUOTE] + r == [s[0], s[1]] + (rest + [QUOTE] + r);
  }

  lemma OpenUnit(s: Text, r: Text)
    requires s != [] && !Paired(s)
    ensures PrintUnits(s) + [QUOTE] + r == PrintUnit(s[0]) + (PrintUnits(s[1..]) + [QUOTE] + r)
  {
    hide PrintUnit, IsLead, IsTrail;
    var rest := PrintUnits(s[1..]);
    assert PrintUnit(s[0]) + rest + [QUOTE] + r == PrintUnit(s[0]) + (rest + [QUOTE] + r);
  }

  lemma OpenNothing(r: Text)
    ensures PrintUnits([]) + [QUOTE] + r == [QUOTE] + r
  {
  }

  lemma HalfReads(u: Unit, r: Text)
    requires IsLead(u) || IsTrail(u)
    ensures ([u] + r)[0] != QUOTE && ReadUnit([u] + r) == Some((u, r))
  {
    assert ([u] + r)[1..] == r;
  }

  lemma UnitsStep(t: Text, u: Unit, rest: Text, s: Text, more: Text)
    requires t != [] && t[0] != QUOTE && ReadUnit(t) == Some((u, rest)) && ReadUnits(rest) == Some((s, more))
    ensures ReadUnits(t) == Some(([u] + s, more))
  {
    hide ReadUnit;
  }

  /** The printed units up to the closing quote read back as the string. */
  lemma {:induction false} UnitsRead(s: Text, r: Text)
    ensures ReadUnits(PrintUnits(s) + [QUOTE] + r) == Some((s, r))
    decreases |s|
  {
    hide PrintUnit, PrintUnits, ReadUnit, ReadUnits, IsLead, IsTrail;
    if s == [] {
      OpenNothing(r);
      NothingReads(r);
    } else if Paired(s) {
      OpenPair(s, r);
      UnitsRead(s[2..], r);
      var rest := PrintUnits(s[2..]) + [QUOTE] + r;
      HalfReads(s[1], rest);
      UnitsStep([s[1]] + rest, s[1], rest, s[2..], r);
      assert [s[0], s[1]] + rest == [s[0]] + ([s[1]] + rest);
      HalfReads(s[0], [s[1]] + rest);
      UnitsStep([s[0]] + ([s[1]] + rest), s[0], [s[1]] + rest, [s[1]] + s[2..], r);
      assert [s[0]] + ([s[1]] + s[2..]) == s;
    } else {
      OpenUnit(s, r);
      UnitsRead(s[1..], r);
      var rest := PrintUnits(s[1..]) + [QUOTE] + r;
      UnitReads(s[0], rest);
      UnitsStep(PrintUnit(s[0]) + rest, s[0], rest, s[1..], r);
      assert [s[0]] + s[1..] == s;
    }
  }

  lemma NothingReads(r: Text)
    ensures ReadUnits([QUOTE] + r) == Some(([], r))
  {
    assert ([QUOTE] + r)[1..] == r;
  }

  /** A printed string, escapes, control characters and lone surrogates included, reads back as the string. */
  lemma StringReads(s: Text, r: Text)
    ensures var t := PrintString(s) + r;
      t[0] == QUOTE && ReadUnits(t[1..]) == Some((s, r))
  {
    hide PrintUnits, ReadUnits;
    UnitsRead(s, r);
    assert (PrintString(s) + r)[1..] == PrintUnits(s) + [QUOTE] + r;
  }

  // ---------------------------------------------------------------------------------------------
  // A printer without sorting

  /** Items or fields, each after a comma but the first, and the closing bracket. */
  function Raw(v: Value): Text {
    match v
    case Arr(items) => [OPEN_BRACKET] + RawItems(items, true)
    case Obj(fields) => [OPEN_BRACE] + RawFields(fields, true)
    case _ => Print(v)
  }

  function Separator(first: bool): Text {
    if first then [] else [COMMA]
  }

  function RawItems(items: seq<Value>, first: bool): Text {
    if items == [] then [CLOSE_BRACKET] else Separator(first) + Raw(items[0]) + RawItems(items[1..], false)
  }

  function RawFields(fields: seq<(Text, Value)>, first: bool): Text
    decreases fields, 0
  {
    if fields == [] then [CLOSE_BRACE] else Separator(first) + RawField(fields[0]) + RawFields(fields[1..], false)
  }

  function RawField(field: (Text, Value)): Text {
    PrintString(field.0) + [COLON] + Raw(field.1)
  }

  /** The first unit tells the kind of a value. */
  datatype Shape = NullShape | TrueShape | FalseShape | NumberShape | StringShape | ArrayShape | ObjectShape | NoShape

  function ShapeAt(u: Unit): Shape {
    if u == LETTER_N then NullShape
    else if u == LETTER_T then TrueShape
    else if u == LETTER_F then FalseShape
    else if u == MINUS || IsDigit(u) then NumberShape
    else if u == QUOTE then StringShape
    else if u == OPEN_BRACKET then ArrayShape
    else if u == OPEN_BRACE then ObjectShape
    else NoShape
  }

  function ShapeOf(v: Value): Shape {
    match v
    case Null => NullShape
    case Bool(b) => if b then TrueShape else FalseShape
    case Num(_) => NumberShape
    case Str(_) => StringShape
    case Arr(_) => ArrayShape
    case Obj(_) => ObjectShape
    case _ => NoShape
  }

  lemma ShapeIsFirst(v: Value, r: Text)
    requires Clean(v)
    ensures Raw(v) != [] && ShapeAt((Raw(v) + r)[0]) == ShapeOf(v) != NoShape
  {
    hide PrintNumber, PrintUnits, RawItems, RawFields;
    if v.Num? {
      FirstOfNumber(v.n, r);
    }
  }

  /** A value's text, followed by anything that may follow it, reads back as the value. */
  lemma {:induction false} RawReads(v: Value, r: Text)
    requires Clean(v) && Delimited(r)
    ensures ReadValue(Raw(v) + r) == Some((v, r))
    decreases v
  {
    hide PrintNumber, PrintString, RawItems, RawFields, ReadItems, ReadFields, ReadUnits, ReadNumber;
    ShapeIsFirst(v, r);
    var t := Raw(v) + r;
    match v
    case Num(n) => NumberReads(n, r);
    case Str(s) => StringReads(s, r);
    case Arr(items) =>
      assert t[1..] == RawItems(items, true) + r;
      ItemsRead(items, true, r);
    case Obj(fields) =>
      assert t[1..] == RawFields(fields, true) + r;
      FieldsRead(fields, true, r);
    case Null => assert t[..|Raw(v)|] == Raw(v) && t[|Raw(v)|..] == r;
    case Bool(_) => assert t[..|Raw(v)|] == Raw(v) && t[|Raw(v)|..] == r;
    case _ =>
  }

  lemma ItemsHead(items: seq<Value>, first: bool, r: Text)
    requires CleanItems(items)
    ensures var p := RawItems(items, first) + r;
      && (items == [] ==> p == [CLOSE_BRACKET] + r)
      && (items != [] ==> p == Separator(first) + (Raw(items[0]) + (RawItems(items[1..], false) + r)))
      && (items == [] <==> p[0] == CLOSE_BRACKET)
      && (!first ==> Delimited(p))
  {
    hide Raw, RawItems, Separator;
    RawItemsOpen(items, first, r);
    if items != [] {
      ShapeIsFirst(items[0], RawItems(items[1..], false) + r);
      ShapeOfBrackets();
    }
    SeparatorIs(first);
  }

  lemma RawItemsOpen(items: seq<Value>, first: bool, r: Text)
    ensures items == [] ==> RawItems(items, first) + r == [CLOSE_BRACKET] + r
    ensures items != [] ==>
      RawItems(items, first) + r == Separator(first) + (Raw(items[0]) + (RawItems(items[1..], false) + r))
  {
    hide Raw, Separator;
    if items != [] {
      var s, x, y := Separator(first), Raw(items[0]), RawItems(items[1..], false);
      assert s + x + y + r == s + (x + (y + r));
    }
  }

  lemma SeparatorIs(first: bool)
    ensures Separator(first) == if first then [] else [COMMA]
  {
  }

  lemma ShapeOfBrackets()
    ensures ShapeAt(CLOSE_BRACKET) == ShapeAt(CLOSE_BRACE) == ShapeAt(COMMA) == NoShape
  {
  }

  lemma CommaReads(first: bool, t: Text)
    ensures AfterComma(Separator(first) + t, first) == Some(t)
  {
    assert [] + t == t && ([COMMA] + t)[1..] == t;
  }

  lemma {:induction false} ItemsRead(items: seq<Value>, first: bool, r: Text)
    requires CleanItems(items)
    ensures ReadItems(RawItems(items, first) + r, first) == Some((items, r))
    decreases items
  {
    hide Raw, RawItems, Separator, ReadValue, AfterComma;
    ItemsHead(items, first, r);
    if items == [] {
      assert ([CLOSE_BRACKET] + r)[1..] == r;
    } else {
      var rest := RawItems(items[1..], false) + r;
      ItemsHead(items[1..], false, r);
      CommaReads(first, Raw(items[0]) + rest);
      RawReads(items[0], rest);
      ItemsRead(items[1..], false, r);
      assert [items[0]] + items[1..] == items;
    }
  }

  lemma FieldsHead(fields: seq<(Text, Value)>, first: bool, r: Text)
    ensures var p := RawFields(fields, first) + r;
      && (fields == [] ==> p == [CLOSE_BRACE] + r)
      && (fields != [] ==> p == Separator(first) + (RawField(fields[0]) + (RawFields(fields[1..], false) + r)))
      && (fields == [] <==> p[0] == CLOSE_BRACE)
      && (!first ==> Delimited(p))
  {
    hide RawField, RawFields, Separator;
    SeparatorIs(first);
    RawFieldsOpen(fields, first, r);
    if fields != [] {
      FieldHead(fields[0]);
    }
  }

  lemma RawFieldsOpen(fields: seq<(Text, Value)>, first: bool, r: Text)
    ensures fields == [] ==> RawFields(fields, first) + r == [CLOSE_BRACE] + r
    ensures fields != [] ==>
      RawFields(fields, first) + r == Separator(first) + (RawField(fields[0]) + (RawFields(fields[1..], false) + r))
  {
    hide RawField, Separator;
    if fields != [] {
      var s, x, y := Separator(first), RawField(fields[0]), RawFields(fields[1..], false);
      assert s + x + y + r == s + (x + (y + r));
    }
  }

  lemma FieldHead(field: (Text, Value))
    ensures RawField(field) != [] && RawField(field)[0] == QUOTE
  {
    hide PrintUnits, Raw;
  }

  lemma FieldOpen(field: (Text, Value), r: Text)
    ensures RawField(field) + r == PrintString(field.0) + ([COLON] + (Raw(field.1) + r))
  {
    hide PrintString, Raw;
    var s, x := PrintString(field.0), Raw(field.1);
    assert s + [COLON] + x + r == s + ([COLON] + (x + r));
  }

  lemma {:induction false} FieldsRead(fields: seq<(Text, Value)>, first: bool, r: Text)
    requires CleanFields(fields)
    ensures ReadFields(RawFields(fields, first) + r, first) == Some((fields, r))
    decreases fields, 0
  {
    hide Raw, RawField, RawFields, Separator, ReadField, AfterComma;
    FieldsHead(fields, first, r);
    if fields == [] {
      assert ([CLOSE_BRACE] + r)[1..] == r;
    } else {
      var rest := RawFields(fields[1..], false) + r;
      FieldsHead(fields[1..], false, r);
      CommaReads(first, RawField(fields[0]) + rest);
      FieldReads(fields[0], rest);
      FieldsRead(fields[1..], false, r);
      assert [fields[0]] + fields[1..] == fields;
    }
  }

  lemma {:induction false} FieldReads(field: (Text, Value), r: Text)
    requires CleanField(field) && Delimited(r)
    ensures ReadField(RawField(field) + r) == Some((field, r))
    decreases field
  {
    hide Raw, RawField, PrintString, ReadUnits, ReadValue;
    FieldOpen(field, r);
    StringReads(field.0, [COLON] + (Raw(field.1) + r));
    assert ([COLON] + (Raw(field.1) + r))[1..] == Raw(field.1) + r;
    RawReads(field.1, r);
  }

  // ---------------------------------------------------------------------------------------------
  // Sorting first and printing then is the same as printing sorted

  function Normal(v: Value): Value {
    match v
    case Arr(items) => Arr(NormalEach(items))
    case Obj(fields) => Obj(NormalByKey(fields))
    case _ => v
  }

  function NormalEach(items: seq<Value>): seq<Value> {
    if items == [] then [] else [Normal(items[0])] + NormalEach(items[1..])
  }

  function NormalByKey(fields: seq<(Text, Value)>): seq<(Text, Value)>
    decreases fields, 0
  {
    if fields == [] then [] else Insert(fields[0].0, NormalField(fields[0]), NormalByKey(fields[1..]))
  }

  function NormalField(field: (Text, Value)): Value {
    Normal(field.1)
  }

  function RawEach(fields: seq<(Text, Value)>): seq<(Text, Text)> {
    if fields == [] then [] else [(fields[0].0, RawField(fields[0]))] + RawEach(fields[1..])
  }

  lemma {:induction false} InsertThenPrint(key: Text, value: Value, sorted: seq<(Text, Value)>)
    ensures RawEach(Insert(key, value, sorted)) == Insert(key, RawField((key, value)), RawEach(sorted))
  {
    hide RawField, Less;
    if sorted == [] || Less(key, sorted[0].0) {
      assert ([(key, value)] + sorted)[1..] == sorted;
    } else {
      InsertThenPrint(key, value, sorted[1..]);
      assert Insert(key, value, sorted)[1..] == Insert(key, value, sorted[1..]);
    }
  }

  /** Parts after separators, and the closing unit. */
  function Closed(parts: seq<Text>, first: bool, close: Unit): Text {
    if parts == [] then [close] else Separator(first) + parts[0] + Closed(parts[1..], false, close)
  }

  lemma {:induction false} JoinIsClosed(parts: seq<Text>, close: Unit)
    ensures Join(parts) + [close] == Closed(parts, true, close)
    ensures parts != [] ==> [COMMA] + Join(parts) + [close] == Closed(parts, false, close)
  {
    if |parts| == 1 {
      assert parts[1..] == [];
    } else if parts != [] {
      JoinIsClosed(parts[1..], close);
      var p, rest := parts[0], Join(parts[1..]);
      assert p + [COMMA] + rest + [close] == [] + p + ([COMMA] + rest + [close]);
      assert [COMMA] + (p + [COMMA] + rest) + [close] == [COMMA] + p + ([COMMA] + rest + [close]);
    }
  }

  lemma {:induction false} PrintIsRaw(v: Value)
    ensures Print(v) == Raw(Normal(v))
    decreases v
  {
    hide PrintNumber, PrintString, Join, PrintEach, PrintByKey, RawItems, RawFields, NormalByKey, NormalEach;
    match v
    case Arr(items) =>
      ItemsAreRaw(items, true);
      JoinIsClosed(PrintEach(items), CLOSE_BRACKET);
    case Obj(fields) =>
      FieldsAreRaw(fields);
      FieldsAreClosed(NormalByKey(fields), true);
      JoinIsClosed(Values(PrintByKey(fields)), CLOSE_BRACE);
    case _ =>
  }

  lemma {:induction false} ItemsAreRaw(items: seq<Value>, first: bool)
    ensures Closed(PrintEach(items), first, CLOSE_BRACKET) == RawItems(NormalEach(items), first)
    decreases items
  {
    hide Print, Raw, Normal, Separator;
    if items != [] {
      PrintIsRaw(items[0]);
      ItemsAreRaw(items[1..], false);
      assert PrintEach(items)[1..] == PrintEach(items[1..]);
      assert NormalEach(items)[1..] == NormalEach(items[1..]);
    }
  }

  lemma {:induction false} FieldsAreClosed(fields: seq<(Text, Value)>, first: bool)
    ensures Closed(Values(RawEach(fields)), first, CLOSE_BRACE) == RawFields(fields, first)
    decreases |fields|
  {
    hide RawField, Separator;
    if fields != [] {
      FieldsAreClosed(fields[1..], false);
      assert RawEach(fields)[1..] == RawEach(fields[1..]);
      assert Values(RawEach(fields))[1..] == Values(RawEach(fields[1..]));
    }
  }

  lemma {:induction false} FieldsAreRaw(fields: seq<(Text, Value)>)
    ensures PrintByKey(fields) == RawEach(NormalByKey(fields))
    decreases fields, 0
  {
    hide PrintField, RawField, Insert, NormalField;
    if fields != [] {
      FieldIsRaw(fields[0]);
      FieldsAreRaw(fields[1..]);
      InsertThenPrint(fields[0].0, NormalField(fields[0]), NormalByKey(fields[1..]));
    }
  }

  lemma {:induction false} FieldIsRaw(field: (Text, Value))
    ensures PrintField(field) == RawField((field.0, NormalField(field)))
    decreases field
  {
    hide Print, Raw, Normal;
    PrintIsRaw(field.1);
  }

  // ---------------------------------------------------------------------------------------------
  // The order of keys

  lemma {:induction false} LessIsTotal(a: Text, b: Text)
    ensures a != b ==> Less(a, b) || Less(b, a)
    ensures !(Less(a, b) && Less(b, a)) && !Less(a, a)
  {
    if a != [] && b != [] {
      assert a == [a[0]] + a[1..] && b == [b[0]] + b[1..];
      LessIsTotal(a[1..], b[1..]);
      LessIsTotal(a[1..], a[1..]);
    } else if a != [] {
      LessIsTotal(a[1..], a[1..]);
    }
  }

  lemma {:induction false} LessIsTransitive(a: Text, b: Text, c: Text)
    requires Less(a, b) && Less(b, c)
    ensures Less(a, c)
  {
    if a != [] && a[0] == b[0] == c[0] {
      LessIsTransitive(a[1..], b[1..], c[1..]);
    }
  }

  ghost predicate Ordered<V>(s: seq<(Text, V)>) {
    forall i, j :: 0 <= i < j < |s| ==> Less(s[i].0, s[j].0)
  }

  lemma {:induction false} InsertFacts<V>(key: Text, value: V, s: seq<(Text, V)>)
    requires Ordered(s) && forall i :: 0 <= i < |s| ==> s[i].0 != key
    ensures Ordered(Insert(key, value, s))
    ensures forall e :: e in Insert(key, value, s) <==> e == (key, value) || e in s
    ensures forall i :: 0 <= i < |Insert(key, value, s)| ==>
      Insert(key, value, s)[i] == (key, value) || Insert(key, value, s)[i] in s
  {
    hide Less;
    if s == [] {
    } else if Less(key, s[0].0) {
      forall j | 0 < j < |s| ensures Less(key, s[j].0) {
        LessIsTransitive(key, s[0].0, s[j].0);
      }
    } else {
      LessIsTotal(key, s[0].0);
      InsertFacts(key, value, s[1..]);
      InsertAbove(key, value, s);
    }
  }

  lemma InsertAbove<V>(key: Text, value: V, s: seq<(Text, V)>)
    requires s != [] && Ordered(s) && Less(s[0].0, key)
    requires forall i :: 0 <= i < |Insert(key, value, s[1..])| ==>
      Insert(key, value, s[1..])[i] == (key, value) || Insert(key, value, s[1..])[i] in s[1..]
    ensures var after := Insert(key, value, s[1..]); forall j :: 0 <= j < |after| ==> Less(s[0].0, after[j].0)
  {
    hide Less, Insert;
    var after := Insert(key, value, s[1..]);
    forall j | 0 <= j < |after| ensures Less(s[0].0, after[j].0) {
      if after[j] != (key, value) {
        var k :| 0 <= k < |s[1..]| && s[1..][k] == after[j];
        assert Less(s[0].0, s[k + 1].0);
      }
    }
  }

  /** Two ordered lists with the same entries are the same list. */
  lemma {:induction false} OrderedIsUnique<V>(s: seq<(Text, V)>, t: seq<(Text, V)>)
    requires Ordered(s) && Ordered(t)
    requires forall e :: e in s <==> e in t
    ensures s == t
  {
    HeadIsIn(s);
    HeadIsIn(t);
    if s != [] {
      SameHead(s, t);
      forall e ensures e in s[1..] <==> e in t[1..] {
        LessIsTotal(s[0].0, s[0].0);
        assert e in s <==> e == s[0] || e in s[1..];
        assert e in t <==> e == t[0] || e in t[1..];
      }
      OrderedIsUnique(s[1..], t[1..]);
      assert s == [s[0]] + s[1..] && t == [t[0]] + t[1..];
    }
  }

  lemma HeadIsIn<V>(s: seq<V>)
    ensures s != [] ==> s[0] in s
  {
  }

  lemma SameHead<V>(s: seq<(Text, V)>, t: seq<(Text, V)>)
    requires Ordered(s) && Ordered(t) && s != [] && t != []
    requires s[0] in t && t[0] in s
    ensures s[0] == t[0]
  {
    LessIsTotal(s[0].0, t[0].0);
  }

  // ---------------------------------------------------------------------------------------------
  // Normal forms are equal exactly for values that are the same but for the order of keys

  function NormalPair(field: (Text, Value)): (Text, Value) {
    (field.0, NormalField(field))
  }

  function NormalPairs(fields: seq<(Text, Value)>): (pairs: seq<(Text, Value)>)
    ensures |pairs| == |fields|
    ensures forall i :: 0 <= i < |fields| ==> pairs[i] == NormalPair(fields[i])
  {
    seq(|fields|, i requires 0 <= i < |fields| => NormalPair(fields[i]))
  }

  lemma {:induction false} NormalByKeyFacts(fields: seq<(Text, Value)>)
    requires DistinctKeys(fields)
    ensures Ordered(NormalByKey(fields))
    ensures forall e :: e in NormalByKey(fields) <==> e in NormalPairs(fields)
    decreases |fields|
  {
    hide NormalField, Insert, Less, Ordered;
    if fields == [] {
      assert NormalPairs(fields) == [];
      EmptyIsOrdered();
    } else {
      NormalByKeyFacts(fields[1..]);
      assert NormalPairs(fields) == [NormalPairs(fields)[0]] + NormalPairs(fields[1..]);
      PairsKeys(fields);
      InsertFacts(fields[0].0, NormalField(fields[0]), NormalByKey(fields[1..]));
    }
  }

  lemma EmptyIsOrdered()
    ensures Ordered<Value>([])
  {
  }

  lemma PairsKeys(fields: seq<(Text, Value)>)
    requires DistinctKeys(fields) && fields != []
    requires forall e :: e in NormalByKey(fields[1..]) <==> e in NormalPairs(fields[1..])
    ensures var s := NormalByKey(fields[1..]); forall i :: 0 <= i < |s| ==> s[i].0 != fields[0].0
  {
    hide NormalField, NormalByKey;
    var s := NormalByKey(fields[1..]);
    forall i | 0 <= i < |s| ensures s[i].0 != fields[0].0 {
      assert s[i] in s;
      var j :| 0 <= j < |NormalPairs(fields[1..])| && NormalPairs(fields[1..])[j] == s[i];
      assert fields[1..][j].0 == fields[j + 1].0;
    }
  }

  lemma {:induction false} WellFormedAt(items: seq<Value>, i: nat)
    requires WellFormedItems(items) && i < |items|
    ensures WellFormed(items[i])
  {
    hide WellFormed;
    if i > 0 {
      WellFormedAt(items[1..], i - 1);
    }
  }

  lemma {:induction false} WellFormedFieldAt(fields: seq<(Text, Value)>, i: nat)
    requires WellFormedFields(fields) && i < |fields|
    ensures WellFormed(fields[i].1)
  {
    hide WellFormed;
    if i > 0 {
      WellFormedFieldAt(fields[1..], i - 1);
    }
  }

  lemma {:induction false} NormalEachAt(items: seq<Value>)
    ensures |NormalEach(items)| == |items|
    ensures forall i :: 0 <= i < |items| ==> NormalEach(items)[i] == Normal(items[i])
  {
    hide Normal;
    if items != [] {
      NormalEachAt(items[1..]);
    }
  }

  lemma {:induction false} SameIffNormal(v: Value, w: Value)
    requires WellFormed(v) && WellFormed(w)
    ensures Same(v, w) <==> Normal(v) == Normal(w)
    decreases v
  {
    hide WellFormedItems, WellFormedFields, NormalEach, NormalByKey, DistinctKeys;
    if v.Arr? && w.Arr? {
      ItemsSameIff(v.items, w.items);
    } else if v.Obj? && w.Obj? {
      forall i, j | 0 <= i < |v.fields| && 0 <= j < |w.fields|
        ensures SameField(v.fields[i], w.fields[j]) <==> NormalPair(v.fields[i]) == NormalPair(w.fields[j])
      {
        WellFormedFieldAt(v.fields, i);
        WellFormedFieldAt(w.fields, j);
        FieldSameIff(v.fields[i], w.fields[j]);
      }
      FieldsSameIff(v.fields, w.fields);
    }
  }

  lemma {:induction false} ItemsSameIff(a: seq<Value>, b: seq<Value>)
    requires WellFormedItems(a) && WellFormedItems(b)
    ensures (|a| == |b| && forall i :: 0 <= i < |a| ==> Same(a[i], b[i])) <==> NormalEach(a) == NormalEach(b)
    decreases a
  {
    hide WellFormed, WellFormedItems, Same, Normal, NormalEach;
    NormalEachAt(a);
    NormalEachAt(b);
    if |a| == |b| {
      forall i | 0 <= i < |a| ensures Same(a[i], b[i]) <==> Normal(a[i]) == Normal(b[i]) {
        WellFormedAt(a, i);
        WellFormedAt(b, i);
        SameIffNormal(a[i], b[i]);
      }
      forall i | 0 <= i < |a| ensures NormalEach(a)[i] == Normal(a[i]) && NormalEach(b)[i] == Normal(b[i]) {
      }
    }
  }

  lemma {:induction false} FieldSameIff(x: (Text, Value), y: (Text, Value))
    requires WellFormed(x.1) && WellFormed(y.1)
    ensures SameField(x, y) <==> NormalPair(x) == NormalPair(y)
    decreases x
  {
    hide WellFormed, Same, Normal;
    SameIffNormal(x.1, y.1);
  }

  ghost predicate AllIn(a: seq<(Text, Value)>, b: seq<(Text, Value)>) {
    forall i :: 0 <= i < |a| ==> NormalIn(a[i], b)
  }

  ghost predicate NormalIn(x: (Text, Value), b: seq<(Text, Value)>) {
    exists j :: 0 <= j < |b| && NormalPair(x) == NormalPair(b[j])
  }

  lemma AllInIff(a: seq<(Text, Value)>, b: seq<(Text, Value)>)
    ensures AllIn(a, b) <==> forall e :: e in NormalPairs(a) ==> e in NormalPairs(b)
  {
    hide NormalPair;
    var p, q := NormalPairs(a), NormalPairs(b);
    if AllIn(a, b) {
      forall e | e in p ensures e in q {
        var i :| 0 <= i < |p| && p[i] == e;
        assert NormalIn(a[i], b);
        var j :| 0 <= j < |b| && NormalPair(a[i]) == NormalPair(b[j]);
        assert q[j] == e;
      }
    }
    if forall e :: e in p ==> e in q {
      forall i | 0 <= i < |a| ensures NormalIn(a[i], b) {
        assert p[i] in p;
        var j :| 0 <= j < |q| && q[j] == p[i];
        assert NormalPair(a[i]) == NormalPair(b[j]);
      }
    }
  }

  lemma FieldsSameIff(a: seq<(Text, Value)>, b: seq<(Text, Value)>)
    requires DistinctKeys(a) && DistinctKeys(b)
    requires forall i, j :: 0 <= i < |a| && 0 <= j < |b| ==>
      (SameField(a[i], b[j]) <==> NormalPair(a[i]) == NormalPair(b[j]))
    ensures Same(Obj(a), Obj(b)) <==> NormalByKey(a) == NormalByKey(b)
  {
    hide NormalPair, NormalByKey, NormalPairs, Ordered, DistinctKeys, SameField, Same, AllIn;
    SameObjects(a, b);
    AllInIff(a, b);
    AllInIff(b, a);
    NormalByKeyFacts(a);
    NormalByKeyFacts(b);
    if Same(Obj(a), Obj(b)) {
      OrderedIsUnique(NormalByKey(a), NormalByKey(b));
    }
  }

  lemma SameObjects(a: seq<(Text, Value)>, b: seq<(Text, Value)>)
    requires forall i, j :: 0 <= i < |a| && 0 <= j < |b| ==>
      (SameField(a[i], b[j]) <==> NormalPair(a[i]) == NormalPair(b[j]))
    ensures Same(Obj(a), Obj(b)) <==> AllIn(a, b) && AllIn(b, a)
  {
    hide NormalPair, SameField, FieldsIn, FieldsOnto, AllIn;
    FieldsInIff(a, b);
    FieldsOntoIff(a, b);
  }

  lemma FieldsInIff(a: seq<(Text, Value)>, b: seq<(Text, Value)>)
    requires forall i, j :: 0 <= i < |a| && 0 <= j < |b| ==>
      (SameField(a[i], b[j]) <==> NormalPair(a[i]) == NormalPair(b[j]))
    ensures FieldsIn(a, b) <==> AllIn(a, b)
  {
    hide NormalPair, SameField;
    forall i | 0 <= i < |a| ensures FieldIn(a[i], b) <==> NormalIn(a[i], b) {
    }
  }

  lemma FieldsOntoIff(a: seq<(Text, Value)>, b: seq<(Text, Value)>)
    requires forall i, j :: 0 <= i < |a| && 0 <= j < |b| ==>
      (SameField(a[i], b[j]) <==> NormalPair(a[i]) == NormalPair(b[j]))
    ensures FieldsOnto(a, b) <==> AllIn(b, a)
  {
    hide NormalPair, SameField;
    forall j | 0 <= j < |b| ensures FieldOnto(a, b[j]) <==> NormalIn(b[j], a) {
    }
  }

  // ---------------------------------------------------------------------------------------------
  // Refusals

  lemma {:induction false} RefusedIff(v: Value)
    ensures Refused(v).None? <==> Clean(v)
    decreases v
  {
    hide RefusedItem, RefusalsByKey, CleanItems, CleanFields;
    match v
    case Arr(items) => RefusedItemIff(items);
    case Obj(fields) => RefusedFieldsIff(fields);
    case _ =>
  }

  lemma {:induction false} RefusedItemIff(items: seq<Value>)
    ensures RefusedItem(items).None? <==> CleanItems(items)
    decreases items
  {
    hide Refused, Clean;
    if items != [] {
      RefusedIff(items[0]);
      RefusedItemIff(items[1..]);
    }
  }

  lemma {:induction false} RefusedFieldsIff(fields: seq<(Text, Value)>)
    ensures FirstRefusal(Values(RefusalsByKey(fields))).None? <==> CleanFields(fields)
    decreases fields, 0
  {
    hide Insert, RefusedField, CleanField;
    if fields != [] {
      RefusedFieldIff(fields[0]);
      RefusedFieldsIff(fields[1..]);
      InsertedRefusal(fields[0].0, RefusedField(fields[0]), RefusalsByKey(fields[1..]));
    }
  }

  lemma {:induction false} RefusedFieldIff(field: (Text, Value))
    ensures RefusedField(field).None? <==> CleanField(field)
    decreases field
  {
    hide Refused, Clean;
    RefusedIff(field.1);
  }

  lemma {:induction false} InsertedRefusal(key: Text, refusal: Option<Refusal>, sorted: seq<(Text, Option<Refusal>)>)
    ensures FirstRefusal(Values(Insert(key, refusal, sorted))).None?
      <==> refusal.None? && FirstRefusal(Values(sorted)).None?
  {
    hide Less;
    if sorted == [] || Less(key, sorted[0].0) {
      assert ([(key, refusal)] + sorted)[1..] == sorted;
      assert ([refusal] + Values(sorted))[1..] == Values(sorted);
    } else {
      InsertedRefusal(key, refusal, sorted[1..]);
      assert Insert(key, refusal, sorted)[1..] == Insert(key, refusal, sorted[1..]);
      assert Values(sorted)[1..] == Values(sorted[1..]);
      assert Values(Insert(key, refusal, sorted))[1..] == Values(Insert(key, refusal, sorted[1..]));
    }
  }

  lemma {:induction false} NormalIsClean(v: Value)
    requires Clean(v)
    ensures Clean(Normal(v))
    decreases v
  {
    hide CleanItems, CleanFields, NormalEach, NormalByKey;
    match v
    case Arr(items) => NormalItemsClean(items);
    case Obj(fields) => NormalFieldsClean(fields);
    case _ =>
  }

  lemma {:induction false} NormalItemsClean(items: seq<Value>)
    requires CleanItems(items)
    ensures CleanItems(NormalEach(items))
    decreases items
  {
    hide Clean, Normal;
    if items != [] {
      NormalIsClean(items[0]);
      NormalItemsClean(items[1..]);
      assert NormalEach(items)[1..] == NormalEach(items[1..]);
    }
  }

  lemma {:induction false} NormalFieldsClean(fields: seq<(Text, Value)>)
    requires CleanFields(fields)
    ensures CleanFields(NormalByKey(fields))
    decreases fields, 0
  {
    hide CleanField, NormalField, Insert;
    if fields != [] {
      NormalFieldClean(fields[0]);
      NormalFieldsClean(fields[1..]);
      InsertClean(fields[0].0, NormalField(fields[0]), NormalByKey(fields[1..]));
    }
  }

  lemma {:induction false} NormalFieldClean(field: (Text, Value))
    requires CleanField(field)
    ensures Clean(NormalField(field))
    decreases field
  {
    hide Clean, Normal;
    NormalIsClean(field.1);
  }

  lemma {:induction false} InsertClean(key: Text, value: Value, sorted: seq<(Text, Value)>)
    requires Clean(value) && CleanFields(sorted)
    ensures CleanFields(Insert(key, value, sorted))
  {
    hide Clean, Less;
    if sorted == [] || Less(key, sorted[0].0) {
      assert ([(key, value)] + sorted)[1..] == sorted;
    } else {
      InsertClean(key, value, sorted[1..]);
      assert Insert(key, value, sorted)[1..] == Insert(key, value, sorted[1..]);
    }
  }

  // ---------------------------------------------------------------------------------------------
  // Sorted values

  /** The keys of every object, at every depth, are in the order of their code units. */
  ghost predicate Sorted(v: Value) {
    match v
    case Arr(items) => SortedItems(items)
    case Obj(fields) => Ordered(fields) && SortedFields(fields)
    case _ => true
  }

  ghost predicate SortedItems(items: seq<Value>) {
    items == [] || (Sorted(items[0]) && SortedItems(items[1..]))
  }

  ghost predicate SortedFields(fields: seq<(Text, Value)>)
    decreases fields, 0
  {
    fields == [] || (SortedField(fields[0]) && SortedFields(fields[1..]))
  }

  ghost predicate SortedField(field: (Text, Value)) {
    Sorted(field.1)
  }

  lemma {:induction false} NormalIsSorted(v: Value)
    requires WellFormed(v)
    ensures Sorted(Normal(v))
    decreases v
  {
    hide SortedItems, SortedFields, NormalEach, NormalByKey, Ordered, DistinctKeys, WellFormedItems, WellFormedFields;
    match v
    case Arr(items) => NormalItemsSorted(items);
    case Obj(fields) =>
      NormalByKeyFacts(fields);
      NormalFieldsSorted(fields);
    case _ =>
  }

  lemma {:induction false} NormalItemsSorted(items: seq<Value>)
    requires WellFormedItems(items)
    ensures SortedItems(NormalEach(items))
    decreases items
  {
    hide Sorted, Normal, WellFormed;
    if items != [] {
      NormalIsSorted(items[0]);
      NormalItemsSorted(items[1..]);
      assert NormalEach(items)[1..] == NormalEach(items[1..]);
    }
  }

  lemma {:induction false} NormalFieldsSorted(fields: seq<(Text, Value)>)
    requires WellFormedFields(fields)
    ensures SortedFields(NormalByKey(fields))
    decreases fields, 0
  {
    hide Sorted, SortedField, NormalField, Insert, WellFormed, WellFormedField;
    if fields != [] {
      NormalFieldSorted(fields[0]);
      NormalFieldsSorted(fields[1..]);
      InsertSorted(fields[0].0, NormalField(fields[0]), NormalByKey(fields[1..]));
    }
  }

  lemma {:induction false} NormalFieldSorted(field: (Text, Value))
    requires WellFormedField(field)
    ensures Sorted(NormalField(field))
    decreases field
  {
    hide Sorted, Normal, WellFormed;
    NormalIsSorted(field.1);
  }

  lemma {:induction false} InsertSorted(key: Text, value: Value, fields: seq<(Text, Value)>)
    requires Sorted(value) && SortedFields(fields)
    ensures SortedFields(Insert(key, value, fields))
  {
    hide Sorted, Less;
    if fields != [] && !Less(key, fields[0].0) {
      InsertSorted(key, value, fields[1..]);
      assert Insert(key, value, fields)[1..] == Insert(key, value, fields[1..]);
    } else {
      assert ([(key, value)] + fields)[1..] == fields;
    }
  }

  /** What is sorted already has each key once, and sorting leaves it alone. */
  lemma {:induction false} SortedIsNormal(v: Value)
    requires Sorted(v)
    ensures Normal(v) == v && WellFormed(v)
    decreases v
  {
    hide SortedItems, SortedFields, NormalEach, NormalByKey, Ordered, DistinctKeys, WellFormedItems, WellFormedFields;
    match v
    case Arr(items) => SortedItemsNormal(items);
    case Obj(fields) => SortedFieldsNormal(fields);
    case _ =>
  }

  lemma {:induction false} SortedItemsNormal(items: seq<Value>)
    requires SortedItems(items)
    ensures NormalEach(items) == items && WellFormedItems(items)
    decreases items
  {
    hide Sorted, Normal, WellFormed;
    if items != [] {
      SortedIsNormal(items[0]);
      SortedItemsNormal(items[1..]);
    }
  }

  lemma {:induction false} SortedFieldsNormal(fields: seq<(Text, Value)>)
    requires Ordered(fields) && SortedFields(fields)
    ensures NormalByKey(fields) == fields && DistinctKeys(fields) && WellFormedFields(fields)
    decreases fields, 0
  {
    hide Sorted, SortedField, NormalField, WellFormedField, Less;
    OrderedIsDistinct(fields);
    if fields != [] {
      SortedFieldNormal(fields[0]);
      assert Ordered(fields[1..]);
      SortedFieldsNormal(fields[1..]);
      assert fields[1..] != [] ==> Less(fields[0].0, fields[1].0);
      assert fields == [(fields[0].0, fields[0].1)] + fields[1..];
    }
  }

  lemma {:induction false} SortedFieldNormal(field: (Text, Value))
    requires SortedField(field)
    ensures NormalField(field) == field.1 && WellFormedField(field)
    decreases field
  {
    hide Sorted, Normal, WellFormed;
    SortedIsNormal(field.1);
  }

  lemma OrderedIsDistinct<V>(s: seq<(Text, V)>)
    requires Ordered(s)
    ensures DistinctKeys(s)
  {
    hide Less;
    forall i, j | 0 <= i < j < |s| ensures s[i].0 != s[j].0 {
      LessIsTotal(s[i].0, s[j].0);
    }
  }

  // ---------------------------------------------------------------------------------------------
  // The canonical text

  /** A value is refused exactly when something in it has no canonical text. */
  lemma RefusesIff(v: Value)
    ensures CanonicalJson(v).Ok? <==> Clean(v)
  {
    hide Refused, Clean, Print;
    RefusedIff(v);
  }

  /** Two values print alike exactly when they are the same but for the order of object keys. */
  lemma PrintsAlikeIff(v: Value, w: Value)
    requires WellFormed(v) && WellFormed(w)
    requires CanonicalJson(v).Ok? && CanonicalJson(w).Ok?
    ensures CanonicalJson(v) == CanonicalJson(w) <==> Same(v, w)
  {
    hide Refused, Clean, WellFormed, Same, Normal, Print, Raw;
    RefusedIff(v);
    RefusedIff(w);
    PrintIsRaw(v);
    PrintIsRaw(w);
    SameIffNormal(v, w);
    NormalIsClean(v);
    NormalIsClean(w);
    if Print(v) == Print(w) {
      RawReads(Normal(v), []);
      RawReads(Normal(w), []);
    }
  }

  /** No canonical text is a proper prefix of another's, as long as a delimiter follows. */
  lemma PrintsApart(v: Value, w: Value, r: Text, t: Text)
    requires WellFormed(v) && WellFormed(w) && Clean(v) && Clean(w)
    requires Print(v) + r == Print(w) + t && Delimited(r) && Delimited(t)
    ensures Same(v, w) && r == t
  {
    hide Clean, WellFormed, Same, Normal, Print, Raw;
    PrintIsRaw(v);
    PrintIsRaw(w);
    SameIffNormal(v, w);
    NormalIsClean(v);
    NormalIsClean(w);
    RawReads(Normal(v), r);
    RawReads(Normal(w), t);
  }

  /**
   Round trip: the canonical text of a value, followed by nothing or by a delimiter, reads back as the same value with the
   keys of every object in the order of their code units.
   */
  lemma ReadsBack(v: Value, r: Text)
    requires WellFormed(v) && CanonicalJson(v).Ok? && Delimited(r)
    ensures ReadValue(CanonicalJson(v).value + r) == Some((Normal(v), r))
    ensures Same(v, Normal(v)) && Sorted(Normal(v))
  {
    hide Refused, Clean, WellFormed, Same, Normal, Print, Raw, ReadValue, Sorted;
    RefusedIff(v);
    PrintIsRaw(v);
    NormalIsClean(v);
    RawReads(Normal(v), r);
    NormalIsSorted(v);
    SortedIsNormal(Normal(v));
    SameIffNormal(v, Normal(v));
  }
}
