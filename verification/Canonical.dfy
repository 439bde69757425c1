/**
 The canonical printer (src/shared/protocol.js). Text is a sequence of UTF-16 code units, so that unpaired
 surrogates, which JSON.stringify escapes, can be told apart from pairs, which it does not.
 */
module Canonical {
  import opened Prelude

  type Unit = u: nat | u < 0x1_0000
  type Text = seq<Unit>

  const QUOTE: Unit := 34
  const COMMA: Unit := 44
  const MINUS: Unit := 45
  const ZERO: Unit := 48
  const COLON: Unit := 58
  const OPEN_BRACKET: Unit := 91
  const BACKSLASH: Unit := 92
  const CLOSE_BRACKET: Unit := 93
  const LETTER_A: Unit := 97
  const LETTER_B: Unit := 98
  const LETTER_F: Unit := 102
  const LETTER_N: Unit := 110
  const LETTER_R: Unit := 114
  const LETTER_T: Unit := 116
  const LETTER_U: Unit := 117
  const OPEN_BRACE: Unit := 123
  const CLOSE_BRACE: Unit := 125

  const NULL: Text := [110, 117, 108, 108]
  const TRUE: Text := [116, 114, 117, 101]
  const FALSE: Text := [102, 97, 108, 115, 101]

  const MAX_SAFE_INTEGER := 0x1F_FFFF_FFFF_FFFF

  /** The numbers modelled: integers that a double holds exactly. */
  type Number = n: int | -MAX_SAFE_INTEGER <= n <= MAX_SAFE_INTEGER

  datatype Value =
    | Null
    | Bool(b: bool)
    | Num(n: Number)
    | Str(s: Text)
    | Arr(items: seq<Value>)
    | Obj(fields: seq<(Text, Value)>)
    | NonFinite      // NaN and the infinities
    | Unsupported    // undefined, functions, symbols, big integers

  datatype Refusal = NonFiniteNumber | UnsupportedValue

  // ---------------------------------------------------------------------------------------------
  // JSON.stringify of numbers and strings

  function Digits(n: nat): Text {
    if n < 10 then [ZERO + n] else Digits(n / 10) + [ZERO + n % 10]
  }

  function PrintNumber(n: int): Text {
    if n < 0 then [MINUS] + Digits(-n) else Digits(n)
  }

  predicate IsLead(u: Unit) { 0xD800 <= u < 0xDC00 }
  predicate IsTrail(u: Unit) { 0xDC00 <= u < 0xE000 }

  function Hex(d: nat): Unit
    requires d < 16
  {
    if d < 10 then ZERO + d else LETTER_A + (d - 10)
  }

  function UnicodeEscape(u: Unit): Text {
    [BACKSLASH, LETTER_U, Hex(u / 4096), Hex(u / 256 % 16), Hex(u / 16 % 16), Hex(u % 16)]
  }

  /** One code unit that is not half of a surrogate pair. */
  function PrintUnit(u: Unit): Text {
    if u == QUOTE then [BACKSLASH, QUOTE]
    else if u == BACKSLASH then [BACKSLASH, BACKSLASH]
    else if u == 8 then [BACKSLASH, LETTER_B]
    else if u == 9 then [BACKSLASH, LETTER_T]
    else if u == 10 then [BACKSLASH, LETTER_N]
    else if u == 12 then [BACKSLASH, LETTER_F]
    else if u == 13 then [BACKSLASH, LETTER_R]
    else if u < 32 || IsLead(u) || IsTrail(u) then UnicodeEscape(u)
    else [u]
  }

  function PrintUnits(s: Text): Text {
    if s == [] then []
    else if IsLead(s[0]) && |s| > 1 && IsTrail(s[1]) then [s[0], s[1]] + PrintUnits(s[2..])
    else PrintUnit(s[0]) + PrintUnits(s[1..])
  }

  function PrintString(s: Text): Text {
    [QUOTE] + PrintUnits(s) + [QUOTE]
  }

  // ---------------------------------------------------------------------------------------------
  // canonicalJson

  /** The order of `sort()` without a comparator: by code units. */
  predicate Less(a: Text, b: Text) {
    b != [] && (a == [] || a[0] < b[0] || (a[0] == b[0] && Less(a[1..], b[1..])))
  }

  function Insert<V>(key: Text, value: V, sorted: seq<(Text, V)>): seq<(Text, V)> {
    if sorted == [] || Less(key, sorted[0].0) then [(key, value)] + sorted
    else [sorted[0]] + Insert(key, value, sorted[1..])
  }

  function Join(parts: seq<Text>): Text {
    if parts == [] then []
    else if |parts| == 1 then parts[0]
    else parts[0] + [COMMA] + Join(parts[1..])
  }

  function Values<V>(entries: seq<(Text, V)>): seq<V> {
    if entries == [] then [] else [entries[0].1] + Values(entries[1..])
  }

  /** What the first offending value met in printing order throws. */
  function Refused(v: Value): Option<Refusal> {
    match v
    case Arr(items) => RefusedItem(items)
    case Obj(fields) => FirstRefusal(Values(RefusalsByKey(fields)))
    case NonFinite => Some(NonFiniteNumber)
    case Unsupported => Some(UnsupportedValue)
    case _ => None
  }

  function RefusedItem(items: seq<Value>): Option<Refusal> {
    if items == [] then None
    else if Refused(items[0]).Some? then Refused(items[0])
    else RefusedItem(items[1..])
  }

  function RefusalsByKey(fields: seq<(Text, Value)>): seq<(Text, Option<Refusal>)>
    decreases fields, 0
  {
    if fields == [] then []
    else Insert(fields[0].0, RefusedField(fields[0]), RefusalsByKey(fields[1..]))
  }

  function RefusedField(field: (Text, Value)): Option<Refusal> {
    Refused(field.1)
  }

  function FirstRefusal(refusals: seq<Option<Refusal>>): Option<Refusal> {
    if refusals == [] then None
    else if refusals[0].Some? then refusals[0]
    else FirstRefusal(refusals[1..])
  }

  /** The text of a value that is not refused. */
  function Print(v: Value): Text {
    match v
    case Null => NULL
    case Bool(b) => if b then TRUE else FALSE
    case Num(n) => PrintNumber(n)
    case Str(s) => PrintString(s)
    case Arr(items) => [OPEN_BRACKET] + Join(PrintEach(items)) + [CLOSE_BRACKET]
    case Obj(fields) => [OPEN_BRACE] + Join(Values(PrintByKey(fields))) + [CLOSE_BRACE]
    case NonFinite => []
    case Unsupported => []
  }

  function PrintEach(items: seq<Value>): seq<Text> {
    if items == [] then [] else [Print(items[0])] + PrintEach(items[1..])
  }

  function PrintByKey(fields: seq<(Text, Value)>): seq<(Text, Text)>
    decreases fields, 0
  {
    if fields == [] then [] else Insert(fields[0].0, PrintField(fields[0]), PrintByKey(fields[1..]))
  }

  function PrintField(field: (Text, Value)): Text {
    PrintString(field.0) + [COLON] + Print(field.1)
  }

  function CanonicalJson(v: Value): Result<Text, Refusal> {
    match Refused(v)
    case Some(refusal) => Err(refusal)
    case None => Ok(Print(v))
  }

  // ---------------------------------------------------------------------------------------------
  // Values: printable ones, and when two are the same but for the order of object keys

  ghost predicate DistinctKeys<V>(fields: seq<(Text, V)>) {
    forall i, j :: 0 <= i < j < |fields| ==> fields[i].0 != fields[j].0
  }

  /** Every object has each of its keys once, at every depth. */
  ghost predicate WellFormed(v: Value) {
    match v
    case Arr(items) => WellFormedItems(items)
    case Obj(fields) => DistinctKeys(fields) && WellFormedFields(fields)
    case _ => true
  }

  ghost predicate WellFormedItems(items: seq<Value>) {
    items == [] || (WellFormed(items[0]) && WellFormedItems(items[1..]))
  }

  ghost predicate WellFormedFields(fields: seq<(Text, Value)>)
    decreases fields, 0
  {
    fields == [] || (WellFormedField(fields[0]) && WellFormedFields(fields[1..]))
  }

  ghost predicate WellFormedField(field: (Text, Value)) {
    WellFormed(field.1)
  }

  /** Nothing in the value, at any depth, is without a canonical text. */
  ghost predicate Clean(v: Value) {
    match v
    case Arr(items) => CleanItems(items)
    case Obj(fields) => CleanFields(fields)
    case NonFinite => false
    case Unsupported => false
    case _ => true
  }

  ghost predicate CleanItems(items: seq<Value>) {
    items == [] || (Clean(items[0]) && CleanItems(items[1..]))
  }

  ghost predicate CleanFields(fields: seq<(Text, Value)>)
    decreases fields, 0
  {
    fields == [] || (CleanField(fields[0]) && CleanFields(fields[1..]))
  }

  ghost predicate CleanField(field: (Text, Value)) {
    Clean(field.1)
  }

  ghost predicate Same(v: Value, w: Value) {
    match (v, w)
    case (Arr(a), Arr(b)) => |a| == |b| && forall i :: 0 <= i < |a| ==> Same(a[i], b[i])
    case (Obj(a), Obj(b)) => FieldsIn(a, b) && FieldsOnto(a, b)
    case _ => v == w
  }

  ghost predicate FieldsIn(a: seq<(Text, Value)>, b: seq<(Text, Value)>)
    decreases a, 1
  {
    forall i :: 0 <= i < |a| ==> FieldIn(a[i], b)
  }

  ghost predicate FieldIn(x: (Text, Value), b: seq<(Text, Value)>)
    decreases x, 1
  {
    exists j :: 0 <= j < |b| && SameField(x, b[j])
  }

  ghost predicate FieldsOnto(a: seq<(Text, Value)>, b: seq<(Text, Value)>)
    decreases a, 1
  {
    forall j :: 0 <= j < |b| ==> FieldOnto(a, b[j])
  }

  ghost predicate FieldOnto(a: seq<(Text, Value)>, y: (Text, Value))
    decreases a, 0
  {
    exists i :: 0 <= i < |a| && SameField(a[i], y)
  }

  ghost predicate SameField(x: (Text, Value), y: (Text, Value))
    decreases x, 0
  {
    x.0 == y.0 && Same(x.1, y.1)
  }
}
