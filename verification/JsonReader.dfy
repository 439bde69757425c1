/**
 Reading JSON (RFC 8259) as far as it is printed here: no white space, and numbers that are integers. The code units are
 those of the standard; nothing of the printer is used.
 */
module JsonReader {
  import opened Prelude
  import opened Canonical

  // ---------------------------------------------------------------------------------------------
  // Numbers (section 6)

  predicate IsDigit(u: Unit) { 48 <= u <= 57 }

  /** The digits at the front. */
  function DigitsOf(t: Text): (n: nat)
    ensures n <= |t|
  {
    if t == [] || !IsDigit(t[0]) then 0 else 1 + DigitsOf(t[1..])
  }

  function Denoted(digits: Text): int {
    if digits == [] then 0 else 10 * Denoted(digits[..|digits| - 1]) + (digits[|digits| - 1] as int - 48)
  }

  function ReadNumber(t: Text): (r: Option<(Value, Text)>)
    ensures r.Some? ==> |r.value.1| < |t|
  {
    var negative := t != [] && t[0] == 45;
    var u := if negative then t[1..] else t;
    var n := DigitsOf(u);
    var magnitude := Denoted(u[..n]);
    if n == 0 || !(-MAX_SAFE_INTEGER <= magnitude <= MAX_SAFE_INTEGER) then None
    else Some((Num(if negative then -magnitude else magnitude), u[n..]))
  }

  // ---------------------------------------------------------------------------------------------
  // Strings (section 7)

  function HexDigit(u: Unit): Option<nat> {
    if 48 <= u <= 57 then Some(u - 48)
    else if 97 <= u <= 102 then Some(u - 87)
    else None
  }

  /** The unit behind `\u`. */
  function FromHex(t: Text): Option<Unit>
    requires |t| >= 4
  {
    match (HexDigit(t[0]), HexDigit(t[1]), HexDigit(t[2]), HexDigit(t[3]))
    case (Some(a), Some(b), Some(c), Some(d)) =>
      var u := 4096 * a + 256 * b + 16 * c + d;
      if u < 0x1_0000 then Some(u) else None
    case _ => None
  }

  /** The unit behind a backslash and a letter. */
  function Unescaped(u: Unit): Option<Unit> {
    if u == 34 || u == 92 || u == 47 then Some(u)
    else if u == 98 then Some(8)
    else if u == 102 then Some(12)
    else if u == 110 then Some(10)
    else if u == 114 then Some(13)
    else if u == 116 then Some(9)
    else None
  }

  /** One unit of a string. */
  function ReadUnit(t: Text): (r: Option<(Unit, Text)>)
    ensures r.Some? ==> |r.value.1| < |t|
  {
    if t == [] || t[0] == 34 || t[0] < 32 then None
    else if t[0] != 92 then Some((t[0], t[1..]))
    else if |t| >= 6 && t[1] == 117 then
      match FromHex(t[2..6])
      case Some(u) => Some((u, t[6..]))
      case None => None
    else if |t| >= 2 && Unescaped(t[1]).Some? then Some((Unescaped(t[1]).value, t[2..]))
    else None
  }

  /** A string from behind its opening quote. */
  function ReadUnits(t: Text): (r: Option<(Text, Text)>)
    ensures r.Some? ==> |r.value.1| < |t|
    decreases |t|
  {
    if t != [] && t[0] == 34 then Some(([], t[1..]))
    else
      match ReadUnit(t)
      case None => None
      case Some((u, rest)) =>
        match ReadUnits(rest)
        case None => None
        case Some((s, more)) => Some(([u] + s, more))
  }

  // ---------------------------------------------------------------------------------------------
  // Values (sections 3, 4 and 5)

  function ReadName(t: Text, name: Text, v: Value): (r: Option<(Value, Text)>)
    requires name != []
    ensures r.Some? ==> |r.value.1| < |t|
  {
    if name <= t then Some((v, t[|name|..])) else None
  }

  function ReadValue(t: Text): (r: Option<(Value, Text)>)
    ensures r.Some? ==> |r.value.1| < |t|
    decreases |t|, 0
  {
    if t == [] then None
    else if t[0] == 110 then ReadName(t, [110, 117, 108, 108], Null)
    else if t[0] == 116 then ReadName(t, [116, 114, 117, 101], Bool(true))
    else if t[0] == 102 then ReadName(t, [102, 97, 108, 115, 101], Bool(false))
    else if t[0] == 34 then
      match ReadUnits(t[1..])
      case None => None
      case Some((s, rest)) => Some((Str(s), rest))
    else if t[0] == 91 then
      match ReadItems(t[1..], true)
      case None => None
      case Some((items, rest)) => Some((Arr(items), rest))
    else if t[0] == 123 then
      match ReadFields(t[1..], true)
      case None => None
      case Some((fields, rest)) => Some((Obj(fields), rest))
    else ReadNumber(t)
  }

  /** What comes before an item or a field: nothing, or a comma from the second on. */
  function AfterComma(t: Text, first: bool): (r: Option<Text>)
    ensures r.Some? ==> |r.value| <= |t|
  {
    if first then Some(t) else if t != [] && t[0] == 44 then Some(t[1..]) else None
  }

  function ReadItems(t: Text, first: bool): (r: Option<(seq<Value>, Text)>)
    ensures r.Some? ==> |r.value.1| < |t|
    decreases |t|, 1
  {
    if t != [] && t[0] == 93 then Some(([], t[1..]))
    else
      match AfterComma(t, first)
      case None => None
      case Some(u) =>
        match ReadValue(u)
        case None => None
        case Some((v, rest)) =>
          match ReadItems(rest, false)
          case None => None
          case Some((vs, more)) => Some(([v] + vs, more))
  }

  function ReadField(t: Text): (r: Option<((Text, Value), Text)>)
    ensures r.Some? ==> |r.value.1| < |t|
    decreases |t|, 0
  {
    if t == [] || t[0] != 34 then None
    else
      match ReadUnits(t[1..])
      case None => None
      case Some((key, rest)) =>
        if rest == [] || rest[0] != 58 then None
        else
          match ReadValue(rest[1..])
          case None => None
          case Some((v, more)) => Some(((key, v), more))
  }

  function ReadFields(t: Text, first: bool): (r: Option<(seq<(Text, Value)>, Text)>)
    ensures r.Some? ==> |r.value.1| < |t|
    decreases |t|, 1
  {
    if t != [] && t[0] == 125 then Some(([], t[1..]))
    else
      match AfterComma(t, first)
      case None => None
      case Some(u) =>
        match ReadField(u)
        case None => None
        case Some((field, rest)) =>
          match ReadFields(rest, false)
          case None => None
          case Some((fields, more)) => Some(([field] + fields, more))
  }
}
