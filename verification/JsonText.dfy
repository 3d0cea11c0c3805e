/**
 JSON text as the Gateway writes it (no spaces, non-ASCII characters kept) on
 UTF-8 bytes, its exact size, and the nesting scanner that guards the reader.
 Strings are sequences of Unicode scalar values.
 */
module JsonText {
  import opened Common

  type byte = b: int | 0 <= b < 256

  type Bytes = seq<byte>

  // ----- UTF-8 (section 4 of RFC 3629)

  predicate Tail(b: byte) {
    0x80 <= b <= 0xBF
  }

  /** Length of the first well-formed character, or 0. */
  function FirstCharLength(s: Bytes): (n: nat)
    ensures n <= |s| && n <= 4
  {
    if s == [] then 0
    else if s[0] < 0x80 then 1
    else if 0xC2 <= s[0] <= 0xDF then (if |s| >= 2 && Tail(s[1]) then 2 else 0)
    else if 0xE0 <= s[0] <= 0xEF then
      if |s| >= 3 && Tail(s[1]) && Tail(s[2]) && (s[0] == 0xE0 ==> s[1] >= 0xA0) && (s[0] == 0xED ==> s[1] <= 0x9F) then 3 else 0
    else if 0xF0 <= s[0] <= 0xF4 then
      if |s| >= 4 && Tail(s[1]) && Tail(s[2]) && Tail(s[3]) && (s[0] == 0xF0 ==> s[1] >= 0x90) && (s[0] == 0xF4 ==> s[1] <= 0x8F) then 4 else 0
    else 0
  }

  predicate Utf8Valid(s: Bytes)
    decreases |s|
  {
    s == [] || (FirstCharLength(s) > 0 && Utf8Valid(s[FirstCharLength(s)..]))
  }

  lemma {:induction false} Utf8Concat(a: Bytes, b: Bytes)
    requires Utf8Valid(a) && Utf8Valid(b)
    ensures Utf8Valid(a + b)
    decreases |a|
  {
    if a == [] {
      assert a + b == b;
    } else {
      var n := FirstCharLength(a);
      assert FirstCharLength(a + b) == n;
      assert (a + b)[n..] == a[n..] + b;
      Utf8Concat(a[n..], b);
    }
  }

  lemma {:induction false} AsciiValid(s: Bytes)
    requires forall i :: 0 <= i < |s| ==> s[i] < 0x80
    ensures Utf8Valid(s)
    decreases |s|
  {
    if s == [] {
    } else {
      AsciiValid(s[1..]);
    }
  }

  /** A Unicode scalar value; surrogates are normalised away before anything is encoded. */
  type Scalar = c: int | 0 <= c < 0x110000 && !(0xD800 <= c <= 0xDFFF)

  type Text = seq<Scalar>

  function EncodeScalar(c: Scalar): Bytes
  {
    if c < 0x80 then [c]
    else if c < 0x800 then [0xC0 + c / 64, 0x80 + c % 64]
    else if c < 0x10000 then [0xE0 + c / 4096, 0x80 + c / 64 % 64, 0x80 + c % 64]
    else [0xF0 + c / 262144, 0x80 + c / 4096 % 64, 0x80 + c / 64 % 64, 0x80 + c % 64]
  }

  lemma EncodeScalarValid(c: Scalar)
    ensures Utf8Valid(EncodeScalar(c))
    ensures c >= 0x80 ==> forall i :: 0 <= i < |EncodeScalar(c)| ==> EncodeScalar(c)[i] >= 0x80
  {
    var e := EncodeScalar(c);
    assert FirstCharLength(e) == |e|;
    assert e[|e|..] == [];
  }

  // ----- JSON values and their text

  datatype Json =
    | JNull
    | JBool(b: bool)
    | JNumber(text: Bytes)
    | JString(chars: Text)
    | JArray(items: seq<Json>)
    | JObject(fields: seq<Field>)

  datatype Field = Field(key: Text, value: Json)

  const QUOTE: byte := 0x22
  const BACKSLASH: byte := 0x5C
  const LF: byte := 0x0A
  const CR: byte := 0x0D

  predicate NumberByte(b: byte) {
    0x30 <= b <= 0x39 || b in {0x2B, 0x2D, 0x2E, 0x45, 0x65}
  }

  predicate NumberText(text: Bytes) {
    text != [] && forall i :: 0 <= i < |text| ==> NumberByte(text[i])
  }

  predicate WellFormed(v: Json)
    decreases v
  {
    match v
    case JNumber(text) => NumberText(text)
    case JArray(items) => forall i :: 0 <= i < |items| ==> WellFormed(items[i])
    case JObject(fields) => forall i :: 0 <= i < |fields| ==> WellFormed(fields[i].value)
    case _ => true
  }

  function HexDigit(n: int): byte
    requires 0 <= n < 16
  {
    if n < 10 then 0x30 + n else 0x61 + n - 10
  }

  /** The two-character escapes; everything else below 0x20 becomes `\u00xx`. */
  function ShortEscape(c: Scalar): Option<byte> {
    if c == 0x22 || c == 0x5C then Some(c)
    else if c == 0x0A then Some(0x6E)
    else if c == 0x0D then Some(0x72)
    else if c == 0x09 then Some(0x74)
    else if c == 0x08 then Some(0x62)
    else if c == 0x0C then Some(0x66)
    else None
  }

  function PrintChar(c: Scalar): Bytes {
    if ShortEscape(c).Some? then [BACKSLASH, ShortEscape(c).value]
    else if c < 0x20 then [BACKSLASH, 0x75, 0x30, 0x30, HexDigit(c / 16), HexDigit(c % 16)]
    else EncodeScalar(c)
  }

  function PrintChars(chars: Text): Bytes
    decreases |chars|
  {
    if chars == [] then [] else PrintChar(chars[0]) + PrintChars(chars[1..])
  }

  function PrintString(chars: Text): Bytes {
    [QUOTE] + PrintChars(chars) + [QUOTE]
  }

  function Print(v: Json): Bytes
    decreases v, 1
  {
    match v
    case JNull => [0x6E, 0x75, 0x6C, 0x6C]
    case JBool(b) => if b then [0x74, 0x72, 0x75, 0x65] else [0x66, 0x61, 0x6C, 0x73, 0x65]
    case JNumber(text) => text
    case JString(chars) => PrintString(chars)
    case JArray(items) => [0x5B] + PrintItems(items) + [0x5D]
    case JObject(fields) => [0x7B] + PrintFields(fields) + [0x7D]
  }

  function PrintItems(items: seq<Json>): Bytes
    decreases items, 0
  {
    if items == [] then []
    else if |items| == 1 then Print(items[0])
    else Print(items[0]) + [0x2C] + PrintItems(items[1..])
  }

  function PrintField(field: Field): Bytes
    decreases field, 0
  {
    PrintString(field.key) + [0x3A] + Print(field.value)
  }

  function PrintFields(fields: seq<Field>): Bytes
    decreases fields, 0
  {
    if fields == [] then []
    else if |fields| == 1 then PrintField(fields[0])
    else PrintField(fields[0]) + [0x2C] + PrintFields(fields[1..])
  }

  // ----- the text is clean: valid UTF-8 without control bytes, hence on one line

  predicate Clean(s: Bytes) {
    Utf8Valid(s) && forall i :: 0 <= i < |s| ==> s[i] >= 0x20
  }

  lemma CleanConcat(a: Bytes, b: Bytes)
    requires Clean(a) && Clean(b)
    ensures Clean(a + b)
  {
    Utf8Concat(a, b);
  }

  lemma CleanAscii(s: Bytes)
    requires forall i :: 0 <= i < |s| ==> 0x20 <= s[i] < 0x80
    ensures Clean(s)
  {
    AsciiValid(s);
  }

  lemma PrintCharClean(c: Scalar)
    ensures Clean(PrintChar(c))
  {
    if ShortEscape(c).Some? || c < 0x20 {
      CleanAscii(PrintChar(c));
    } else {
      EncodeScalarValid(c);
    }
  }

  lemma {:induction false} PrintCharsClean(chars: Text)
    ensures Clean(PrintChars(chars))
    decreases |chars|
  {
    if chars == [] {
    } else {
      PrintCharClean(chars[0]);
      PrintCharsClean(chars[1..]);
      CleanConcat(PrintChar(chars[0]), PrintChars(chars[1..]));
    }
  }

  lemma PrintStringClean(chars: Text)
    ensures Clean(PrintString(chars))
  {
    PrintCharsClean(chars);
    CleanAscii([QUOTE]);
    CleanConcat([QUOTE], PrintChars(chars));
    CleanConcat([QUOTE] + PrintChars(chars), [QUOTE]);
  }

  lemma Clean3(a: Bytes, b: Bytes, c: Bytes)
    requires Clean(a) && Clean(b) && Clean(c)
    ensures Clean(a + b + c)
  {
    CleanConcat(a, b);
    CleanConcat(a + b, c);
  }

  /** The whole value prints to one clean line, whatever its strings contain. */
  lemma {:induction false} PrintClean(v: Json)
    requires WellFormed(v)
    ensures Clean(Print(v))
    decreases v, 1
  {
    match v
    case JString(chars) => PrintStringClean(chars);
    case JArray(items) =>
      PrintItemsClean(items);
      CleanAscii([0x5B]);
      CleanAscii([0x5D]);
      Clean3([0x5B], PrintItems(items), [0x5D]);
    case JObject(fields) =>
      PrintFieldsClean(fields);
      CleanAscii([0x7B]);
      CleanAscii([0x7D]);
      Clean3([0x7B], PrintFields(fields), [0x7D]);
    case _ => CleanAscii(Print(v));
  }

  lemma {:induction false} PrintItemsClean(items: seq<Json>)
    requires forall i :: 0 <= i < |items| ==> WellFormed(items[i])
    ensures Clean(PrintItems(items))
    decreases items, 0
  {
    if items == [] {
    } else {
      PrintClean(items[0]);
      PrintItemsClean(items[1..]);
      CleanAscii([0x2C]);
      Clean3(Print(items[0]), [0x2C], PrintItems(items[1..]));
    }
  }

  lemma {:induction false} PrintFieldsClean(fields: seq<Field>)
    requires forall i :: 0 <= i < |fields| ==> WellFormed(fields[i].value)
    ensures Clean(PrintFields(fields))
    decreases fields, 0
  {
    if fields == [] {
    } else {
      PrintStringClean(fields[0].key);
      CleanAscii([0x3A]);
      PrintClean(fields[0].value);
      Clean3(PrintString(fields[0].key), [0x3A], Print(fields[0].value));
      PrintFieldsClean(fields[1..]);
      CleanAscii([0x2C]);
      Clean3(PrintField(fields[0]), [0x2C], PrintFields(fields[1..]));
    }
  }

  // ----- nesting

  const MAX_JSON_DEPTH: nat := 100

  function Max(a: nat, b: nat): nat {
    if a < b then b else a
  }

  function Depth(v: Json): nat
    decreases v, 1
  {
    match v
    case JArray(items) => 1 + ItemsDepth(items)
    case JObject(fields) => 1 + FieldsDepth(fields)
    case _ => 0
  }

  function ItemsDepth(items: seq<Json>): nat
    decreases items, 0
  {
    if items == [] then 0 else Max(Depth(items[0]), ItemsDepth(items[1..]))
  }

  function FieldsDepth(fields: seq<Field>): nat
    decreases fields, 0
  {
    if fields == [] then 0 else Max(Depth(fields[0].value), FieldsDepth(fields[1..]))
  }

  datatype Scan = Scan(depth: nat, inString: bool, escaped: bool)

  /** One character of `_validate_json_depth`; None is the error. */
  function ScanByte(s: Scan, b: byte): Option<Scan>
  {
    if s.inString then
      Some(if s.escaped then s.(escaped := false)
           else if b == BACKSLASH then s.(escaped := true)
           else if b == QUOTE then s.(inString := false)
           else s)
    else if b == QUOTE then Some(s.(inString := true))
    else if b == 0x5B || b == 0x7B then (if s.depth + 1 > MAX_JSON_DEPTH then None else Some(s.(depth := s.depth + 1)))
    else if b == 0x5D || b == 0x7D then Some(s.(depth := if s.depth == 0 then 0 else s.depth - 1))
    else Some(s)
  }

  function ScanText(s: Option<Scan>, text: Bytes): Option<Scan>
    decreases |text|
  {
    if s.None? || text == [] then s else ScanText(ScanByte(s.value, text[0]), text[1..])
  }

  const OUTSIDE := Scan(0, false, false)

  predicate DepthOk(text: Bytes) {
    ScanText(Some(OUTSIDE), text).Some?
  }

  /** `_validate_json_depth`: one pass over the text. */
  method ValidateJsonDepth(text: Bytes) returns (ok: bool)
    ensures ok == DepthOk(text)
  {
    var depth, inString, escaped := 0, false, false;
    var i := 0;
    assert text[0..] == text;
    while i < |text|
      invariant 0 <= i <= |text| && 0 <= depth
      invariant ScanText(Some(Scan(depth, inString, escaped)), text[i..]) == ScanText(Some(OUTSIDE), text)
    {
      var b := text[i];
      assert text[i..][1..] == text[i + 1..];
      i := i + 1;
      if inString {
        if escaped {
          escaped := false;
        } else if b == BACKSLASH {
          escaped := true;
        } else if b == QUOTE {
          inString := false;
        }
        continue;
      }
      if b == QUOTE {
        inString := true;
      } else if b == 0x5B || b == 0x7B {
        depth := depth + 1;
        if depth > MAX_JSON_DEPTH {
          return false;
        }
      } else if b == 0x5D || b == 0x7D {
        depth := if depth == 0 then 0 else depth - 1;
      }
    }
    return true;
  }

  lemma {:induction false} ScanConcat(s: Option<Scan>, a: Bytes, b: Bytes)
    ensures ScanText(s, a + b) == ScanText(ScanText(s, a), b)
    decreases |a|
  {
    if s.None? {
    } else if a == [] {
      assert a + b == b;
    } else {
      assert (a + b)[1..] == a[1..] + b;
      ScanConcat(ScanByte(s.value, a[0]), a[1..], b);
    }
  }

  predicate Plain(text: Bytes) {
    forall i :: 0 <= i < |text| ==> text[i] !in {QUOTE, BACKSLASH, 0x5B, 0x5D, 0x7B, 0x7D}
  }

  lemma {:induction false} ScanPlain(s: Scan, text: Bytes)
    requires !s.escaped && Plain(text)
    ensures ScanText(Some(s), text) == Some(s)
    decreases |text|
  {
    if text == [] {
    } else {
      ScanPlain(s, text[1..]);
    }
  }

  lemma {:induction false} ScanInString(s: Scan, text: Bytes)
    requires s.inString && !s.escaped && forall i :: 0 <= i < |text| ==> text[i] !in {QUOTE, BACKSLASH}
    ensures ScanText(Some(s), text) == Some(s)
    decreases |text|
  {
    if text == [] {
    } else {
      ScanInString(s, text[1..]);
    }
  }

  lemma ScanChar(s: Scan, c: Scalar)
    requires s.inString && !s.escaped
    ensures ScanText(Some(s), PrintChar(c)) == Some(s)
  {
    var text := PrintChar(c);
    if ShortEscape(c).Some? || c < 0x20 {
      assert text == [BACKSLASH, text[1]] + text[2..];
      ScanConcat(Some(s), [BACKSLASH, text[1]], text[2..]);
      assert [BACKSLASH, text[1]][1..] == [text[1]];
      assert [text[1]][1..] == [];
      ScanInString(s, text[2..]);
    } else {
      EncodeScalarValid(c);
      ScanInString(s, text);
    }
  }

  lemma {:induction false} ScanChars(s: Scan, chars: Text)
    requires s.inString && !s.escaped
    ensures ScanText(Some(s), PrintChars(chars)) == Some(s)
    decreases |chars|
  {
    if chars == [] {
    } else {
      ScanConcat(Some(s), PrintChar(chars[0]), PrintChars(chars[1..]));
      ScanChar(s, chars[0]);
      ScanChars(s, chars[1..]);
    }
  }

  lemma ScanOne(s: Scan, b: byte)
    ensures ScanText(Some(s), [b]) == ScanByte(s, b)
  {
    assert [b][1..] == [];
  }

  /** A string never changes the depth, whatever brackets or quotes it contains. */
  lemma ScanString(depth: nat, chars: Text)
    ensures ScanText(Some(Scan(depth, false, false)), PrintString(chars)) == Some(Scan(depth, false, false))
  {
    var out, inside := Scan(depth, false, false), Scan(depth, true, false);
    ScanConcat(Some(out), [QUOTE] + PrintChars(chars), [QUOTE]);
    ScanConcat(Some(out), [QUOTE], PrintChars(chars));
    ScanOne(out, QUOTE);
    ScanChars(inside, chars);
    ScanOne(inside, QUOTE);
  }

  /** The scanner's verdict at a nesting level is the value's own depth. */
  function Verdict(depth: nat, inner: nat): Option<Scan> {
    if depth + inner > MAX_JSON_DEPTH then None else Some(Scan(depth, false, false))
  }

  lemma {:induction false} ScanValue(depth: nat, v: Json)
    requires WellFormed(v) && depth <= MAX_JSON_DEPTH
    ensures ScanText(Some(Scan(depth, false, false)), Print(v)) == Verdict(depth, Depth(v))
    decreases v, 1
  {
    var s := Scan(depth, false, false);
    match v
    case JString(chars) => ScanString(depth, chars);
    case JArray(items) =>
      ScanBracketed(depth, 0x5B, PrintItems(items), 0x5D, ItemsDepth(items)) by {
        if depth < MAX_JSON_DEPTH {
          ScanItems(depth + 1, items);
        }
      }
    case JObject(fields) =>
      ScanBracketed(depth, 0x7B, PrintFields(fields), 0x7D, FieldsDepth(fields)) by {
        if depth < MAX_JSON_DEPTH {
          ScanFields(depth + 1, fields);
        }
      }
    case _ => ScanPlain(s, Print(v));
  }

  lemma ScanBracketed(depth: nat, open: byte, body: Bytes, close: byte, inner: nat)
    requires depth <= MAX_JSON_DEPTH && open in {0x5B, 0x7B} && close in {0x5D, 0x7D}
    requires depth < MAX_JSON_DEPTH ==>
               ScanText(Some(Scan(depth + 1, false, false)), body) == Verdict(depth + 1, inner)
    ensures ScanText(Some(Scan(depth, false, false)), [open] + body + [close]) == Verdict(depth, 1 + inner)
  {
    var s := Some(Scan(depth, false, false));
    ScanConcat(s, [open] + body, [close]);
    ScanConcat(s, [open], body);
    ScanOne(s.value, open);
    if depth < MAX_JSON_DEPTH && depth + 1 + inner <= MAX_JSON_DEPTH {
      ScanOne(Scan(depth + 1, false, false), close);
    }
  }

  lemma ScanComma(depth: nat, a: Bytes, da: nat, b: Bytes, db: nat)
    requires depth <= MAX_JSON_DEPTH
    requires ScanText(Some(Scan(depth, false, false)), a) == Verdict(depth, da)
    requires ScanText(Some(Scan(depth, false, false)), b) == Verdict(depth, db)
    ensures ScanText(Some(Scan(depth, false, false)), a + [0x2C] + b) == Verdict(depth, Max(da, db))
  {
    var s := Some(Scan(depth, false, false));
    ScanConcat(s, a + [0x2C], b);
    ScanConcat(s, a, [0x2C]);
    ScanOne(s.value, 0x2C);
  }

  lemma {:induction false} ScanItems(depth: nat, items: seq<Json>)
    requires depth <= MAX_JSON_DEPTH && forall i :: 0 <= i < |items| ==> WellFormed(items[i])
    ensures ScanText(Some(Scan(depth, false, false)), PrintItems(items)) == Verdict(depth, ItemsDepth(items))
    decreases items, 0
  {
    if items == [] {
    } else {
      ScanValue(depth, items[0]);
      ScanItems(depth, items[1..]);
      if |items| == 1 {
        assert items[1..] == [];
      } else {
        ScanComma(depth, Print(items[0]), Depth(items[0]), PrintItems(items[1..]), ItemsDepth(items[1..]));
      }
    }
  }

  lemma {:induction false} ScanFields(depth: nat, fields: seq<Field>)
    requires depth <= MAX_JSON_DEPTH && forall i :: 0 <= i < |fields| ==> WellFormed(fields[i].value)
    ensures ScanText(Some(Scan(depth, false, false)), PrintFields(fields)) == Verdict(depth, FieldsDepth(fields))
    decreases fields, 0
  {
    if fields == [] {
    } else {
      var s := Some(Scan(depth, false, false));
      var f := fields[0];
      ScanConcat(s, PrintString(f.key) + [0x3A], Print(f.value));
      ScanConcat(s, PrintString(f.key), [0x3A]);
      ScanString(depth, f.key);
      ScanOne(s.value, 0x3A);
      ScanValue(depth, f.value);
      ScanFields(depth, fields[1..]);
      if |fields| == 1 {
        assert fields[1..] == [];
      } else {
        ScanComma(depth, PrintField(f), Depth(f.value), PrintFields(fields[1..]), FieldsDepth(fields[1..]));
      }
    }
  }

  /** The character scan accepts a printed value exactly when its structural depth is within the limit. */
  lemma DepthScanIsExact(v: Json)
    requires WellFormed(v)
    ensures DepthOk(Print(v)) <==> Depth(v) <= MAX_JSON_DEPTH
  {
    ScanValue(0, v);
  }

  // ----- sizes

  function CharSize(c: Scalar): nat {
    if ShortEscape(c).Some? then 2
    else if c < 0x20 then 6
    else if c < 0x80 then 1
    else if c < 0x800 then 2
    else if c < 0x10000 then 3
    else 4
  }

  function CharsSize(chars: Text): nat
    decreases |chars|
  {
    if chars == [] then 0 else CharSize(chars[0]) + CharsSize(chars[1..])
  }

  /** `_json_encoded_size` of a string. */
  function StringSize(chars: Text): nat {
    2 + CharsSize(chars)
  }

  lemma {:induction false} PrintCharsSize(chars: Text)
    ensures |PrintChars(chars)| == CharsSize(chars)
    decreases |chars|
  {
    if chars == [] {
    } else {
      PrintCharsSize(chars[1..]);
    }
  }

  /** `_json_encoded_size` of a value: the length of its text. */
  function JsonSize(v: Json): nat {
    |Print(v)|
  }

  lemma StringSizeIsExact(chars: Text)
    ensures JsonSize(JString(chars)) == StringSize(chars)
  {
    PrintCharsSize(chars);
  }
}
