/**
 * Python's `json.dumps` with its default settings, over the Python values the
 * backend serializes: `None`, booleans, integers, strings, lists, dicts with
 * string keys, and any other object (which `json.dumps` refuses with a
 * `TypeError`). Defaults: `ensure_ascii=True`, item separator `", "`, key
 * separator `": "`, no indentation.
 */
module PyJson {
  import opened Wrappers
  import opened Text

  datatype Value =
    | NoneValue
    | BoolValue(b: bool)
    | IntValue(i: int)
    | StrValue(s: string)
    | ListValue(items: seq<Value>)
    | DictValue(entries: seq<Entry>)
    | ObjectValue(className: string)  // an instance of a class json.dumps cannot encode

  /** One key/value pair of a dict, in insertion order. */
  datatype Entry = Entry(key: string, value: Value)

  /** Printable ASCII, `' '` to `'~'`: every character `json.dumps` may emit. */
  predicate IsPrintableAscii(s: string) {
    forall i :: 0 <= i < |s| ==> ' ' <= s[i] <= '~'
  }

  /** A value holding no object that json.dumps cannot encode. */
  predicate Serializable(v: Value)
    decreases v
  {
    match v
    case ListValue(items) => forall k :: 0 <= k < |items| ==> Serializable(items[k])
    case DictValue(entries) => forall k :: 0 <= k < |entries| ==> Serializable(entries[k].value)
    case ObjectValue(_) => false
    case _ => true
  }

  function HexDigit(d: nat): (c: char)
    requires d < 16
    ensures ' ' <= c <= '~'
  {
    "0123456789abcdef"[d]
  }

  /** Four lower-case hexadecimal digits, as `'{0:04x}'.format(n)`. */
  function Hex4(n: nat): (s: string)
    requires n < 0x10000
    ensures |s| == 4 && IsPrintableAscii(s)
  {
    [HexDigit(n / 0x1000), HexDigit(n / 0x100 % 16), HexDigit(n / 16 % 16), HexDigit(n % 16)]
  }

  /**
   * The escape `json.dumps` writes for one character with `ensure_ascii`:
   * the short escapes for quote, backslash and five control characters,
   * the character itself when it is printable ASCII, `\uXXXX` otherwise,
   * and a surrogate pair above the Basic Multilingual Plane.
   */
  function EscapeChar(c: char): (e: string)
    ensures |e| >= 1 && IsPrintableAscii(e)
  {
    if c == '"' then "\\\""
    else if c == '\\' then "\\\\"
    else if c == '\n' then "\\n"
    else if c == '\r' then "\\r"
    else if c == '\t' then "\\t"
    else if c == '\U{8}' then "\\b"
    else if c == '\U{C}' then "\\f"
    else if ' ' <= c <= '~' then [c]
    else if c as int < 0x10000 then "\\u" + Hex4(c as int)
    else
      var v := c as int - 0x10000;
      "\\u" + Hex4(0xD800 + v / 0x400) + "\\u" + Hex4(0xDC00 + v % 0x400)
  }

  function EscapeString(s: string): (e: string)
    ensures IsPrintableAscii(e)
  {
    if s == [] then "" else EscapeChar(s[0]) + EscapeString(s[1..])
  }

  /** A JSON string literal. */
  function Quote(s: string): (q: string)
    ensures IsPrintableAscii(q)
  {
    "\"" + EscapeString(s) + "\""
  }

  /** The TypeError message json.dumps raises for an object it cannot encode. */
  function NotSerializable(className: string): string {
    "Object of type " + className + " is not JSON serializable"
  }

  /** `json.dumps(v)`: the JSON text, or the message of the TypeError it raises. */
  function Dumps(v: Value): Result<string, string>
    decreases v
  {
    match v
    case NoneValue => Success("null")
    case BoolValue(b) => Success(if b then "true" else "false")
    case IntValue(i) => Success(IntToString(i))
    case StrValue(s) => Success(Quote(s))
    case ListValue(items) =>
      (match DumpsItems(items)
       case Success(t) => Success("[" + t + "]")
       case Failure(e) => Failure(e))
    case DictValue(entries) =>
      (match DumpsEntries(entries)
       case Success(t) => Success("{" + t + "}")
       case Failure(e) => Failure(e))
    case ObjectValue(name) => Failure(NotSerializable(name))
  }

  /** The list items, separated by `", "`; the first failing item decides the error. */
  function DumpsItems(items: seq<Value>): Result<string, string>
    decreases items
  {
    if items == [] then Success("")
    else
      match Dumps(items[0])
      case Failure(e) => Failure(e)
      case Success(first) =>
        if |items| == 1 then Success(first)
        else
          match DumpsItems(items[1..])
          case Failure(e) => Failure(e)
          case Success(rest) => Success(first + ", " + rest)
  }

  /** The dict entries as `"key": value`, separated by `", "`. */
  function DumpsEntries(entries: seq<Entry>): Result<string, string>
    decreases entries
  {
    if entries == [] then Success("")
    else
      assert entries[0] in entries;
      match Dumps(entries[0].value)
      case Failure(e) => Failure(e)
      case Success(first) =>
        var entry := Quote(entries[0].key) + ": " + first;
        if |entries| == 1 then Success(entry)
        else
          match DumpsEntries(entries[1..])
          case Failure(e) => Failure(e)
          case Success(rest) => Success(entry + ", " + rest)
  }

  lemma PrintableAppend(a: string, b: string)
    requires IsPrintableAscii(a) && IsPrintableAscii(b)
    ensures IsPrintableAscii(a + b)
  {
    assert forall i :: 0 <= i < |a + b| ==> (a + b)[i] == if i < |a| then a[i] else b[i - |a|];
  }

  /**
   * json.dumps succeeds exactly on serializable values, and its output is
   * printable ASCII: in particular it never contains a raw line break.
   */
  lemma {:induction false} DumpsSpec(v: Value)
    ensures Dumps(v).Success? <==> Serializable(v)
    ensures Dumps(v).Success? ==> IsPrintableAscii(Dumps(v).value)
    decreases v
  {
    match v
    case NoneValue =>
    case BoolValue(b) =>
    case IntValue(i) =>
      var t := IntToString(i);
      var digits := NatToString(if i < 0 then -i else i);
      assert IsPrintableAscii(digits);
      assert IsPrintableAscii("-");
      if i < 0 { PrintableAppend("-", digits); }
    case StrValue(s) =>
    case ListValue(items) =>
      DumpsItemsSpec(items);
      if DumpsItems(items).Success? {
        PrintableAppend("[", DumpsItems(items).value);
        PrintableAppend("[" + DumpsItems(items).value, "]");
      }
    case DictValue(entries) =>
      DumpsEntriesSpec(entries);
      if DumpsEntries(entries).Success? {
        PrintableAppend("{", DumpsEntries(entries).value);
        PrintableAppend("{" + DumpsEntries(entries).value, "}");
      }
    case ObjectValue(name) =>
  }

  lemma {:induction false} DumpsItemsSpec(items: seq<Value>)
    ensures DumpsItems(items).Success? <==> forall k :: 0 <= k < |items| ==> Serializable(items[k])
    ensures DumpsItems(items).Success? ==> IsPrintableAscii(DumpsItems(items).value)
    decreases items
  {
    if items != [] {
      DumpsSpec(items[0]);
      if |items| > 1 {
        DumpsItemsSpec(items[1..]);
        assert forall k :: 1 <= k < |items| ==> items[k] == items[1..][k - 1];
        if DumpsItems(items).Success? {
          var first := Dumps(items[0]).value;
          var rest := DumpsItems(items[1..]).value;
          PrintableAppend(first, ", ");
          PrintableAppend(first + ", ", rest);
        }
      }
    }
  }

  lemma {:induction false} DumpsEntriesSpec(entries: seq<Entry>)
    ensures DumpsEntries(entries).Success? <==> forall k :: 0 <= k < |entries| ==> Serializable(entries[k].value)
    ensures DumpsEntries(entries).Success? ==> IsPrintableAscii(DumpsEntries(entries).value)
    decreases entries
  {
    if entries != [] {
      assert entries[0] in entries;
      DumpsSpec(entries[0].value);
      if Dumps(entries[0].value).Success? {
        var key := Quote(entries[0].key);
        var first := Dumps(entries[0].value).value;
        PrintableAppend(key, ": ");
        PrintableAppend(key + ": ", first);
      }
      if |entries| > 1 {
        DumpsEntriesSpec(entries[1..]);
        assert forall k :: 1 <= k < |entries| ==> entries[k] == entries[1..][k - 1];
        if DumpsEntries(entries).Success? {
          var entry := Quote(entries[0].key) + ": " + Dumps(entries[0].value).value;
          var rest := DumpsEntries(entries[1..]).value;
          PrintableAppend(entry, ", ");
          PrintableAppend(entry + ", ", rest);
        }
      }
    }
  }
}
