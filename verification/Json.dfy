/**
 JSON values, their printed form and the RFC 8785 canonical form
 (crates/domain/src/canonicalize.rs).

 An object is a finite map from member names to values, as `serde_json::Value`
 is, so two objects that differ only in member order are the same value. A
 number carries its printed text: number formatting (RFC 8785 section 3.2.2.3)
 is not modelled, and results about the printed form are stated for values
 without numbers.
 */
module Json {
  import opened Wrappers
  import opened KeyOrder

  datatype Json =
    | Null
    | Bool(b: bool)
    | Num(text: string)
    | Str(s: string)
    | Arr(items: seq<Json>)
    | Obj(members: map<string, Json>)
  {
    /** `Value::get(key)`: the member, or none for a non-object. */
    function Get(key: string): Option<Json> {
      if Obj? && key in members then Some(members[key]) else None
    }

    /** `value.get(key).and_then(Value::as_str)`. */
    function GetStr(key: string): Option<string> {
      match Get(key)
      case Some(Str(text)) => Some(text)
      case _ => None
    }
  }

  ghost predicate NumberFree(v: Json)
    decreases v
  {
    match v
    case Num(_) => false
    case Arr(items) => forall i :: 0 <= i < |items| ==> NumberFree(items[i])
    case Obj(members) => forall k :: k in members ==> NumberFree(members[k])
    case _ => true
  }

  const BACKSPACE: char := 8 as char
  const FORM_FEED: char := 12 as char

  function HexDigit(n: nat): char
    requires n < 16
  {
    "0123456789abcdef"[n]
  }

  /** RFC 8785 section 3.2.2.2: named escapes, then `\u00xx` for other control
      characters, and everything else verbatim. */
  function Escape(c: char): string {
    if c == '"' then "\\\""
    else if c == '\\' then "\\\\"
    else if c == BACKSPACE then "\\b"
    else if c == FORM_FEED then "\\f"
    else if c == '\n' then "\\n"
    else if c == '\r' then "\\r"
    else if c == '\t' then "\\t"
    else if (c as int) < 0x20 then "\\u00" + [HexDigit(c as int / 16), HexDigit(c as int % 16)]
    else [c]
  }

  function EscapeAll(s: string): string {
    if s == [] then [] else Escape(s[0]) + EscapeAll(s[1..])
  }

  function Quote(s: string): string {
    "\"" + EscapeAll(s) + "\""
  }

  /** A rule for the order in which a printer lists the members of an object. */
  type MemberOrder = set<string> -> seq<string>

  ghost predicate OrdersMembers(order: MemberOrder) {
    forall keys :: Lists(order(keys), keys)
  }

  /** The compact text of a value, members listed by `order`, no whitespace. */
  ghost function Print(v: Json, order: MemberOrder): string
    requires OrdersMembers(order)
    decreases v, 2
  {
    match v
    case Null => "null"
    case Bool(b) => if b then "true" else "false"
    case Num(text) => text
    case Str(s) => Quote(s)
    case Arr(items) => if items == [] then "[]" else "[" + PrintItems(items, order)
    case Obj(members) =>
      var keys := order(members.Keys);
      assert Lists(keys, members.Keys);
      if keys == [] then "{}" else "{" + PrintMembers(v, keys, order)
  }

  ghost function PrintItems(items: seq<Json>, order: MemberOrder): string
    requires OrdersMembers(order) && items != []
    decreases items, 1
  {
    Print(items[0], order) + (if |items| == 1 then "]" else "," + PrintItems(items[1..], order))
  }

  ghost function PrintMembers(v: Json, keys: seq<string>, order: MemberOrder): string
    requires OrdersMembers(order) && keys != []
    requires v.Obj? && forall k :: k in keys ==> k in v.members
    decreases v, 1, |keys|
  {
    Quote(keys[0]) + ":" + Print(v.members[keys[0]], order)
    + (if |keys| == 1 then "}" else "," + PrintMembers(v, keys[1..], order))
  }

  ghost const CANONICAL_ORDER: MemberOrder := keys => SortedKeys(keys)

  /** `canonicalize_json`: members in ascending UTF-16 order. */
  ghost function Canonicalize(v: Json): string {
    Print(v, CANONICAL_ORDER)
  }
}
