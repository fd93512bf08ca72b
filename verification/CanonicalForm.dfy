/**
 Reading back what was printed, and what follows for the canonical form:
 it is a function of the value alone, it determines the value, and
 re-canonicalising a document changes nothing.
 */
module CanonicalForm {
  import opened Wrappers
  import opened KeyOrder
  import opened Json
  import opened JsonParser

  /** A character printed as itself is read as itself; any other is printed as
      a backslash sequence that decodes to it. */
  lemma EscapeRoundTrip(c: char, rest: string)
    ensures var text := Escape(c) + rest;
            if Escape(c) == [c] then text[0] == c != '\\' && c != '"' && c as int >= 0x20 && text[1..] == rest
            else text[0] == '\\' && Unescape(text[1..]) == Some((c, rest))
  {
    var text := Escape(c) + rest;
    if c as int < 0x20 && c != '\n' && c != '\r' && c != '\t' && c != BACKSPACE && c != FORM_FEED {
      ControlEscape(c, rest);
    } else if Escape(c) == [c] {
      assert text[1..] == rest;
    } else {
      assert text[1..][1..] == rest;
    }
  }

  lemma ControlEscape(c: char, rest: string)
    requires c as int < 0x20
    ensures var digits := "00" + [HexDigit(c as int / 16), HexDigit(c as int % 16)];
            && UnicodeEscape(digits + rest) == Some((c, rest))
            && ("\\u" + digits + rest)[1..] == "u" + (digits + rest)
            && ("u" + (digits + rest))[1..] == digits + rest
  {
    var digits := "00" + [HexDigit(c as int / 16), HexDigit(c as int % 16)];
    assert (digits + rest)[4..] == rest;
    HexRoundTrip(c as int / 16);
    HexRoundTrip(c as int % 16);
  }

  lemma HexRoundTrip(n: nat)
    requires n < 16
    ensures HexValue(HexDigit(n)) == Some(n)
  {
  }

  lemma {:induction false} StringRoundTrip(s: string, rest: string)
    ensures ParseString(EscapeAll(s) + "\"" + rest) == Some((s, rest))
  {
    var text := EscapeAll(s) + "\"" + rest;
    if s == [] {
      assert text[1..] == rest;
    } else {
      var tail := EscapeAll(s[1..]) + "\"" + rest;
      StringRoundTrip(s[1..], rest);
      assert text == Escape(s[0]) + tail;
      EscapeRoundTrip(s[0], tail);
      assert [s[0]] + s[1..] == s;
    }
  }

  /** Printed text never starts with whitespace, nor with a closing bracket. */
  lemma PrintHead(v: Json, order: MemberOrder)
    requires OrdersMembers(order) && NumberFree(v)
    ensures Print(v, order) != []
    ensures !IsSpace(Print(v, order)[0]) && Print(v, order)[0] != ']'
  {
  }

  lemma ReadArray(body: string, items: seq<Json>, rest: string)
    requires body != [] && !IsSpace(body[0]) && body[0] != ']'
    requires ParseItems(body) == Some((items, rest))
    ensures ParseValue("[" + body) == Some((Arr(items), rest))
  {
    assert ("[" + body)[1..] == body;
  }

  lemma ReadObject(body: string, members: map<string, Json>, rest: string)
    requires body != [] && body[0] == '"'
    requires ParseMembers(body) == Some((members, rest))
    ensures ParseValue("{" + body) == Some((Obj(members), rest))
  {
    assert ("{" + body)[1..] == body;
  }

  lemma ReadEmpty(rest: string)
    ensures ParseValue("[]" + rest) == Some((Arr([]), rest))
    ensures ParseValue("{}" + rest) == Some((Obj(map[]), rest))
  {
    assert ("[]" + rest)[1..] == "]" + rest && ("]" + rest)[1..] == rest;
    assert ("{}" + rest)[1..] == "}" + rest && ("}" + rest)[1..] == rest;
  }

  lemma ReadWord(v: Json, order: MemberOrder, rest: string)
    requires OrdersMembers(order) && (v.Null? || v.Bool?)
    ensures ParseValue(Print(v, order) + rest) == Some((v, rest))
  {
    assert ("null" + rest)[4..] == ("true" + rest)[4..] == ("false" + rest)[5..] == rest;
    assert "null" <= "null" + rest && "true" <= "true" + rest && "false" <= "false" + rest;
    assert ("true" + rest)[0] == 't' && ("false" + rest)[0] == 'f' && ("null" + rest)[0] == 'n';
  }

  lemma ReadQuoted(s: string, rest: string)
    ensures ParseValue(Quote(s) + rest) == Some((Str(s), rest))
  {
    assert (Quote(s) + rest)[1..] == EscapeAll(s) + "\"" + rest;
    StringRoundTrip(s, rest);
  }

  lemma {:induction false} ValueRoundTrip(v: Json, order: MemberOrder, rest: string)
    requires OrdersMembers(order) && NumberFree(v)
    ensures ParseValue(Print(v, order) + rest) == Some((v, rest))
    decreases v, 2
  {
    match v
    case Null => ReadWord(v, order, rest);
    case Bool(_) => ReadWord(v, order, rest);
    case Str(s) => ReadQuoted(s, rest);
    case Arr(items) => ArrayRoundTrip(v, order, rest);
    case Obj(members) => ObjectRoundTrip(v, order, rest);
  }

  lemma UnfoldArray(v: Json, order: MemberOrder, rest: string)
    requires OrdersMembers(order) && v.Arr? && v.items != [] && NumberFree(v)
    ensures var body := PrintItems(v.items, order) + rest;
            && body != [] && !IsSpace(body[0]) && body[0] != ']'
            && Print(v, order) + rest == "[" + body
  {
    PrintHead(v.items[0], order);
    assert (PrintItems(v.items, order) + rest)[0] == Print(v.items[0], order)[0];
  }

  lemma {:induction false} ArrayRoundTrip(v: Json, order: MemberOrder, rest: string)
    requires OrdersMembers(order) && v.Arr? && NumberFree(v)
    ensures ParseValue(Print(v, order) + rest) == Some((v, rest))
    decreases v, 1
  {
    if v.items == [] {
      ReadEmpty(rest);
    } else {
      var body := PrintItems(v.items, order) + rest;
      ItemsRoundTrip(v.items, order, rest);
      UnfoldArray(v, order, rest);
      ReadArray(body, v.items, rest);
    }
  }

  lemma UnfoldObject(v: Json, keys: seq<string>, order: MemberOrder, rest: string)
    requires OrdersMembers(order) && v.Obj? && keys == order(v.members.Keys) && keys != []
    requires Lists(keys, v.members.Keys)
    ensures var body := PrintMembers(v, keys, order) + rest;
            body[0] == '"' && Print(v, order) + rest == "{" + body
  {
  }

  lemma {:induction false} ObjectRoundTrip(v: Json, order: MemberOrder, rest: string)
    requires OrdersMembers(order) && v.Obj? && NumberFree(v)
    ensures ParseValue(Print(v, order) + rest) == Some((v, rest))
    decreases v, 1
  {
    var keys := order(v.members.Keys);
    assert Lists(keys, v.members.Keys);
    if keys == [] {
      ReadEmpty(rest);
      assert v.members == map[];
    } else {
      var body := PrintMembers(v, keys, order) + rest;
      MembersRoundTrip(v, keys, order, rest);
      assert Picked(v, keys) == v.members;
      UnfoldObject(v, keys, order, rest);
      ReadObject(body, v.members, rest);
    }
  }

  lemma ReadLastItem(text: string, value: Json, rest: string)
    requires ParseValue(text + ("]" + rest)) == Some((value, "]" + rest))
    ensures ParseItems(text + ("]" + rest)) == Some(([value], rest))
  {
    assert ("]" + rest)[1..] == rest;
  }

  lemma ReadNextItem(text: string, value: Json, more: string, items: seq<Json>, rest: string)
    requires ParseValue(text + ("," + more)) == Some((value, "," + more))
    requires ParseItems(more) == Some((items, rest))
    ensures ParseItems(text + ("," + more)) == Some(([value] + items, rest))
  {
    assert ("," + more)[1..] == more;
  }

  lemma UnfoldItems(items: seq<Json>, order: MemberOrder, rest: string)
    requires OrdersMembers(order) && items != []
    ensures |items| == 1 ==> PrintItems(items, order) + rest == Print(items[0], order) + ("]" + rest)
    ensures |items| > 1 ==>
              PrintItems(items, order) + rest
              == Print(items[0], order) + ("," + (PrintItems(items[1..], order) + rest))
  {
    var t := Print(items[0], order);
    if |items| == 1 {
      Regroup(t, "]", rest);
    } else {
      Regroup(t, "," + PrintItems(items[1..], order), rest);
      Regroup(",", PrintItems(items[1..], order), rest);
    }
  }

  lemma Regroup(a: string, b: string, c: string)
    ensures (a + b) + c == a + (b + c)
  {
  }

  lemma {:induction false} ItemsRoundTrip(items: seq<Json>, order: MemberOrder, rest: string)
    requires OrdersMembers(order) && items != []
    requires forall i :: 0 <= i < |items| ==> NumberFree(items[i])
    ensures ParseItems(PrintItems(items, order) + rest) == Some((items, rest))
    decreases items, 1
  {
    UnfoldItems(items, order, rest);
    if |items| == 1 {
      ValueRoundTrip(items[0], order, "]" + rest);
      ReadLastItem(Print(items[0], order), items[0], rest);
      assert items == [items[0]];
    } else {
      var more := PrintItems(items[1..], order) + rest;
      ValueRoundTrip(items[0], order, "," + more);
      ItemsRoundTrip(items[1..], order, rest);
      ReadNextItem(Print(items[0], order), items[0], more, items[1..], rest);
      assert items == [items[0]] + items[1..];
    }
  }

  ghost function Picked(v: Json, keys: seq<string>): map<string, Json>
    requires v.Obj?
  {
    map k | k in v.members && k in keys :: v.members[k]
  }

  lemma ReadMember(k: string, value: Json, text: string, tail: string)
    requires ParseValue(text + tail) == Some((value, tail))
    ensures var s := Quote(k) + (":" + (text + tail));
            && s[0] == '"'
            && ParseString(s[1..]) == Some((k, ":" + (text + tail)))
            && (":" + (text + tail))[1..] == text + tail
  {
    var after := ":" + (text + tail);
    StringRoundTrip(k, after);
    assert (Quote(k) + after)[1..] == EscapeAll(k) + "\"" + after;
  }

  lemma ReadLastMember(k: string, value: Json, text: string, rest: string)
    requires ParseValue(text + ("}" + rest)) == Some((value, "}" + rest))
    ensures ParseMembers(Quote(k) + (":" + (text + ("}" + rest)))) == Some((map[k := value], rest))
  {
    ReadMember(k, value, text, "}" + rest);
    assert ("}" + rest)[1..] == rest;
  }

  lemma ReadNextMember(k: string, value: Json, text: string,
                       more: string, members: map<string, Json>, rest: string)
    requires ParseValue(text + ("," + more)) == Some((value, "," + more))
    requires ParseMembers(more) == Some((members, rest))
    ensures ParseMembers(Quote(k) + (":" + (text + ("," + more)))) == Some((map[k := value] + members, rest))
  {
    ReadMember(k, value, text, "," + more);
    assert ("," + more)[1..] == more;
  }

  lemma RegroupMember(q: string, t: string, tail: string, rest: string)
    ensures (q + ":" + t + tail) + rest == q + (":" + (t + (tail + rest)))
  {
  }

  lemma LastMember(v: Json, k: string, order: MemberOrder, rest: string)
    requires OrdersMembers(order) && v.Obj? && k in v.members
    requires ParseValue(Print(v.members[k], order) + ("}" + rest)) == Some((v.members[k], "}" + rest))
    ensures ParseMembers(PrintMembers(v, [k], order) + rest) == Some((Picked(v, [k]), rest))
  {
    ReadLastMember(k, v.members[k], Print(v.members[k], order), rest);
    RegroupMember(Quote(k), Print(v.members[k], order), "}", rest);
    assert Picked(v, [k]) == map[k := v.members[k]];
  }

  lemma UnfoldNextMember(v: Json, k: string, others: seq<string>, order: MemberOrder, rest: string)
    requires OrdersMembers(order) && others != []
    requires v.Obj? && k in v.members && forall j :: j in others ==> j in v.members
    ensures PrintMembers(v, [k] + others, order) + rest
         == Quote(k) + (":" + (Print(v.members[k], order) + ("," + (PrintMembers(v, others, order) + rest))))
  {
    assert ([k] + others)[0] == k && ([k] + others)[1..] == others;
    RegroupMember(Quote(k), Print(v.members[k], order), "," + PrintMembers(v, others, order), rest);
    Regroup(",", PrintMembers(v, others, order), rest);
  }

  lemma PickedNext(v: Json, k: string, others: seq<string>)
    requires v.Obj? && k in v.members
    ensures Picked(v, [k] + others) == map[k := v.members[k]] + Picked(v, others)
  {
  }

  lemma {:induction false} NextMember(v: Json, k: string, others: seq<string>, order: MemberOrder, rest: string)
    requires OrdersMembers(order) && others != []
    requires v.Obj? && k in v.members && forall j :: j in others ==> j in v.members
    requires var more := PrintMembers(v, others, order) + rest;
             && ParseValue(Print(v.members[k], order) + ("," + more)) == Some((v.members[k], "," + more))
             && ParseMembers(more) == Some((Picked(v, others), rest))
    ensures ParseMembers(PrintMembers(v, [k] + others, order) + rest) == Some((Picked(v, [k] + others), rest))
  {
    var more := PrintMembers(v, others, order) + rest;
    ReadNextMember(k, v.members[k], Print(v.members[k], order), more, Picked(v, others), rest);
    UnfoldNextMember(v, k, others, order, rest);
    PickedNext(v, k, others);
  }

  lemma {:induction false} MembersRoundTrip(v: Json, keys: seq<string>, order: MemberOrder, rest: string)
    requires OrdersMembers(order) && keys != []
    requires v.Obj? && forall k :: k in keys ==> k in v.members
    requires forall k :: k in v.members ==> NumberFree(v.members[k])
    ensures ParseMembers(PrintMembers(v, keys, order) + rest) == Some((Picked(v, keys), rest))
    decreases v, 0, |keys|
  {
    var k, others := keys[0], keys[1..];
    if others == [] {
      assert keys == [k];
      ValueRoundTrip(v.members[k], order, "}" + rest);
      LastMember(v, k, order, rest);
    } else {
      assert keys == [k] + others;
      ValueRoundTrip(v.members[k], order, "," + (PrintMembers(v, others, order) + rest));
      MembersRoundTrip(v, others, order, rest);
      NextMember(v, k, others, order, rest);
    }
  }

  /** Printing in any member order and reading back gives the value. */
  lemma {:induction false} PrintThenParse(v: Json, order: MemberOrder)
    requires OrdersMembers(order) && NumberFree(v)
    ensures ParseDocument(Print(v, order)) == Some(v)
  {
    ValueRoundTrip(v, order, []);
    assert Print(v, order) + [] == Print(v, order);
  }

  /** Two values have the same canonical text exactly when they are equal up to
      member order. */
  lemma {:induction false} CanonicalFormIsUnique(v: Json, w: Json)
    requires NumberFree(v) && NumberFree(w)
    ensures Canonicalize(v) == Canonicalize(w) <==> v == w
  {
    PrintThenParse(v, CANONICAL_ORDER);
    PrintThenParse(w, CANONICAL_ORDER);
  }

  /** Whatever order a document's members were written in, reading it and
      canonicalising gives the canonical text; in particular canonicalising
      twice is canonicalising once. */
  lemma {:induction false} CanonicalizeIsIdempotent(v: Json, order: MemberOrder)
    requires OrdersMembers(order) && NumberFree(v)
    ensures ParseDocument(Print(v, order)).Some?
    ensures Canonicalize(ParseDocument(Print(v, order)).value) == Canonicalize(v)
    ensures ParseDocument(Canonicalize(v)) == Some(v)
  {
    PrintThenParse(v, order);
    PrintThenParse(v, CANONICAL_ORDER);
  }

  /** `keys` in the order of RFC 8785 section 3.2.3. */
  ghost predicate InKeyOrder(keys: seq<string>) {
    forall i, j :: 0 <= i < j < |keys| ==> Before(Units(keys[i]), Units(keys[j]))
  }

  /** The text of the members `keys` of `v`: each as `"key":value`, the values in
      canonical form, commas between them. */
  ghost function MembersText(v: Json, keys: seq<string>): string
    requires v.Obj? && forall k :: k in keys ==> k in v.members
  {
    if keys == [] then ""
    else
      "\"" + EscapeAll(keys[0]) + "\":" + Canonicalize(v.members[keys[0]])
      + (if |keys| == 1 then "" else "," + MembersText(v, keys[1..]))
  }

  lemma {:induction false} MembersPrinted(v: Json, keys: seq<string>)
    requires keys != [] && v.Obj? && forall k :: k in keys ==> k in v.members
    ensures PrintMembers(v, keys, CANONICAL_ORDER) == MembersText(v, keys) + "}"
  {
    var head := "\"" + EscapeAll(keys[0]) + "\":" + Canonicalize(v.members[keys[0]]);
    assert Quote(keys[0]) + ":" + Print(v.members[keys[0]], CANONICAL_ORDER) == head;
    if |keys| > 1 {
      MembersPrinted(v, keys[1..]);
      Regroup(head, "," + MembersText(v, keys[1..]), "}");
      Regroup(",", MembersText(v, keys[1..]), "}");
    }
  }

  /** A canonical object lists its members in the order of their keys' code
      units, and there is always such an order. */
  lemma CanonicalMembersAscend(v: Json, keys: seq<string>)
    requires v.Obj? && InKeyOrder(keys) && forall k :: k in keys <==> k in v.members
    ensures Canonicalize(v) == "{" + MembersText(v, keys) + "}"
  {
    forall i, j | 0 <= i < j < |keys| ensures KeyLt(keys[i], keys[j]) {
      KeyLtIsBefore(keys[i], keys[j]);
    }
    AscendingOrderIsUnique(keys, SortedKeys(v.members.Keys));
    if keys != [] {
      MembersPrinted(v, keys);
      Regroup("{", MembersText(v, keys), "}");
    }
  }

  /** And every object has its keys in that order somehow. */
  lemma KeyOrderExists(v: Json) returns (keys: seq<string>)
    requires v.Obj?
    ensures InKeyOrder(keys) && forall k :: k in keys <==> k in v.members
  {
    keys := SortedKeys(v.members.Keys);
    forall i, j | 0 <= i < j < |keys| ensures Before(Units(keys[i]), Units(keys[j])) {
      KeyLtIsBefore(keys[i], keys[j]);
    }
  }

  // ----- Letter by letter ----------------------------------------------------

  /** RFC 8785 section 3.2.2.2: what a character becomes inside a literal. */
  lemma EscapesOfCharacter(c: char)
    ensures Escape('"') == ['\\', '"'] && Escape('\\') == ['\\', '\\']
    ensures Escape('\n') == ['\\', 'n'] && Escape('\r') == ['\\', 'r'] && Escape('\t') == ['\\', 't']
    ensures Escape(8 as char) == ['\\', 'b'] && Escape(12 as char) == ['\\', 'f']
    ensures c as int >= 0x20 && c != '"' && c != '\\' ==> Escape(c) == [c]
    ensures c as int < 0x20 && c as int !in {8, 9, 10, 12, 13} ==>
              exists d :: 0 <= d < 16 && c as int == (if c as int < 16 then d else 16 + d)
                && Escape(c) == ['\\', 'u', '0', '0', if c as int < 16 then '0' else '1', "0123456789abcdef"[d]]
  {
    var n := c as int;
    if n < 0x20 && n !in {8, 9, 10, 12, 13} {
      var d := n % 16;
      assert n == (if n < 16 then d else 16 + d);
      assert Escape(c) == ['\\', 'u', '0', '0', if n < 16 then '0' else '1', "0123456789abcdef"[d]];
    }
  }

  /** The canonical texts of `items`, commas between them. */
  ghost function ItemsText(items: seq<Json>): string {
    if items == [] then ""
    else Canonicalize(items[0]) + (if |items| == 1 then "" else "," + ItemsText(items[1..]))
  }

  lemma {:induction false} ItemsPrinted(items: seq<Json>)
    requires items != []
    ensures PrintItems(items, CANONICAL_ORDER) == ItemsText(items) + "]"
  {
    if |items| > 1 {
      ItemsPrinted(items[1..]);
      Regroup(Canonicalize(items[0]), "," + ItemsText(items[1..]), "]");
      Regroup(",", ItemsText(items[1..]), "]");
    }
  }

  /** Every other kind of value. */
  lemma CanonicalText(v: Json)
    ensures match v
            case Null => Canonicalize(v) == "null"
            case Bool(b) => Canonicalize(v) == if b then "true" else "false"
            case Str(s) => Canonicalize(v) == "\"" + EscapeAll(s) + "\""
            case Arr(items) => Canonicalize(v) == "[" + ItemsText(items) + "]"
            case _ => true
  {
    if v.Arr? && v.items != [] {
      ItemsPrinted(v.items);
      Regroup("[", ItemsText(v.items), "]");
    }
  }
}
