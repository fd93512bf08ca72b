/**
 Sections 3.2.1 and 3.2.2.2 of RFC 8785, as a property of the canonical text that
 does not mention how it is printed: no whitespace outside string literals, no raw
 control character inside them, and every escape the shortest one for a character
 that must be escaped.
 */
module Compactness {
  import opened KeyOrder
  import opened Json
  import opened CanonicalForm

  /** The two-character escapes. */
  predicate Named(c: char) {
    c == '"' || c == '\\' || c == 'b' || c == 'f' || c == 'n' || c == 'r' || c == 't'
  }

  predicate LowerHex(c: char) {
    '0' <= c <= '9' || 'a' <= c <= 'f'
  }

  /** `\u00xx` of a control character that has no named escape. */
  predicate NeededUnicode(text: string) {
    && |text| >= 6 && text[1] == 'u' && text[2] == '0' && text[3] == '0'
    && (text[4] == '0' || text[4] == '1') && LowerHex(text[5])
    && (text[4] == '0' ==> text[5] !in "89acd")
  }

  predicate EscapeAt(text: string) {
    |text| >= 2 && (Named(text[1]) || NeededUnicode(text))
  }

  /** The whole text from here on, inside a string literal or not. */
  predicate Compact(text: string, inside: bool)
    decreases |text|
  {
    if text == [] then !inside
    else if !inside then text[0] as int > 0x20 && Compact(text[1..], text[0] == '"')
    else if text[0] == '\\' then EscapeAt(text) && Compact(text[if Named(text[1]) then 2 else 6..], true)
    else text[0] as int >= 0x20 && Compact(text[1..], text[0] != '"')
  }

  lemma EscapedCharCompact(c: char, rest: string)
    requires Compact(rest, true)
    ensures Compact(Escape(c) + rest, true)
  {
    var text := Escape(c) + rest;
    if Escape(c) == [c] {
      assert text[1..] == rest;
    } else if |Escape(c)| == 2 {
      assert text[2..] == rest;
    } else {
      assert text[6..] == rest;
    }
  }

  lemma {:induction false} LiteralCompact(s: string, rest: string)
    requires Compact(rest, false)
    ensures Compact(EscapeAll(s) + "\"" + rest, true)
  {
    if s == [] {
      assert (EscapeAll(s) + "\"" + rest)[1..] == rest;
    } else {
      LiteralCompact(s[1..], rest);
      EscapedCharCompact(s[0], EscapeAll(s[1..]) + "\"" + rest);
      assert EscapeAll(s) + "\"" + rest == Escape(s[0]) + (EscapeAll(s[1..]) + "\"" + rest);
    }
  }

  lemma QuoteCompact(s: string, rest: string)
    requires Compact(rest, false)
    ensures Compact(Quote(s) + rest, false)
  {
    LiteralCompact(s, rest);
    assert (Quote(s) + rest)[1..] == EscapeAll(s) + "\"" + rest;
  }

  /** A character that is neither white nor a quote. */
  lemma MarkCompact(c: char, rest: string)
    requires Compact(rest, false) && c as int > 0x20 && c != '"'
    ensures Compact([c] + rest, false)
  {
    assert ([c] + rest)[1..] == rest;
  }

  lemma {:induction false} WordCompact(word: string, rest: string)
    requires Compact(rest, false) && forall i :: 0 <= i < |word| ==> word[i] as int > 0x20 && word[i] != '"'
    ensures Compact(word + rest, false)
  {
    if word == [] {
      assert word + rest == rest;
    } else {
      WordCompact(word[1..], rest);
      MarkCompact(word[0], word[1..] + rest);
      assert word + rest == [word[0]] + (word[1..] + rest);
    }
  }

  lemma {:induction false} ValueCompact(v: Json, order: MemberOrder, rest: string)
    requires OrdersMembers(order) && NumberFree(v) && Compact(rest, false)
    ensures Compact(Print(v, order) + rest, false)
    decreases v, 2
  {
    match v
    case Null => WordCompact("null", rest);
    case Bool(b) => WordCompact(if b then "true" else "false", rest);
    case Str(s) => QuoteCompact(s, rest);
    case Arr(items) =>
      if items == [] {
        WordCompact("[]", rest);
      } else {
        ItemsCompact(items, order, rest);
        MarkCompact('[', PrintItems(items, order) + rest);
        Regroup("[", PrintItems(items, order), rest);
      }
    case Obj(members) =>
      var keys := order(members.Keys);
      assert Lists(keys, members.Keys);
      if keys == [] {
        WordCompact("{}", rest);
      } else {
        MembersCompact(v, keys, order, rest);
        MarkCompact('{', PrintMembers(v, keys, order) + rest);
        Regroup("{", PrintMembers(v, keys, order), rest);
      }
  }

  lemma {:induction false} ItemsCompact(items: seq<Json>, order: MemberOrder, rest: string)
    requires OrdersMembers(order) && items != [] && Compact(rest, false)
    requires forall i :: 0 <= i < |items| ==> NumberFree(items[i])
    ensures Compact(PrintItems(items, order) + rest, false)
    decreases items, 1
  {
    UnfoldItems(items, order, rest);
    if |items| == 1 {
      MarkCompact(']', rest);
      ValueCompact(items[0], order, "]" + rest);
    } else {
      ItemsCompact(items[1..], order, rest);
      MarkCompact(',', PrintItems(items[1..], order) + rest);
      ValueCompact(items[0], order, "," + (PrintItems(items[1..], order) + rest));
    }
  }

  lemma MemberCompact(k: string, text: string)
    requires Compact(text, false)
    ensures Compact(Quote(k) + (":" + text), false)
  {
    MarkCompact(':', text);
    QuoteCompact(k, ":" + text);
  }

  lemma {:induction false} MembersCompact(v: Json, keys: seq<string>, order: MemberOrder, rest: string)
    requires OrdersMembers(order) && keys != [] && Compact(rest, false)
    requires v.Obj? && forall k :: k in keys ==> k in v.members
    requires forall k :: k in v.members ==> NumberFree(v.members[k])
    ensures Compact(PrintMembers(v, keys, order) + rest, false)
    decreases v, 0, |keys|
  {
    var k, others := keys[0], keys[1..];
    var text := Print(v.members[k], order);
    if others == [] {
      MarkCompact('}', rest);
      ValueCompact(v.members[k], order, "}" + rest);
      MemberCompact(k, text + ("}" + rest));
      RegroupMember(Quote(k), text, "}", rest);
    } else {
      assert keys == [k] + others;
      var more := PrintMembers(v, others, order) + rest;
      MembersCompact(v, others, order, rest);
      MarkCompact(',', more);
      ValueCompact(v.members[k], order, "," + more);
      MemberCompact(k, text + ("," + more));
      UnfoldNextMember(v, k, others, order, rest);
    }
  }

  /** Every canonical text is compact. */
  lemma CanonicalTextIsCompact(v: Json)
    requires NumberFree(v)
    ensures Compact(Canonicalize(v), false)
  {
    ValueCompact(v, CANONICAL_ORDER, []);
    assert Canonicalize(v) + [] == Canonicalize(v);
  }
}
