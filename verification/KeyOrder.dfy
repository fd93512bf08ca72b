/**
 The member order of RFC 8785 section 3.2.3: object keys are compared as
 sequences of UTF-16 code units. A `char` here is a Unicode scalar value, so a
 character outside the basic plane contributes a surrogate pair, and the order
 differs from plain scalar order.
 */
module KeyOrder {

  function Utf16(c: char): (units: seq<int>)
    ensures |units| == 1 || |units| == 2
  {
    var n := c as int;
    if n < 0x10000 then [n]
    else [0xD800 + (n - 0x10000) / 0x400, 0xDC00 + (n - 0x10000) % 0x400]
  }

  function Units(s: string): seq<int> {
    if s == [] then [] else Utf16(s[0]) + Units(s[1..])
  }

  predicate LexLt(a: seq<int>, b: seq<int>) {
    b != [] && (a == [] || a[0] < b[0] || (a[0] == b[0] && LexLt(a[1..], b[1..])))
  }

  predicate KeyLt(a: string, b: string) {
    LexLt(Units(a), Units(b))
  }

  // ----- What the order is ---------------------------------------------------

  /** RFC 8785 section 3.2.3, on code units: `x` is a proper prefix of `y`, or has
      the smaller unit at the first place where they differ. */
  ghost predicate Before(x: seq<int>, y: seq<int>) {
    || (|x| < |y| && y[..|x|] == x)
    || exists i :: 0 <= i < |x| && i < |y| && x[..i] == y[..i] && x[i] < y[i]
  }

  lemma BeforeFirst(x: seq<int>, y: seq<int>)
    requires x != [] && y != [] && x[0] != y[0]
    ensures Before(x, y) <==> x[0] < y[0]
  {
    if x[0] < y[0] { assert x[..0] == y[..0]; }
    assert |x| < |y| ==> y[..|x|][0] == y[0];
    forall i | 0 < i < |x| && i < |y| ensures x[..i] != y[..i] {
      assert x[..i][0] == x[0] && y[..i][0] == y[0];
    }
  }

  lemma BeforeNext(u: int, x: seq<int>, y: seq<int>)
    ensures Before([u] + x, [u] + y) <==> Before(x, y)
  {
    var a, b := [u] + x, [u] + y;
    assert a[1..] == x && b[1..] == y;
    if |x| < |y| { assert b[..|a|] == [u] + y[..|x|]; }
    forall i | 0 <= i < |x| && i < |y| ensures a[..i + 1] == [u] + x[..i] && b[..i + 1] == [u] + y[..i] { }
    if i :| 0 <= i < |x| && i < |y| && x[..i] == y[..i] && x[i] < y[i] {
      assert a[..i + 1] == b[..i + 1] && a[i + 1] < b[i + 1];
    }
    if i :| 0 <= i < |a| && i < |b| && a[..i] == b[..i] && a[i] < b[i] {
      assert a[..i] == [u] + x[..i - 1] && b[..i] == [u] + y[..i - 1];
      assert x[..i - 1] == a[..i][1..] == b[..i][1..] == y[..i - 1];
    }
  }

  lemma {:induction false} LexLtIsBefore(x: seq<int>, y: seq<int>)
    ensures LexLt(x, y) <==> Before(x, y)
  {
    if x != [] && y != [] {
      if x[0] == y[0] {
        LexLtIsBefore(x[1..], y[1..]);
        BeforeNext(x[0], x[1..], y[1..]);
        assert x == [x[0]] + x[1..] && y == [y[0]] + y[1..];
      } else {
        BeforeFirst(x, y);
      }
    }
  }

  /** Keys are in the order of their code units. */
  lemma KeyLtIsBefore(a: string, b: string)
    ensures KeyLt(a, b) <==> Before(Units(a), Units(b))
  {
    LexLtIsBefore(Units(a), Units(b));
  }

  lemma Associate(x: seq<int>, y: seq<int>, z: seq<int>)
    ensures x + (y + z) == (x + y) + z
  {
  }

  /** The units of a text are those of its characters, one after another. */
  lemma {:induction false} UnitsConcatenate(a: string, b: string)
    ensures Units(a + b) == Units(a) + Units(b)
  {
    if a == [] {
      assert a + b == b;
    } else {
      UnitsConcatenate(a[1..], b);
      assert (a + b)[0] == a[0] && (a + b)[1..] == a[1..] + b;
      Associate(Utf16(a[0]), Units(a[1..]), Units(b));
    }
  }

  /** A high and a low surrogate that hold the twenty bits of `n` above 0x10000. */
  predicate SurrogatePair(n: int, units: seq<int>) {
    && |units| == 2 && 0xD800 <= units[0] < 0xDC00 && 0xDC00 <= units[1] < 0xE000
    && n == 0x10000 + (units[0] - 0xD800) * 0x400 + (units[1] - 0xDC00)
  }

  /** UTF-16: a character of the basic plane is one unit, its code; any other is
      its surrogate pair. */
  lemma UnitsOfCharacter(c: char)
    ensures Units("") == []
    ensures if c as int < 0x10000 then Units([c]) == [c as int] else SurrogatePair(c as int, Units([c]))
  {
    assert Units([c]) == Utf16(c);
  }

  ghost predicate StrictlyAscending(ks: seq<string>) {
    forall i, j :: 0 <= i < j < |ks| ==> KeyLt(ks[i], ks[j])
  }

  /** `ks` lists exactly the keys in `keys`, each once. */
  ghost predicate Lists(ks: seq<string>, keys: set<string>) {
    && (forall k :: k in keys <==> k in ks)
    && (forall i, j :: 0 <= i < j < |ks| ==> ks[i] != ks[j])
  }

  lemma {:induction false} LexTransitive(a: seq<int>, b: seq<int>, c: seq<int>)
    requires LexLt(a, b) && LexLt(b, c)
    ensures LexLt(a, c)
    decreases |a|
  {
    if a != [] && a[0] == b[0] == c[0] {
      LexTransitive(a[1..], b[1..], c[1..]);
    }
  }

  lemma {:induction false} LexTrichotomy(a: seq<int>, b: seq<int>)
    ensures a == b || LexLt(a, b) || LexLt(b, a)
    ensures !(LexLt(a, b) && LexLt(b, a))
    ensures a == b ==> !LexLt(a, b)
    decreases |a|
  {
    if a != [] && b != [] {
      LexTrichotomy(a[1..], b[1..]);
      if a[1..] == b[1..] && a[0] == b[0] {
        assert a == [a[0]] + a[1..] == b;
      }
    }
  }

  /** The first code unit tells how many units the first character takes. */
  lemma Utf16Head(c: char, d: char, rest: seq<int>, tail: seq<int>)
    requires Utf16(c) + rest == Utf16(d) + tail
    ensures c == d && rest == tail
  {
    var x, y := Utf16(c), Utf16(d);
    assert (x + rest)[0] == x[0] && (y + tail)[0] == y[0];
    assert |x| == |y|;
    if |x| == 2 {
      assert (x + rest)[1] == x[1] && (y + tail)[1] == y[1];
    }
    assert rest == (x + rest)[|x|..] == (y + tail)[|y|..] == tail;
  }

  /** Distinct keys never compare equal: UTF-16 loses nothing. */
  lemma {:induction false} UnitsInjective(a: string, b: string)
    requires Units(a) == Units(b)
    ensures a == b
  {
    if a != [] && b != [] {
      Utf16Head(a[0], b[0], Units(a[1..]), Units(b[1..]));
      UnitsInjective(a[1..], b[1..]);
      assert a == [a[0]] + a[1..];
    }
  }

  lemma KeyTrichotomy(a: string, b: string)
    ensures a == b || KeyLt(a, b) || KeyLt(b, a)
    ensures !(KeyLt(a, b) && KeyLt(b, a))
    ensures a == b ==> !KeyLt(a, b)
  {
    LexTrichotomy(Units(a), Units(b));
    if Units(a) == Units(b) { UnitsInjective(a, b); }
  }

  lemma KeyTransitive(a: string, b: string, c: string)
    requires KeyLt(a, b) && KeyLt(b, c)
    ensures KeyLt(a, c)
  {
    LexTransitive(Units(a), Units(b), Units(c));
  }

  ghost predicate IsLeast(k: string, keys: set<string>) {
    k in keys && forall j :: j in keys && j != k ==> KeyLt(k, j)
  }

  lemma {:induction false} LeastExists(keys: set<string>)
    requires keys != {}
    ensures exists k :: IsLeast(k, keys)
  {
    var x :| x in keys;
    if keys == {x} {
      assert IsLeast(x, keys);
    } else {
      LeastExists(keys - {x});
      var k :| IsLeast(k, keys - {x});
      KeyTrichotomy(x, k);
      if KeyLt(x, k) {
        forall j | j in keys && j != x ensures KeyLt(x, j) {
          if j != k { KeyTransitive(x, k, j); }
        }
        assert IsLeast(x, keys);
      } else {
        assert IsLeast(k, keys);
      }
    }
  }

  ghost function LeastKey(keys: set<string>): (k: string)
    requires keys != {}
    ensures IsLeast(k, keys)
  {
    LeastExists(keys);
    var k :| IsLeast(k, keys); k
  }

  /** The keys of an object in the order the canonical form prints them. */
  ghost function SortedKeys(keys: set<string>): (ks: seq<string>)
    ensures Lists(ks, keys) && StrictlyAscending(ks)
  {
    if keys == {} then []
    else
      var k := LeastKey(keys);
      var rest := SortedKeys(keys - {k});
      assert forall j :: j in keys <==> j == k || j in keys - {k};
      [k] + rest
  }

  /** There is only one such order, so "the" canonical member order is well defined. */
  lemma {:induction false} AscendingOrderIsUnique(ks: seq<string>, js: seq<string>)
    requires StrictlyAscending(ks) && StrictlyAscending(js)
    requires forall k :: k in ks <==> k in js
    ensures ks == js
    decreases |ks|
  {
    assert ks != [] ==> ks[0] in ks;
    assert js != [] ==> js[0] in js;
    if ks != [] && js != [] {
      AscendingHeadsAgree(ks, js);
      forall k ensures k in ks[1..] <==> k in js[1..] {
        AscendingTail(ks, k);
        AscendingTail(js, k);
      }
      AscendingOrderIsUnique(ks[1..], js[1..]);
      assert ks == [ks[0]] + ks[1..] && js == [js[0]] + js[1..];
    }
  }

  lemma AscendingTail(ks: seq<string>, k: string)
    requires ks != [] && StrictlyAscending(ks)
    ensures k in ks[1..] <==> k in ks && k != ks[0]
  {
    if k in ks[1..] {
      var i :| 0 <= i < |ks| - 1 && ks[1..][i] == k;
      assert ks[i + 1] == k && KeyLt(ks[0], ks[i + 1]);
      KeyTrichotomy(ks[0], k);
    }
    assert ks == [ks[0]] + ks[1..];
  }

  lemma AscendingHeadsAgree(ks: seq<string>, js: seq<string>)
    requires ks != [] && js != []
    requires StrictlyAscending(ks) && StrictlyAscending(js)
    requires forall k :: k in ks <==> k in js
    ensures ks[0] == js[0]
  {
    assert ks[0] in js && js[0] in ks;
    var i :| 0 <= i < |js| && js[i] == ks[0];
    var j :| 0 <= j < |ks| && ks[j] == js[0];
    KeyTrichotomy(ks[0], js[0]);
  }
}
