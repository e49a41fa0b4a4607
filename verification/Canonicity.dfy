/** The reader accepts nothing but what the printer writes: a text that reads as a value is the
    canonical text of that value. Together with `Canonical.ParseOfCanonical` this fixes the printer. */
module Canonicity {
  import opened Prelude
  import opened Unicode
  import opened Ordering
  import opened Canonical

  // ------------------------------------------------------------------ scalars

  lemma HexPrints(c: char)
    requires HexValue(c).Some?
    ensures HexValue(c).value < 16 && HEX[HexValue(c).value] == c
  {
    var d := HexValue(c).value;
    assert d == 0 || d == 1 || d == 2 || d == 3 || d == 4 || d == 5 || d == 6 || d == 7 ||
           d == 8 || d == 9 || d == 10 || d == 11 || d == 12 || d == 13 || d == 14 || d == 15;
  }

  lemma NumberPrints(s: string)
    requires |s| >= 6 && s[0] == '\\' && s[1..4] == "u00"
    requires HexValue(s[4]).Some? && HexValue(s[5]).Some? && HexValue(s[4]).value < 2
    ensures var n := 16 * HexValue(s[4]).value + HexValue(s[5]).value;
      n < 32 && s[..6] == "\\u00" + [HEX[n / 16], HEX[n % 16]]
  {
    hide HexValue;
    HexPrints(s[4]);
    HexPrints(s[5]);
    var n := 16 * HexValue(s[4]).value + HexValue(s[5]).value;
    assert n / 16 == HexValue(s[4]).value && n % 16 == HexValue(s[5]).value;
    assert s[1] == s[1..4][0] && s[2] == s[1..4][1] && s[3] == s[1..4][2];
  }

  lemma HeadPrints(s: string)
    requires UnescapeHead(s).Some?
    ensures EscapeChar(UnescapeHead(s).value.0) == s[..UnescapeHead(s).value.1]
  {
    if UnescapeHead(s).value.1 == 6 {
      NumberPrints(s);
    }
  }

  lemma {:induction false} StringPrints(s: string)
    requires ReadString(s).Some?
    ensures s == Escape(ReadString(s).value.0) + "\"" + ReadString(s).value.1
  {
    hide UnescapeHead, EscapeChar;
    var (text, rest) := ReadString(s).value;
    if s[0] == '\"' {
      assert s == "\"" + s[1..];
    } else {
      var (c, width) := UnescapeHead(s).value;
      HeadPrints(s);
      StringPrints(s[width..]);
      assert text[0] == c && text[1..] == ReadString(s[width..]).value.0;
      assert s == s[..width] + s[width..];
      Associate(EscapeChar(c), Escape(text[1..]), "\"");
      Associate(EscapeChar(c), Escape(text[1..]) + "\"", rest);
    }
  }

  lemma DigitPrints(c: char)
    requires IsDigit(c)
    ensures DigitChar(c as int - '0' as int) == c
  {
    HexPrints(c);
  }

  lemma AppendedDigit(acc: nat, c: char)
    requires acc >= 1 && IsDigit(c)
    ensures NatText(10 * acc + (c as int - '0' as int)) == NatText(acc) + [c]
  {
    hide HexValue;
    var d := c as int - '0' as int;
    DigitPrints(c);
    assert (10 * acc + d) / 10 == acc && (10 * acc + d) % 10 == d;
  }

  lemma {:induction false} NatPrints(acc: nat, s: string)
    requires acc >= 1
    ensures ReadNat(acc, s).0 >= 1 && NatText(acc) + s == NatText(ReadNat(acc, s).0) + ReadNat(acc, s).1
    decreases |s|
  {
    hide NatText;
    if s != "" && IsDigit(s[0]) {
      NatPrints(10 * acc + (s[0] as int - '0' as int), s[1..]);
      AppendedDigit(acc, s[0]);
      assert NatText(acc) + s == (NatText(acc) + [s[0]]) + s[1..];
    }
  }

  lemma PositivePrints(s: string)
    requires s != "" && IsDigit(s[0]) && s[0] != '0'
    ensures ReadNat(0, s).0 >= 1 && s == NatText(ReadNat(0, s).0) + ReadNat(0, s).1
  {
    hide NatText, HexValue;
    var d := s[0] as int - '0' as int;
    NatPrints(d, s[1..]);
    DigitPrints(s[0]);
    assert NatText(d) == [s[0]] by {
      SingleDigit(d);
    }
    assert s == [s[0]] + s[1..];
    assert ReadNat(0, s) == ReadNat(d, s[1..]);
  }

  lemma SingleDigit(d: nat)
    requires d < 10
    ensures NatText(d) == [DigitChar(d)]
  {
  }

  lemma IntPrints(s: string)
    requires ReadInt(s).Some?
    ensures ReadInt(s).value.0.Int?
    ensures s == IntText(ReadInt(s).value.0.i) + ReadInt(s).value.1
  {
    SingleDigit(0);
    hide NatText, ReadNat;
    if s[0] == '0' {
      assert s == "0" + s[1..];
    } else if IsDigit(s[0]) {
      PositivePrints(s);
    } else {
      PositivePrints(s[1..]);
      assert s == "-" + s[1..];
    }
  }

  lemma WordPrints(s: string, word: string, v: Value)
    requires ReadWord(s, word, v).Some?
    ensures ReadWord(s, word, v).value.0 == v
    ensures s == word + ReadWord(s, word, v).value.1
  {
  }

  // --------------------------------------------------------- members in order

  /** Keys in strictly ascending UTF-16 code unit order. */
  ghost predicate UnitsAscend(keys: seq<string>) {
    forall i, j :: 0 <= i < j < |keys| ==>
      keys[i] != keys[j] && LexLeq(Utf16Units(keys[i]), Utf16Units(keys[j]))
  }

  lemma AscendPrepend(k: string, keys: seq<string>)
    requires keys != [] && UnitsAscend(keys) && Follows(Some(k), keys[0])
    ensures UnitsAscend([k] + keys)
  {
    hide LexLeq;
    forall j | 0 <= j < |keys| ensures k != keys[j] && LexLeq(Utf16Units(k), Utf16Units(keys[j])) {
      if j > 0 {
        LexTransitive(Utf16Units(k), Utf16Units(keys[0]), Utf16Units(keys[j]));
        if k == keys[j] {
          LexAntisymmetric(Utf16Units(k), Utf16Units(keys[0]));
          Utf16UnitsInjective(k, keys[0]);
        }
      }
    }
  }

  /** A strictly ascending listing of a set is the one `sorted` makes. */
  lemma {:induction false} AscendingIsSorted(keys: seq<string>)
    requires UnitsAscend(keys)
    ensures keys == Sorted(Utf16, Elements(keys))
  {
    hide LexLeq;
    if keys == [] {
      assert Elements(keys) == {};
    } else {
      var k, all := keys[0], Elements(keys);
      assert IsLeast(Utf16, k, all) by {
        assert k in all;
        forall x | x in all ensures Before(Utf16, k, x) {
          KeyComesLater(keys, x);
        }
      }
      LeastUnique(Utf16, all);
      assert Least(Utf16, all) == k;
      assert Elements(keys[1..]) == all - {k};
      AscendingIsSorted(keys[1..]);
      SortedStep(Utf16, all);
      assert keys == [k] + keys[1..];
      assert Sorted(Utf16, all) == [k] + Sorted(Utf16, all)[1..];
    }
  }

  lemma KeyComesLater(keys: seq<string>, x: string)
    requires UnitsAscend(keys) && x in keys
    ensures Before(Utf16, keys[0], x)
  {
    hide LexLeq;
    var k := keys[0];
    ByteOrderIsCodeUnitOrder(Utf16Units(k), Utf16Units(x));
    if x == k {
      LexTotal(Utf16Units(k), Utf16Units(k));
    }
  }

  lemma {:induction false} MembersAgree(v: Value, w: Value, keys: seq<string>)
    requires v.Dict? && w.Dict? && Accepted(v) && Accepted(w)
    requires forall k :: k in keys ==> k in v.members && k in w.members && v.members[k] == w.members[k]
    ensures EncodeMembers(v, keys) == EncodeMembers(w, keys)
    decreases |keys|
  {
    hide Quote;
    if keys != [] {
      MembersAgree(v, w, keys[1..]);
    }
  }

  // ------------------------------------------------------------------- values

  lemma {:induction false} ValuePrints(s: string)
    requires ReadValue(s).Some?
    ensures Accepted(ReadValue(s).value.0)
    ensures s == Encode(ReadValue(s).value.0) + ReadValue(s).value.1
    decreases |s|, 1
  {
    hide ReadItems, ReadMembers, ReadString, ReadInt, ReadWord, EncodeMembers, MemberKeys;
    if s[0] == 'n' {
      WordPrints(s, "null", Null);
    } else if s[0] == 't' {
      WordPrints(s, "true", Bool(true));
    } else if s[0] == 'f' {
      WordPrints(s, "false", Bool(false));
    } else if s[0] == '\"' {
      TextPrints(s);
    } else if s[0] == '[' {
      if !StartsWith(s[1..], "]") {
        ItemsPrint(s[1..]);
      }
      ListPrints(s);
    } else if s[0] == '{' {
      if !StartsWith(s[1..], "}") {
        var keys := MembersPrint(None, s[1..]);
        DictPrints(s, keys);
      } else {
        EmptyDictPrints(s);
      }
    } else {
      IntPrints(s);
    }
  }

  lemma TextPrints(s: string)
    requires s != "" && s[0] == '\"' && ReadValue(s).Some?
    ensures Accepted(ReadValue(s).value.0)
    ensures s == Encode(ReadValue(s).value.0) + ReadValue(s).value.1
  {
    hide ReadString, Escape;
    StringPrints(s[1..]);
    var (text, rest) := ReadString(s[1..]).value;
    assert s == "\"" + s[1..];
    Associate("\"", Escape(text) + "\"", rest);
  }

  lemma ListPrints(s: string)
    requires s != "" && s[0] == '[' && ReadValue(s).Some?
    requires !StartsWith(s[1..], "]") ==>
      var (items, rest) := ReadItems(s[1..]).value;
      Accepted(List(items)) && items != [] && s[1..] == EncodeItems(items) + "]" + rest
    ensures Accepted(ReadValue(s).value.0)
    ensures s == Encode(ReadValue(s).value.0) + ReadValue(s).value.1
  {
    hide ReadItems, EncodeItems;
    assert s == "[" + s[1..];
    if StartsWith(s[1..], "]") {
      assert EncodeItems([]) == "" by {
        NoItems();
      }
      assert s == "[" + "]" + s[2..];
    } else {
      var (items, rest) := ReadItems(s[1..]).value;
      assert ReadItems(s[1..]).Some?;
      Associate("[", EncodeItems(items) + "]", rest);
      Associate("[", EncodeItems(items), "]");
    }
  }

  lemma NoItems()
    ensures EncodeItems([]) == ""
  {
  }

  lemma EmptyDictPrints(s: string)
    requires s != "" && s[0] == '{' && StartsWith(s[1..], "}")
    ensures ReadValue(s).Some? && Accepted(ReadValue(s).value.0)
    ensures s == Encode(ReadValue(s).value.0) + ReadValue(s).value.1
  {
    assert s == "{" + "}" + s[2..];
  }

  /** What `MembersPrint` establishes of the members read off the front of a text. */
  ghost predicate Printed(s: string, members: map<string, Value>, keys: seq<string>, rest: string) {
    && keys != [] && UnitsAscend(keys) && Elements(keys) == members.Keys
    && Accepted(Dict(members))
    && (forall k :: k in keys ==> k in members)
    && s == EncodeMembers(Dict(members), keys) + "}" + rest
  }

  lemma DictPrints(s: string, keys: seq<string>)
    requires s != "" && s[0] == '{' && !StartsWith(s[1..], "}") && ReadMembers(None, s[1..]).Some?
    requires Printed(s[1..], ReadMembers(None, s[1..]).value.0, keys, ReadMembers(None, s[1..]).value.1)
    ensures ReadValue(s).Some? && Accepted(ReadValue(s).value.0)
    ensures s == Encode(ReadValue(s).value.0) + ReadValue(s).value.1
  {
    hide ReadMembers, EncodeMembers, UnitsAscend, Sorted;
    var (members, rest) := ReadMembers(None, s[1..]).value;
    AscendingIsSorted(keys);
    assert MemberKeys(members) == keys;
    assert s == "{" + s[1..];
    var body := EncodeMembers(Dict(members), keys);
    Associate("{", body + "}", rest);
    Associate("{", body, "}");
  }

  lemma {:induction false} ItemsPrint(s: string)
    requires ReadItems(s).Some?
    ensures ReadItems(s).value.0 != [] && Accepted(List(ReadItems(s).value.0))
    ensures s == EncodeItems(ReadItems(s).value.0) + "]" + ReadItems(s).value.1
    decreases |s|, 2
  {
    hide ReadValue, Encode;
    var (item, after) := ReadValue(s).value;
    ValuePrints(s);
    if StartsWith(after, "]") {
      assert after == "]" + after[1..];
      Associate(Encode(item), "]", after[1..]);
    } else {
      ItemsPrint(after[1..]);
      var (tail, rest) := ReadItems(after[1..]).value;
      var items := [item] + tail;
      assert ReadItems(s).value == (items, rest);
      assert items[0] == item && items[1..] == tail && |items| > 1;
      assert EncodeItems(items) == Encode(item) + ("," + EncodeItems(tail));
      assert after == "," + after[1..];
      Associate(",", EncodeItems(tail) + "]", rest);
      Associate(",", EncodeItems(tail), "]");
      Associate(Encode(item), "," + EncodeItems(tail), "]");
      Associate(Encode(item), "," + EncodeItems(tail) + "]", rest);
    }
  }

  lemma {:induction false} MemberPrints(s: string)
    requires ReadMember(s).Some?
    ensures Accepted(ReadMember(s).value.1)
    ensures s == Quote(ReadMember(s).value.0) + ":" + (Encode(ReadMember(s).value.1) + ReadMember(s).value.2)
    decreases |s|, 1
  {
    hide ReadString, ReadValue, Escape, Encode;
    var (k, item, rest) := ReadMember(s).value;
    StringPrints(s[1..]);
    var after := ReadString(s[1..]).value.1;
    assert after == ":" + after[1..];
    ValuePrints(after[1..]);
    assert s == "\"" + s[1..];
    Associate("\"", Escape(k) + "\"", after);
    Associate(Quote(k), ":", after[1..]);
  }

  lemma {:induction false} MembersPrint(previous: Option<string>, s: string) returns (keys: seq<string>)
    requires ReadMembers(previous, s).Some?
    ensures Printed(s, ReadMembers(previous, s).value.0, keys, ReadMembers(previous, s).value.1)
    ensures Follows(previous, keys[0])
    decreases |s|, 2
  {
    hide ReadMember, Encode, EncodeMembers, Quote, UnitsAscend, Follows, Printed;
    var (k, item, after) := ReadMember(s).value;
    MemberPrints(s);
    if StartsWith(after, "}") {
      keys := [k];
      OneMemberPrints(s, k, item, after);
    } else {
      var tailKeys := MembersPrint(Some(k), after[1..]);
      var (tail, rest) := ReadMembers(Some(k), after[1..]).value;
      keys := [k] + tailKeys;
      MorePrints(s, k, item, after, tail, tailKeys, rest);
    }
  }

  lemma OneMemberPrints(s: string, k: string, item: Value, after: string)
    requires Accepted(item) && StartsWith(after, "}")
    requires s == Quote(k) + ":" + (Encode(item) + after)
    ensures Printed(s, map[k := item], [k], after[1..])
  {
    hide Encode, Quote;
    var v := Dict(map[k := item]);
    assert EncodeMembers(v, [k]) == Quote(k) + ":" + Encode(item);
    assert after == "}" + after[1..];
    Associate(Quote(k) + ":", Encode(item), after);
    Associate(Quote(k) + ":" + Encode(item), "}", after[1..]);
  }

  lemma MorePrints(s: string, k: string, item: Value, after: string, tail: map<string, Value>,
                   tailKeys: seq<string>, rest: string)
    requires Accepted(item) && StartsWith(after, ",")
    requires s == Quote(k) + ":" + (Encode(item) + after)
    requires Printed(after[1..], tail, tailKeys, rest) && Follows(Some(k), tailKeys[0])
    ensures Printed(s, map[k := item] + tail, [k] + tailKeys, rest)
  {
    hide Encode, Quote, EncodeMembers, Follows;
    var members, keys := map[k := item] + tail, [k] + tailKeys;
    var v := Dict(members);
    AscendPrepend(k, tailKeys);
    assert k !in tail by {
      forall x | x in tailKeys ensures x != k {
        var i :| 0 <= i < |tailKeys| && tailKeys[i] == x;
        assert keys[0] != keys[i + 1];
      }
    }
    assert Accepted(v);
    MembersAgree(v, Dict(tail), tailKeys);
    assert keys[1..] == tailKeys;
    EncodeMembersSplit(v, keys, rest);
    assert after == "," + after[1..];
    assert AfterMember(v, tailKeys, rest) == after;
  }

  // ---------------------------------------------------------------- documents

  /** Bytes that read as a value are the canonical bytes of that value. */
  lemma CanonicalOfParsed(b: seq<byte>)
    requires Parse(b).Some?
    ensures Canonicalize(Parse(b).value) == Ok(b)
  {
    var text := Utf8Decode(b).value;
    Utf8OfDecoded(b);
    ValuePrints(text);
    assert Encode(Parse(b).value) + "" == Encode(Parse(b).value);
  }

  /** The bytes `canonicalize` returns are the one RFC 8785 text of the value. */
  lemma CanonicalIff(v: Value, b: seq<byte>)
    ensures Canonicalize(v) == Ok(b) <==> Parse(b) == Some(v)
  {
    if Canonicalize(v) == Ok(b) {
      ParseOfCanonical(v);
    }
    if Parse(b) == Some(v) {
      CanonicalOfParsed(b);
    }
  }
}
