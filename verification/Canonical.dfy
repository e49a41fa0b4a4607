/** Canonical JSON (canonical.py) and artifact digests (crypto.py). */
module Canonical {
  import opened Prelude
  import opened Doubles
  import opened Unicode
  import opened Ordering

  /** The Python values handed to `canonicalize`. The last four constructors are the values
      `_validate` refuses: a dict with a key that is not a string, a float, any other object.
      Dict equality ignores member order, in Python as here. */
  datatype Value =
    | Null
    | Bool(b: bool)
    | Int(i: int)
    | Str(s: string)
    | List(items: seq<Value>)
    | Dict(members: map<string, Value>)
    | ForeignKeyDict
    | Float(x: Double)
    | NonFiniteFloat(name: string)
    | Foreign(typeName: string)

  /** `_validate` returns normally. */
  predicate Accepted(v: Value) {
    match v
    case Null | Bool(_) | Int(_) | Str(_) => true
    case List(items) => forall i :: 0 <= i < |items| ==> Accepted(items[i])
    case Dict(members) => forall k :: k in members ==> Accepted(members[k])
    case ForeignKeyDict | Float(_) | NonFiniteFloat(_) | Foreign(_) => false
  }

  // ---------------------------------------------------------------- printer

  const HEX := "0123456789abcdef"

  /** What `json.dumps(..., ensure_ascii=False)` prints for one character. */
  function EscapeChar(c: char): (e: string)
    ensures |e| > 0
  {
    if c == '\"' then "\\\""
    else if c == '\\' then "\\\\"
    else if c == 8 as char then "\\b"
    else if c == 9 as char then "\\t"
    else if c == 10 as char then "\\n"
    else if c == 12 as char then "\\f"
    else if c == 13 as char then "\\r"
    else if c as int < 32 then "\\u00" + [HEX[c as int / 16], HEX[c as int % 16]]
    else [c]
  }

  function Escape(s: string): string {
    if s == "" then "" else EscapeChar(s[0]) + Escape(s[1..])
  }

  function Quote(s: string): string {
    "\"" + Escape(s) + "\""
  }

  function DigitChar(d: nat): char
    requires d < 10
  {
    HEX[d]
  }

  function NatText(n: nat): string {
    if n < 10 then [DigitChar(n)] else NatText(n / 10) + [DigitChar(n % 10)]
  }

  /** `str(item)` of an integer. */
  function IntText(n: int): string {
    if n < 0 then "-" + NatText(-n) else NatText(n)
  }

  function MemberKeys(members: map<string, Value>): seq<string> {
    Sorted(Utf16, members.Keys)
  }

  function Encode(v: Value): string
    requires Accepted(v)
    decreases v, 1, 0
  {
    match v
    case Null => "null"
    case Bool(b) => if b then "true" else "false"
    case Int(n) => IntText(n)
    case Str(s) => Quote(s)
    case List(items) => "[" + EncodeItems(items) + "]"
    case Dict(members) => "{" + EncodeMembers(v, MemberKeys(members)) + "}"
  }

  function EncodeItems(items: seq<Value>): string
    requires forall i :: 0 <= i < |items| ==> Accepted(items[i])
    decreases items, 0, 0
  {
    if items == [] then ""
    else Encode(items[0]) + (if |items| == 1 then "" else "," + EncodeItems(items[1..]))
  }

  function EncodeMembers(v: Value, keys: seq<string>): string
    requires v.Dict? && Accepted(v)
    requires forall k :: k in keys ==> k in v.members
    decreases v, 0, |keys|
  {
    if keys == [] then ""
    else
      Quote(keys[0]) + ":" + Encode(v.members[keys[0]]) +
      (if |keys| == 1 then "" else "," + EncodeMembers(v, keys[1..]))
  }

  /** `canonicalize`: every refusal carries the same error code. */
  function Canonicalize(v: Value): Result<seq<byte>, ErrorCode> {
    if Accepted(v) then Ok(Utf8(Encode(v))) else Err(UnsupportedSemantics)
  }

  // ----------------------------------------------------------------- reader
  //
  // The reader is written against RFC 8785 and knows nothing of the printer. It takes canonical
  // texts only: no blanks, the short escapes where there is one, no other character escaped, no
  // leading zero or "-0", and members in strictly ascending UTF-16 code unit order.

  predicate StartsWith(s: string, p: string) {
    |p| <= |s| && s[..|p|] == p
  }

  predicate IsDigit(c: char) {
    '0' <= c <= '9'
  }

  function HexValue(c: char): Option<nat> {
    if '0' <= c <= '9' then Some(c as int - '0' as int)
    else if 'a' <= c <= 'f' then Some(c as int - 'a' as int + 10)
    else None
  }

  /** RFC 8785 section 3.2.2.2: the characters that stand for themselves. */
  predicate Plain(c: char) {
    c as int >= 32 && c != '\"' && c != '\\'
  }

  /** The control characters written by a letter, which must not be written by number. */
  predicate HasLetter(n: nat) {
    n == 8 || n == 9 || n == 10 || n == 12 || n == 13
  }

  /** Reads one possibly escaped character; returns it with the number of characters read. */
  function UnescapeHead(s: string): (r: Option<(char, nat)>)
    ensures r.Some? ==> 1 <= r.value.1 <= |s|
  {
    if s == "" then None
    else if s[0] != '\\' then if Plain(s[0]) then Some((s[0], 1)) else None
    else if |s| < 2 then None
    else if s[1] == '\"' then Some(('\"', 2))
    else if s[1] == '\\' then Some(('\\', 2))
    else if s[1] == 'b' then Some((8 as char, 2))
    else if s[1] == 't' then Some((9 as char, 2))
    else if s[1] == 'n' then Some((10 as char, 2))
    else if s[1] == 'f' then Some((12 as char, 2))
    else if s[1] == 'r' then Some((13 as char, 2))
    else if |s| < 6 || s[1..4] != "u00" then None
    else
      var hi, lo := HexValue(s[4]), HexValue(s[5]);
      if hi.Some? && lo.Some? && hi.value < 2 && !HasLetter(16 * hi.value + lo.value)
      then Some(((16 * hi.value + lo.value) as char, 6)) else None
  }

  /** Reads up to and past the closing quote. */
  function ReadString(s: string): (r: Option<(string, string)>)
    ensures r.Some? ==> |r.value.1| < |s|
  {
    if s == "" then None
    else if s[0] == '\"' then Some(("", s[1..]))
    else
      var head := UnescapeHead(s);
      if head.None? then None
      else
        var tail := ReadString(s[head.value.1..]);
        if tail.None? then None else Some(([head.value.0] + tail.value.0, tail.value.1))
  }

  function ReadNat(acc: nat, s: string): (r: (nat, string))
    ensures |r.1| <= |s|
    decreases |s|
  {
    if s != "" && IsDigit(s[0]) then ReadNat(10 * acc + (s[0] as int - '0' as int), s[1..])
    else (acc, s)
  }

  function ReadInt(s: string): (r: Option<(Value, string)>)
    ensures r.Some? ==> |r.value.1| < |s|
  {
    if s != "" && s[0] == '0' then
      if |s| > 1 && IsDigit(s[1]) then None else Some((Int(0), s[1..]))
    else if s != "" && IsDigit(s[0]) then
      var (n, rest) := ReadNat(0, s);
      assert ReadNat(0, s) == ReadNat(s[0] as int - '0' as int, s[1..]);
      Some((Int(n), rest))
    else if |s| > 1 && s[0] == '-' && s[1] != '0' && IsDigit(s[1]) then
      var (n, rest) := ReadNat(0, s[1..]);
      Some((Int(-(n as int)), rest))
    else None
  }

  function ReadWord(s: string, word: string, v: Value): Option<(Value, string)> {
    if StartsWith(s, word) then Some((v, s[|word|..])) else None
  }

  function ReadValue(s: string): (r: Option<(Value, string)>)
    ensures r.Some? ==> |r.value.1| < |s|
    decreases |s|, 1
  {
    if s == "" then None
    else if s[0] == 'n' then ReadWord(s, "null", Null)
    else if s[0] == 't' then ReadWord(s, "true", Bool(true))
    else if s[0] == 'f' then ReadWord(s, "false", Bool(false))
    else if s[0] == '\"' then
      var text := ReadString(s[1..]);
      if text.None? then None else Some((Str(text.value.0), text.value.1))
    else if s[0] == '[' then
      if StartsWith(s[1..], "]") then Some((List([]), s[2..]))
      else
        var items := ReadItems(s[1..]);
        if items.None? then None else Some((List(items.value.0), items.value.1))
    else if s[0] == '{' then
      if StartsWith(s[1..], "}") then Some((Dict(map[]), s[2..]))
      else
        var members := ReadMembers(None, s[1..]);
        if members.None? then None else Some((Dict(members.value.0), members.value.1))
    else ReadInt(s)
  }

  function ReadItems(s: string): (r: Option<(seq<Value>, string)>)
    ensures r.Some? ==> |r.value.1| < |s|
    decreases |s|, 2
  {
    var head := ReadValue(s);
    if head.None? then None
    else
      var rest := head.value.1;
      if StartsWith(rest, "]") then Some(([head.value.0], rest[1..]))
      else if StartsWith(rest, ",") then
        var tail := ReadItems(rest[1..]);
        if tail.None? then None else Some(([head.value.0] + tail.value.0, tail.value.1))
      else None
  }

  function ReadMember(s: string): (r: Option<(string, Value, string)>)
    ensures r.Some? ==> |r.value.2| < |s|
    decreases |s|, 1
  {
    if !StartsWith(s, "\"") then None
    else
      var key := ReadString(s[1..]);
      if key.None? || !StartsWith(key.value.1, ":") then None
      else
        var item := ReadValue(key.value.1[1..]);
        if item.None? then None else Some((key.value.0, item.value.0, item.value.1))
  }

  /** RFC 8785 section 3.2.3: a member's key comes after the one before it. */
  predicate Follows(previous: Option<string>, k: string) {
    previous.None? || (previous.value != k && LexLeq(Utf16Units(previous.value), Utf16Units(k)))
  }

  function ReadMembers(previous: Option<string>, s: string): (r: Option<(map<string, Value>, string)>)
    ensures r.Some? ==> |r.value.1| < |s|
    decreases |s|, 2
  {
    var head := ReadMember(s);
    if head.None? then None
    else
      var (key, item, rest) := head.value;
      if !Follows(previous, key) then None
      else if StartsWith(rest, "}") then Some((map[key := item], rest[1..]))
      else if StartsWith(rest, ",") then
        var tail := ReadMembers(Some(key), rest[1..]);
        if tail.None? then None else Some((map[key := item] + tail.value.0, tail.value.1))
      else None
  }

  /** Reads a whole document. */
  function Parse(b: seq<byte>): Option<Value> {
    var text := Utf8Decode(b);
    if text.None? then None
    else
      var r := ReadValue(text.value);
      if r.Some? && r.value.1 == "" then Some(r.value.0) else None
  }

  // ------------------------------------------------------------- round trip

  lemma UnescapeOfEscape(c: char, t: string)
    ensures UnescapeHead(EscapeChar(c) + t) == Some((c, |EscapeChar(c)|))
    ensures EscapeChar(c)[0] != '\"'
  {
    var s := EscapeChar(c) + t;
    assert forall i :: 0 <= i < |EscapeChar(c)| ==> s[i] == EscapeChar(c)[i];
    if |EscapeChar(c)| == 6 {
      UnescapeOfHex(c, t);
    }
  }

  lemma UnescapeOfHex(c: char, t: string)
    requires |EscapeChar(c)| == 6
    ensures UnescapeHead(EscapeChar(c) + t) == Some((c, 6))
  {
    hide HexValue;
    var n := c as int;
    var s := EscapeChar(c) + t;
    assert EscapeChar(c) == "\\u00" + [HEX[n / 16], HEX[n % 16]];
    assert s[0] == '\\' && s[1] == 'u' && s[4] == HEX[n / 16] && s[5] == HEX[n % 16];
    assert s[1..4] == "u00";
    HexRoundTrip(n / 16);
    HexRoundTrip(n % 16);
    assert 16 * (n / 16) + n % 16 == n;
  }

  lemma HexRoundTrip(d: nat)
    requires d < 16
    ensures HexValue(HEX[d]) == Some(d)
  {
    assert d == 0 || d == 1 || d == 2 || d == 3 || d == 4 || d == 5 || d == 6 || d == 7 ||
           d == 8 || d == 9 || d == 10 || d == 11 || d == 12 || d == 13 || d == 14 || d == 15;
  }

  lemma {:induction false} ReadOfQuote(s: string, rest: string)
    ensures ReadString(Escape(s) + "\"" + rest) == Some((s, rest))
  {
    hide UnescapeHead, EscapeChar;
    var text := Escape(s) + "\"" + rest;
    if s == "" {
      assert text == "\"" + rest;
    } else {
      var e := EscapeChar(s[0]);
      var t := Escape(s[1..]) + "\"" + rest;
      Associate(e, Escape(s[1..]), "\"");
      Associate(e, Escape(s[1..]) + "\"", rest);
      assert text == e + t;
      UnescapeOfEscape(s[0], t);
      assert text[0] == e[0];
      assert text[|e|..] == t;
      ReadOfQuote(s[1..], rest);
      assert s == [s[0]] + s[1..];
    }
  }

  /** What may follow a complete value inside a document. */
  predicate Delimits(rest: string) {
    rest == "" || rest[0] in ",]}"
  }

  lemma DigitReads(acc: nat, d: nat, t: string)
    requires d < 10
    ensures IsDigit(DigitChar(d)) && DigitChar(d) as int - '0' as int == d
    ensures ReadNat(acc, [DigitChar(d)] + t) == ReadNat(10 * acc + d, t)
  {
    HexRoundTrip(d);
    assert ([DigitChar(d)] + t)[1..] == t;
  }

  lemma {:induction false} ReadOfNat(n: nat, t: string)
    ensures NatText(n) != "" && IsDigit(NatText(n)[0])
    ensures ReadNat(0, NatText(n) + t) == ReadNat(n, t)
  {
    if n < 10 {
      DigitReads(0, n, t);
    } else {
      var last := [DigitChar(n % 10)];
      assert NatText(n) + t == NatText(n / 10) + (last + t);
      ReadOfNat(n / 10, last + t);
      DigitReads(n / 10, n % 10, t);
    }
  }

  lemma {:induction false} NoLeadingZero(n: nat)
    requires n > 0
    ensures NatText(n) != "" && NatText(n)[0] != '0' && IsDigit(NatText(n)[0])
  {
    if n < 10 {
      HexRoundTrip(n);
    } else {
      NoLeadingZero(n / 10);
      assert NatText(n)[0] == NatText(n / 10)[0];
    }
  }

  lemma ReadOfInt(n: int, rest: string)
    requires Delimits(rest)
    ensures ReadValue(IntText(n) + rest) == Some((Int(n), rest))
  {
    assert NatText(0) == "0";
    hide NatText, ReadItems, ReadMembers, ReadString;
    var m: nat := if n < 0 then -n else n;
    var body := NatText(m) + rest;
    ReadOfNat(m, rest);
    if m > 0 {
      NoLeadingZero(m);
    }
    assert ReadNat(m, rest) == (m, rest);
    assert body[0] == NatText(m)[0];
    if n < 0 {
      assert IntText(n) + rest == "-" + body;
      assert ("-" + body)[1..] == body;
    } else {
      assert IntText(n) + rest == body;
    }
  }

  lemma ReadWordOf(word: string, rest: string, v: Value)
    ensures ReadWord(word + rest, word, v) == Some((v, rest))
  {
    assert (word + rest)[..|word|] == word && (word + rest)[|word|..] == rest;
  }

  lemma ReadItemsStep(s: string, item: Value, after: string, tail: seq<Value>, rest: string)
    requires ReadValue(s) == Some((item, after))
    requires (after == "]" + rest && tail == []) ||
             (after != "" && after[0] == ',' && ReadItems(after[1..]) == Some((tail, rest)))
    ensures ReadItems(s) == Some(([item] + tail, rest))
  {
    if after == "]" + rest {
      assert after[..1] == "]" && after[1..] == rest;
      assert [item] + tail == [item];
    } else {
      assert after[..1] == ",";
    }
  }

  lemma ReadMemberOf(k: string, text: string, item: Value, after: string)
    requires ReadValue(text) == Some((item, after))
    ensures ReadMember(Quote(k) + ":" + text) == Some((k, item, after))
  {
    hide ReadString, ReadValue, Escape;
    var s := Quote(k) + ":" + text;
    assert s == "\"" + (Escape(k) + "\"" + (":" + text)) by {
      Associate("\"", Escape(k), "\"");
      Associate("\"" + (Escape(k) + "\""), ":", text);
      Associate("\"", Escape(k) + "\"", ":" + text);
    }
    assert s[..1] == "\"" && s[1..] == Escape(k) + "\"" + (":" + text);
    ReadOfQuote(k, ":" + text);
    assert (":" + text)[..1] == ":" && (":" + text)[1..] == text;
  }

  lemma ReadMembersStep(previous: Option<string>, s: string, k: string, item: Value, after: string,
                        tail: map<string, Value>, rest: string)
    requires ReadMember(s) == Some((k, item, after)) && Follows(previous, k)
    requires (after == "}" + rest && tail == map[]) ||
             (after != "" && after[0] == ',' && ReadMembers(Some(k), after[1..]) == Some((tail, rest)))
    ensures ReadMembers(previous, s) == Some((map[k := item] + tail, rest))
  {
    hide Follows;
    if after == "}" + rest {
      assert after[..1] == "}" && after[1..] == rest;
      assert map[k := item] + tail == map[k := item];
    } else {
      assert after[..1] == ",";
    }
  }

  lemma ReadListOf(body: string, items: seq<Value>, rest: string)
    requires body != "" && body[0] != ']' && ReadItems(body) == Some((items, rest))
    ensures ReadValue("[" + body) == Some((List(items), rest))
  {
    hide ReadItems, ReadMembers, ReadInt, ReadString;
    var s := "[" + body;
    assert s[0] == '[' && s[1..] == body;
    assert body[..1][0] == body[0];
  }

  lemma ReadDictOf(body: string, members: map<string, Value>, rest: string)
    requires body != "" && body[0] != '}' && ReadMembers(None, body) == Some((members, rest))
    ensures ReadValue("{" + body) == Some((Dict(members), rest))
  {
    hide ReadMembers, ReadItems, ReadInt, ReadString;
    var s := "{" + body;
    assert s[0] == '{' && s[1..] == body;
    assert body[..1][0] == body[0];
  }

  lemma FirstOfValue(v: Value)
    requires Accepted(v)
    ensures Encode(v) != "" && Encode(v)[0] !in ",]}"
  {
    if v.Int? {
      ReadOfNat(if v.i < 0 then -v.i else v.i, "");
    }
  }

  lemma {:induction false} ReadOfEncode(v: Value, rest: string)
    requires Accepted(v) && Delimits(rest)
    ensures ReadValue(Encode(v) + rest) == Some((v, rest))
    decreases v, 2, 0
  {
    hide ReadValue, Encode;
    match v
    case Null => ReadOfScalar(v, rest);
    case Bool(_) => ReadOfScalar(v, rest);
    case Int(_) => ReadOfScalar(v, rest);
    case Str(_) => ReadOfScalar(v, rest);
    case List(items) => ReadOfList(v, rest);
    case Dict(members) => ReadOfDict(v, rest);
  }

  lemma ReadOfScalar(v: Value, rest: string)
    requires (v.Null? || v.Bool? || v.Int? || v.Str?) && Delimits(rest)
    ensures ReadValue(Encode(v) + rest) == Some((v, rest))
  {
    hide ReadNat, NatText, Escape, ReadString;
    match v
    case Null => ReadWordOf("null", rest, v);
    case Bool(b) => ReadWordOf(if b then "true" else "false", rest, v);
    case Int(n) => ReadOfInt(n, rest);
    case Str(s) => ReadOfText(s, rest);
  }

  lemma ReadOfText(s: string, rest: string)
    ensures ReadValue(Quote(s) + rest) == Some((Str(s), rest))
  {
    hide Escape, ReadString;
    assert (Quote(s) + rest)[1..] == Escape(s) + "\"" + rest;
    ReadOfQuote(s, rest);
  }

  lemma EmptyListReads(rest: string)
    ensures ReadValue("[" + "" + "]" + rest) == Some((List([]), rest))
  {
    hide ReadItems;
    var s := "[" + "" + "]" + rest;
    assert s[1..] == "]" + rest && s[1..][..1] == "]" && s[2..] == rest;
  }

  lemma EmptyDictReads(rest: string)
    ensures ReadValue("{" + ("" + "}" + rest)) == Some((Dict(map[]), rest))
  {
    hide ReadMembers;
    var s := "{" + ("" + "}" + rest);
    assert s[1..] == "}" + rest && s[1..][..1] == "}" && s[2..] == rest;
  }

  lemma {:induction false} ReadOfList(v: Value, rest: string)
    requires v.List? && Accepted(v) && Delimits(rest)
    ensures ReadValue(Encode(v) + rest) == Some((v, rest))
    decreases v, 1, 0
  {
    hide ReadValue, ReadItems;
    if v.items == [] {
      assert Encode(v) + rest == "[" + "" + "]" + rest;
      EmptyListReads(rest);
    } else {
      var body := EncodeItems(v.items) + "]" + rest;
      assert Encode(v) + rest == "[" + body;
      BodyStart(v.items, rest);
      ReadOfItems(v.items, rest);
      ReadListOf(body, v.items, rest);
    }
  }

  lemma BodyStart(items: seq<Value>, rest: string)
    requires items != [] && forall i :: 0 <= i < |items| ==> Accepted(items[i])
    ensures var body := EncodeItems(items) + "]" + rest; body != "" && body[0] != ']'
  {
    hide Encode;
    FirstOfValue(items[0]);
    assert EncodeItems(items)[0] == Encode(items[0])[0];
  }

  lemma {:induction false} ReadOfDict(v: Value, rest: string)
    requires v.Dict? && Accepted(v) && Delimits(rest)
    ensures ReadValue(Encode(v) + rest) == Some((v, rest))
    decreases v, 1, 0
  {
    hide ReadValue, Sorted, Ascending, EncodeMembers;
    var keys := MemberKeys(v.members);
    SortedAscending(Utf16, v.members.Keys);
    assert Encode(v) + rest == "{" + (EncodeMembers(v, keys) + "}" + rest);
    ReadOfDictBody(v, keys, rest);
  }

  lemma {:induction false} ReadOfDictBody(v: Value, keys: seq<string>, rest: string)
    requires v.Dict? && Accepted(v) && Distinct(keys) && Ascending(Utf16, keys)
    requires forall k :: k in keys <==> k in v.members
    ensures ReadValue("{" + (EncodeMembers(v, keys) + "}" + rest)) == Some((v, rest))
    decreases v, 0, |keys| + 1
  {
    hide ReadValue, ReadMembers, Ascending;
    var body := EncodeMembers(v, keys) + "}" + rest;
    if keys == [] {
      assert v.members == map[];
      EmptyDictReads(rest);
    } else {
      assert body[0] == '\"';
      ReadOfMembers(None, v, keys, rest);
      assert (map k | k in keys :: v.members[k]) == v.members;
      ReadDictOf(body, v.members, rest);
    }
  }

  lemma {:induction false} ReadOfItems(items: seq<Value>, rest: string)
    requires items != [] && forall i :: 0 <= i < |items| ==> Accepted(items[i])
    ensures ReadItems(EncodeItems(items) + "]" + rest) == Some((items, rest))
    decreases items, 0, 0
  {
    hide Encode, ReadValue, ReadItems;
    var tail := items[1..];
    var after := if tail == [] then "]" + rest else "," + (EncodeItems(tail) + "]" + rest);
    var text := Encode(items[0]) + after;
    assert EncodeItems(items) + "]" + rest == text;
    ReadOfEncode(items[0], after);
    if tail != [] {
      ReadOfItems(tail, rest);
      assert after[1..] == EncodeItems(tail) + "]" + rest;
    }
    ReadItemsStep(text, items[0], after, tail, rest);
    assert items == [items[0]] + tail;
  }

  /** The text after one member of an object whose remaining keys are `tail`. */
  function AfterMember(v: Value, tail: seq<string>, rest: string): string
    requires v.Dict? && Accepted(v)
    requires forall k :: k in tail ==> k in v.members
  {
    if tail == [] then "}" + rest else "," + (EncodeMembers(v, tail) + "}" + rest)
  }

  lemma EncodeMembersSplit(v: Value, keys: seq<string>, rest: string)
    requires v.Dict? && Accepted(v)
    requires keys != [] && forall k :: k in keys ==> k in v.members
    ensures EncodeMembers(v, keys) + "}" + rest
         == Quote(keys[0]) + ":" + (Encode(v.members[keys[0]]) + AfterMember(v, keys[1..], rest))
  {
    hide Encode, Quote, EncodeMembers;
    var q, e, more := Quote(keys[0]), Encode(v.members[keys[0]]), AfterMember(v, keys[1..], rest);
    var tail := if |keys| == 1 then "" else "," + EncodeMembers(v, keys[1..]);
    FirstMember(v, keys);
    assert tail + ("}" + rest) == more by {
      if |keys| > 1 {
        Associate(",", EncodeMembers(v, keys[1..]), "}" + rest);
        Associate(EncodeMembers(v, keys[1..]), "}", rest);
      }
    }
    Associate(q + ":" + e + tail, "}", rest);
    Associate(q + ":" + e, tail, "}" + rest);
    Associate(q + ":", e, more);
  }

  lemma FirstMember(v: Value, keys: seq<string>)
    requires v.Dict? && Accepted(v)
    requires keys != [] && forall k :: k in keys ==> k in v.members
    ensures EncodeMembers(v, keys) == Quote(keys[0]) + ":" + Encode(v.members[keys[0]]) +
      (if |keys| == 1 then "" else "," + EncodeMembers(v, keys[1..]))
  {
    hide Encode, Quote;
  }

  lemma Associate(a: string, b: string, c: string)
    ensures a + b + c == a + (b + c)
  {
  }

  lemma RestrictSplit(m: map<string, Value>, keys: seq<string>)
    requires keys != [] && Distinct(keys) && forall k :: k in keys ==> k in m
    ensures (map k | k in keys :: m[k]) == map[keys[0] := m[keys[0]]] + (map k | k in keys[1..] :: m[k])
  {
    assert keys == [keys[0]] + keys[1..];
  }

  lemma NextFollows(keys: seq<string>)
    requires |keys| > 1 && Distinct(keys) && Ascending(Utf16, keys)
    ensures Follows(Some(keys[0]), keys[1])
    ensures Distinct(keys[1..]) && Ascending(Utf16, keys[1..])
  {
    hide LexLeq;
    assert Before(Utf16, keys[0], keys[1]);
    ByteOrderIsCodeUnitOrder(Utf16Units(keys[0]), Utf16Units(keys[1]));
  }

  lemma {:induction false} ReadOfMembers(previous: Option<string>, v: Value, keys: seq<string>, rest: string)
    requires v.Dict? && Accepted(v)
    requires keys != [] && Distinct(keys) && Ascending(Utf16, keys) && Follows(previous, keys[0])
    requires forall k :: k in keys ==> k in v.members
    ensures ReadMembers(previous, EncodeMembers(v, keys) + "}" + rest)
         == Some((map k | k in keys :: v.members[k], rest))
    decreases v, 0, |keys|
  {
    hide Encode, EncodeMembers, ReadValue, ReadMembers, Quote, Follows, Ascending;
    var k, tail := keys[0], keys[1..];
    var item := v.members[k];
    var after := AfterMember(v, tail, rest);
    EncodeMembersSplit(v, keys, rest);
    ReadOfEncode(item, after);
    ReadMemberOf(k, Encode(item) + after, item, after);
    var tailMap := map x | x in tail :: v.members[x];
    if tail == [] {
      assert tailMap == map[];
    } else {
      NextFollows(keys);
      ReadOfMembers(Some(k), v, tail, rest);
      assert after[1..] == EncodeMembers(v, tail) + "}" + rest;
    }
    ReadMembersStep(previous, EncodeMembers(v, keys) + "}" + rest, k, item, after, tailMap, rest);
    RestrictSplit(v.members, keys);
  }

  /** Canonical bytes are readable: the reader returns the very value that was printed. */
  lemma ParseOfCanonical(v: Value)
    requires Accepted(v)
    ensures Canonicalize(v).Ok? && Parse(Canonicalize(v).value) == Some(v)
  {
    Utf8RoundTrip(Encode(v));
    ReadOfEncode(v, "");
    assert Encode(v) + "" == Encode(v);
  }

  /** Two values get the same bytes exactly when they are the same JSON value. */
  lemma CanonicalBytesIdentify(v: Value, w: Value)
    ensures Canonicalize(v).Ok? && Canonicalize(v) == Canonicalize(w) <==> Accepted(v) && v == w
  {
    if Accepted(v) {
      ParseOfCanonical(v);
    }
    if Accepted(w) {
      ParseOfCanonical(w);
    }
  }

  /** RFC 8785 section 3.2.3: an object's members are printed once each, in strictly ascending
      order of their keys' UTF-16 code units. */
  lemma MembersInCodeUnitOrder(v: Value) returns (keys: seq<string>)
    requires v.Dict? && Accepted(v)
    ensures Elements(keys) == v.members.Keys && Distinct(keys)
    ensures forall i, j :: 0 <= i < j < |keys| ==> LexLeq(Utf16Units(keys[i]), Utf16Units(keys[j]))
    ensures Encode(v) == "{" + EncodeMembers(v, keys) + "}"
  {
    keys := MemberKeys(v.members);
    SortedAscending(Utf16, v.members.Keys);
    forall i, j | 0 <= i < j < |keys| ensures LexLeq(Utf16Units(keys[i]), Utf16Units(keys[j])) {
      assert Before(Utf16, keys[i], keys[j]);
      ByteOrderIsCodeUnitOrder(Utf16Units(keys[i]), Utf16Units(keys[j]));
    }
  }

  // ---------------------------------------------------------------- digests

  /** SHA-256 taken as collision free: a digest remembers the bytes it was computed from. */
  datatype Digest = Sha256(preimage: seq<byte>)

  /** `without_proof`. */
  function WithoutProof(v: Value): Result<Value, ErrorCode> {
    match v
    case Dict(members) => Ok(Dict(members - {"proof"}))
    case ForeignKeyDict => Ok(ForeignKeyDict)
    case _ => Err(UnsupportedSemantics)
  }

  /** `artifact_digest`. */
  function ArtifactDigest(v: Value): Result<Digest, ErrorCode> {
    match WithoutProof(v)
    case Err(e) => Err(e)
    case Ok(bare) =>
      match Canonicalize(bare)
      case Err(e) => Err(e)
      case Ok(bytes) => Ok(Sha256(bytes))
  }

  /** Equal digests mean equal content apart from `proof`, and the other way round. */
  lemma DigestIdentifiesContent(v: Value, w: Value)
    ensures ArtifactDigest(v).Ok? <==> v.Dict? && Accepted(Dict(v.members - {"proof"}))
    ensures ArtifactDigest(v).Ok? && ArtifactDigest(w).Ok? ==>
      (ArtifactDigest(v) == ArtifactDigest(w) <==>
       v.members - {"proof"} == w.members - {"proof"})
  {
    if ArtifactDigest(v).Ok? && ArtifactDigest(w).Ok? {
      CanonicalBytesIdentify(Dict(v.members - {"proof"}), Dict(w.members - {"proof"}));
    }
  }
}
