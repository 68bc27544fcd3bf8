/**
 * The JSON text that travels in the `args_json` and `result_json` fields of the
 * commandable protocol.
 *
 * The serializer of the system (a general JSON library) is replaced by a small,
 * concrete subset of JSON: null, booleans, strings, arrays and objects, written
 * without white space. Inside strings only the quote and the backslash are
 * escaped. What the dispatch bridge relies on is proved below: decoding inverts
 * encoding, an encoding is never the empty string, and the encoding is the
 * two-character text `{}` exactly for the empty object.
 */
module Json {
  import opened Wrappers

  datatype Value =
    | JNull
    | JBool(b: bool)
    | JStr(s: string)
    | JArr(items: seq<Value>)
    | JObj(members: seq<Member>)

  datatype Member = Member(key: string, value: Value)

  /** The empty object: what an empty argument bag (`new Parameters()`) serializes to. */
  const EmptyObject: Value := JObj([])

  predicate StartsWith(s: string, prefix: string)
  {
    |prefix| <= |s| && s[..|prefix|] == prefix
  }

  // ---------------------------------------------------------------------------
  // Encoding

  function Escape(s: string): string
  {
    if s == [] then []
    else (if s[0] == '"' || s[0] == '\\' then ['\\', s[0]] else [s[0]]) + Escape(s[1..])
  }

  function Quote(s: string): string
  {
    "\"" + Escape(s) + "\""
  }

  function Encode(v: Value): string
    decreases v
  {
    match v
    case JNull => "null"
    case JBool(b) => if b then "true" else "false"
    case JStr(s) => Quote(s)
    case JArr(items) => "[" + EncodeItems(items) + "]"
    case JObj(members) => "{" + EncodeMembers(members) + "}"
  }

  function EncodeItems(items: seq<Value>): string
    decreases items
  {
    if |items| == 0 then ""
    else if |items| == 1 then Encode(items[0])
    else Encode(items[0]) + "," + EncodeItems(items[1..])
  }

  function EncodeMember(m: Member): string
    decreases m
  {
    Quote(m.key) + ":" + Encode(m.value)
  }

  function EncodeMembers(members: seq<Member>): string
    decreases members
  {
    if |members| == 0 then ""
    else if |members| == 1 then EncodeMember(members[0])
    else EncodeMember(members[0]) + "," + EncodeMembers(members[1..])
  }

  // ---------------------------------------------------------------------------
  // Decoding. Each parser returns what it read and the text after it.

  /** Reads the body of a string literal up to and including its closing quote. */
  function ParseStringBody(t: string): (r: Option<(string, string)>)
    ensures r.Some? ==> |r.value.1| < |t|
  {
    if |t| == 0 then None
    else if t[0] == '"' then Some(("", t[1..]))
    else if t[0] == '\\' then
      if |t| < 2 then None
      else
        match ParseStringBody(t[2..])
        case None => None
        case Some((body, rest)) => Some(([t[1]] + body, rest))
    else
      match ParseStringBody(t[1..])
      case None => None
      case Some((body, rest)) => Some(([t[0]] + body, rest))
  }

  function ParseValue(s: string): (r: Option<(Value, string)>)
    ensures r.Some? ==> |r.value.1| < |s|
    decreases |s|, 0
  {
    if |s| == 0 then None
    else if s[0] == 'n' then
      if StartsWith(s, "null") then Some((JNull, s[4..])) else None
    else if s[0] == 't' then
      if StartsWith(s, "true") then Some((JBool(true), s[4..])) else None
    else if s[0] == 'f' then
      if StartsWith(s, "false") then Some((JBool(false), s[5..])) else None
    else if s[0] == '"' then
      match ParseStringBody(s[1..])
      case None => None
      case Some((body, rest)) => Some((JStr(body), rest))
    else if s[0] == '[' then
      if StartsWith(s[1..], "]") then Some((JArr([]), s[2..]))
      else
        match ParseItems(s[1..])
        case None => None
        case Some((items, rest)) => Some((JArr(items), rest))
    else if s[0] == '{' then
      if StartsWith(s[1..], "}") then Some((JObj([]), s[2..]))
      else
        match ParseMembers(s[1..])
        case None => None
        case Some((members, rest)) => Some((JObj(members), rest))
    else None
  }

  /** Reads `v1,v2,...,vn]` (at least one value) up to and including the bracket. */
  function ParseItems(s: string): (r: Option<(seq<Value>, string)>)
    ensures r.Some? ==> |r.value.1| < |s|
    decreases |s|, 1
  {
    match ParseValue(s)
    case None => None
    case Some((v, rest)) =>
      if StartsWith(rest, "]") then Some(([v], rest[1..]))
      else if StartsWith(rest, ",") then
        match ParseItems(rest[1..])
        case None => None
        case Some((more, rest')) => Some(([v] + more, rest'))
      else None
  }

  /** Reads `"k1":v1,...,"kn":vn}` (at least one member) up to and including the brace. */
  function ParseMembers(s: string): (r: Option<(seq<Member>, string)>)
    ensures r.Some? ==> |r.value.1| < |s|
    decreases |s|, 1
  {
    if !StartsWith(s, "\"") then None
    else
      match ParseStringBody(s[1..])
      case None => None
      case Some((key, afterKey)) =>
        if !StartsWith(afterKey, ":") then None
        else
          match ParseValue(afterKey[1..])
          case None => None
          case Some((v, rest)) =>
            if StartsWith(rest, "}") then Some(([Member(key, v)], rest[1..]))
            else if StartsWith(rest, ",") then
              match ParseMembers(rest[1..])
              case None => None
              case Some((more, rest')) => Some(([Member(key, v)] + more, rest'))
            else None
  }

  /** A whole payload: one value and nothing after it; `None` models the parser's exception. */
  function Decode(s: string): Option<Value>
  {
    match ParseValue(s)
    case Some((v, rest)) => if rest == "" then Some(v) else None
    case None => None
  }

  // ---------------------------------------------------------------------------
  // Round trip

  lemma {:induction false} ParseStringBodyEscape(s: string, rest: string)
    ensures ParseStringBody(Escape(s) + "\"" + rest) == Some((s, rest))
    decreases s
  {
    var t := Escape(s) + "\"" + rest;
    if s == [] {
      assert t == "\"" + rest;
      assert t[1..] == rest;
    } else {
      ParseStringBodyEscape(s[1..], rest);
      var tail := Escape(s[1..]) + "\"" + rest;
      if s[0] == '"' || s[0] == '\\' {
        assert t == ['\\', s[0]] + tail;
        assert t[2..] == tail;
      } else {
        assert t == [s[0]] + tail;
        assert t[1..] == tail;
      }
      assert [s[0]] + s[1..] == s;
    }
  }

  /** Every encoding starts with the character that selects its parser. */
  lemma {:induction false} EncodeFirst(v: Value)
    ensures |Encode(v)| >= 2
    ensures Encode(v)[0] == (match v
      case JNull => 'n'
      case JBool(b) => if b then 't' else 'f'
      case JStr(_) => '"'
      case JArr(_) => '['
      case JObj(_) => '{')
  {
  }

  lemma {:induction false} ParseEncode(v: Value, rest: string)
    ensures ParseValue(Encode(v) + rest) == Some((v, rest))
    decreases v, 1
  {
    match v
    case JNull => ParseEncodeLiteral(v, rest);
    case JBool(_) => ParseEncodeLiteral(v, rest);
    case JStr(str) =>
      var s := Encode(v) + rest;
      assert s[1..] == Escape(str) + "\"" + rest;
      ParseStringBodyEscape(str, rest);
    case JArr(items) =>
      if |items| == 0 {
        ParseEncodeEmpty(v, rest);
      } else {
        ParseItemsEncode(items, rest);
        ParseEncodeArray(items, rest);
      }
    case JObj(members) =>
      if |members| == 0 {
        ParseEncodeEmpty(v, rest);
      } else {
        EncodeObjectShape(members, rest);
        ParseMembersEncode(members, rest);
        ParseValueObject(Encode(v) + rest, members, rest);
      }
  }

  lemma ParseEncodeLiteral(v: Value, rest: string)
    requires v.JNull? || v.JBool?
    ensures ParseValue(Encode(v) + rest) == Some((v, rest))
  {
    var s := Encode(v) + rest;
    if v.JNull? || v == JBool(true) {
      assert s[..4] == Encode(v);
      assert s[4..] == rest;
    } else {
      assert s[..5] == "false";
      assert s[5..] == rest;
    }
  }

  lemma ParseEncodeEmpty(v: Value, rest: string)
    requires v == JArr([]) || v == JObj([])
    ensures ParseValue(Encode(v) + rest) == Some((v, rest))
  {
    var s := Encode(v) + rest;
    assert s[1..][..1] == [s[1]];
    assert s[2..] == rest;
  }

  lemma ParseEncodeArray(items: seq<Value>, rest: string)
    requires |items| > 0
    requires ParseItems(EncodeItems(items) + "]" + rest) == Some((items, rest))
    ensures ParseValue(Encode(JArr(items)) + rest) == Some((JArr(items), rest))
  {
    EncodeArrayShape(items, rest);
    ParseValueArray(Encode(JArr(items)) + rest, items, rest);
  }

  lemma EncodeArrayShape(items: seq<Value>, rest: string)
    requires |items| > 0
    ensures var s := Encode(JArr(items)) + rest;
      |s| >= 2 && s[0] == '[' && s[1] != ']' && s[1..] == EncodeItems(items) + "]" + rest
  {
    var e := EncodeItems(items);
    var s := Encode(JArr(items)) + rest;
    assert s == "[" + e + "]" + rest;
    EncodeItemsFirst(items);
  }

  lemma EncodeItemsFirst(items: seq<Value>)
    requires |items| > 0
    ensures |EncodeItems(items)| > 0 && EncodeItems(items)[0] != ']'
  {
    EncodeFirst(items[0]);
    if |items| > 1 {
      assert EncodeItems(items) == Encode(items[0]) + ("," + EncodeItems(items[1..]));
    }
  }

  lemma ParseValueArray(s: string, items: seq<Value>, rest: string)
    requires |s| >= 2 && s[0] == '[' && s[1] != ']'
    requires ParseItems(s[1..]) == Some((items, rest))
    ensures ParseValue(s) == Some((JArr(items), rest))
  {
    assert !StartsWith(s[1..], "]") by { assert s[1..][..1] == [s[1]]; }
  }

  lemma EncodeObjectShape(members: seq<Member>, rest: string)
    requires |members| > 0
    ensures var s := Encode(JObj(members)) + rest;
      |s| >= 2 && s[0] == '{' && s[1] != '}' && s[1..] == EncodeMembers(members) + "}" + rest
  {
    var e := EncodeMembers(members);
    var s := Encode(JObj(members)) + rest;
    assert s == "{" + e + "}" + rest;
    EncodeMembersFirst(members);
  }

  lemma ParseValueObject(s: string, members: seq<Member>, rest: string)
    requires |s| >= 2 && s[0] == '{' && s[1] != '}'
    requires ParseMembers(s[1..]) == Some((members, rest))
    ensures ParseValue(s) == Some((JObj(members), rest))
  {
    assert !StartsWith(s[1..], "}") by { assert s[1..][..1] == [s[1]]; }
  }

  lemma {:induction false} ParseItemsEncode(items: seq<Value>, rest: string)
    requires |items| > 0
    ensures ParseItems(EncodeItems(items) + "]" + rest) == Some((items, rest))
    decreases items, 0
  {
    var s := EncodeItems(items) + "]" + rest;
    if |items| == 1 {
      assert s == Encode(items[0]) + ("]" + rest);
      ParseEncode(items[0], "]" + rest);
      assert ("]" + rest)[1..] == rest;
      assert [items[0]] == items;
    } else {
      var tail := EncodeItems(items[1..]) + "]" + rest;
      assert s == Encode(items[0]) + ("," + tail);
      ParseEncode(items[0], "," + tail);
      assert ("," + tail)[1..] == tail;
      ParseItemsEncode(items[1..], rest);
      assert [items[0]] + items[1..] == items;
    }
  }

  lemma {:induction false} ParseMembersEncode(members: seq<Member>, rest: string)
    requires |members| > 0
    ensures ParseMembers(EncodeMembers(members) + "}" + rest) == Some((members, rest))
    decreases members, 0
  {
    var m := members[0];
    var others := if |members| == 1 then "" else "," + EncodeMembers(members[1..]);
    var after := others + "}" + rest;
    var s := EncodeMembers(members) + "}" + rest;
    assert s == EncodeMember(m) + after;
    ParseMemberPrefix(m, after);
    if |members| == 1 {
      assert after == "}" + rest;
      ParseMembersLast(s, m, after);
      assert [m] == members;
    } else {
      var tail := EncodeMembers(members[1..]) + "}" + rest;
      assert after == "," + tail;
      ParseMembersEncode(members[1..], rest);
      ParseMembersNext(s, m, after, members[1..], rest);
      assert [m] + members[1..] == members;
    }
  }

  /** `ParseMembers` on text that starts with the pair `m` followed by `}`. */
  lemma ParseMembersLast(s: string, m: Member, after: string)
    requires StartsWith(s, "\"")
    requires ParseStringBody(s[1..]) == Some((m.key, ":" + Encode(m.value) + after))
    requires ParseValue((":" + Encode(m.value) + after)[1..]) == Some((m.value, after))
    requires |after| > 0 && after[0] == '}'
    ensures ParseMembers(s) == Some(([m], after[1..]))
  {
    assert StartsWith(":" + Encode(m.value) + after, ":");
    assert StartsWith(after, "}") by { assert after[..1] == [after[0]]; }
  }

  /** `ParseMembers` on text that starts with the pair `m` followed by `,` and more members. */
  lemma ParseMembersNext(s: string, m: Member, after: string, more: seq<Member>, rest: string)
    requires StartsWith(s, "\"")
    requires ParseStringBody(s[1..]) == Some((m.key, ":" + Encode(m.value) + after))
    requires ParseValue((":" + Encode(m.value) + after)[1..]) == Some((m.value, after))
    requires |after| > 0 && after[0] == ','
    requires ParseMembers(after[1..]) == Some((more, rest))
    ensures ParseMembers(s) == Some(([m] + more, rest))
  {
    assert StartsWith(":" + Encode(m.value) + after, ":");
    assert !StartsWith(after, "}") && StartsWith(after, ",") by { assert after[..1] == [after[0]]; }
  }

  /** The part of ParseMembers that reads one `"key":value` pair. */
  lemma ParseMemberPrefix(m: Member, after: string)
    ensures var s := EncodeMember(m) + after;
      && StartsWith(s, "\"")
      && ParseStringBody(s[1..]) == Some((m.key, ":" + Encode(m.value) + after))
      && ParseValue((":" + Encode(m.value) + after)[1..]) == Some((m.value, after))
  {
    var afterKey := ":" + Encode(m.value) + after;
    ParseKeyPrefix(m.key, afterKey, EncodeMember(m) + after);
    assert afterKey[1..] == Encode(m.value) + after;
    ParseEncode(m.value, after);
  }

  lemma ParseKeyPrefix(key: string, afterKey: string, s: string)
    requires s == "\"" + Escape(key) + "\"" + afterKey
    ensures StartsWith(s, "\"") && ParseStringBody(s[1..]) == Some((key, afterKey))
  {
    assert s[1..] == Escape(key) + "\"" + afterKey;
    ParseStringBodyEscape(key, afterKey);
  }

  lemma EncodeMembersFirst(members: seq<Member>)
    requires |members| > 0
    ensures |EncodeMembers(members)| > 0 && EncodeMembers(members)[0] == '"'
  {
    var m := members[0];
    assert EncodeMember(m) == "\"" + (Escape(m.key) + "\"" + ":" + Encode(m.value));
  }

  /** Decoding inverts encoding. */
  lemma DecodeEncode(v: Value)
    ensures Decode(Encode(v)) == Some(v)
  {
    ParseEncode(v, "");
    assert Encode(v) + "" == Encode(v);
  }

  /** Different values have different encodings. */
  lemma EncodeInjective(v: Value, w: Value)
    ensures Encode(v) == Encode(w) <==> v == w
  {
    DecodeEncode(v);
    DecodeEncode(w);
  }

  /** No value encodes to the empty string, so a set payload is never mistaken for an unset one. */
  lemma EncodeNonEmpty(v: Value)
    ensures Encode(v) != ""
  {
    EncodeFirst(v);
  }

  /** The text `{}` is the encoding of the empty object and of nothing else. */
  lemma EncodeIsEmptyObject(v: Value)
    ensures Encode(v) == "{}" <==> v == EmptyObject
  {
    EncodeFirst(v);
    if v.JObj? && |v.members| > 0 {
      EncodeMembersFirst(v.members);
    }
  }
}
