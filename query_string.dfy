/**
 * `lib/utils.ts`: `buildQueryString` turns an ordered record of parameters
 * into a query string; `buildQueryStringFromSearchParams` first gathers URL
 * search parameters into such a record, grouping repeated names into arrays.
 */
module QueryString {
  import opened Wrappers
  import opened Text
  import opened UriComponent
  import FetchApi

  /** The parameter values the builder distinguishes. Numbers are integer-valued. */
  datatype Value = Null | Undefined | Str(s: string) | Num(n: int) | Bool(b: bool) | Arr(items: seq<Value>)

  /** A record's entries in order, as `Object.entries` yields them. */
  type Params = seq<(string, Value)>

  /** `String(value)`. */
  function ToStr(v: Value): string
    decreases v
  {
    match v
    case Null => "null"
    case Undefined => "undefined"
    case Str(s) => s
    case Num(n) => IntToString(n)
    case Bool(b) => if b then "true" else "false"
    case Arr(items) => JoinItems(items)
  }

  /** `items.join(',')`: `null` and `undefined` elements give the empty string. */
  function JoinItems(items: seq<Value>): string
    decreases items
  {
    if items == [] then ""
    else
      var first := if items[0].Null? || items[0].Undefined? then "" else ToStr(items[0]);
      if |items| == 1 then first else first + "," + JoinItems(items[1..])
  }

  /** The values `filterEmpty` drops: `null`, `undefined`, `''` and the empty array. */
  predicate IsEmpty(v: Value) {
    v.Null? || v.Undefined? || v == Str("") || v == Arr([])
  }

  /** The `filterEmpty` filter: the entries whose value is not empty, in order. */
  function Kept(params: Params): Params
  {
    if params == [] then []
    else if IsEmpty(params[0].1) then Kept(params[1..])
    else [params[0]] + Kept(params[1..])
  }

  /** `filterEmpty` drops exactly the empty values and keeps everything else, `0` and `false` included. */
  lemma {:induction false} KeptExactly(params: Params)
    ensures forall e :: e in Kept(params) <==> e in params && !IsEmpty(e.1)
  {
    if params != [] {
      KeptExactly(params[1..]);
    }
  }

  function Enc(encode: bool, s: string): string {
    if encode then EncodeUriComponent(s) else s
  }

  /** One `name=value` pair, each side encoded when `encode` holds. */
  function PairText(encode: bool, name: string, value: string): string {
    Enc(encode, name) + "=" + Enc(encode, value)
  }

  /** An array entry: one `key[]=item` pair per element. */
  function ItemTexts(encode: bool, key: string, items: seq<Value>): (r: seq<string>)
    ensures |r| == |items|
  {
    seq(|items|, i requires 0 <= i < |items| => PairText(encode, key + "[]", ToStr(items[i])))
  }

  /** The `queryEntries.map` callback: the text of one entry. */
  function EntryText(encode: bool, key: string, value: Value): string {
    if value.Arr? then Join(ItemTexts(encode, key, value.items), "&")
    else PairText(encode, key, ToStr(value))
  }

  function EntryTexts(encode: bool, entries: Params): (r: seq<string>)
    ensures |r| == |entries|
  {
    seq(|entries|, i requires 0 <= i < |entries| => EntryText(encode, entries[i].0, entries[i].1))
  }

  /** `buildQueryString(params, { encode, includeQuestionMark, filterEmpty })`, with the source's defaults. */
  function BuildQueryString(params: Params, encode: bool := true, includeQuestionMark: bool := true,
                            filterEmpty: bool := true): (r: string)
    ensures var entries := if filterEmpty then Kept(params) else params;
      && (entries == [] ==> r == "")
      && (entries != [] && includeQuestionMark ==> r != "" && r[0] == '?')
  {
    var entries := if filterEmpty then Kept(params) else params;
    if |entries| == 0 then ""
    else
      var queryString := Join(EntryTexts(encode, entries), "&");
      if includeQuestionMark then "?" + queryString else queryString
  }

  // ----- what a query string says -----

  /** The name/value pairs one entry stands for: one `key[]` pair per array element, else `key` and `String(value)`. */
  function EntryPairs(key: string, value: Value): seq<(string, string)> {
    if value.Arr? then ItemPairs(key, value.items) else [(key, ToStr(value))]
  }

  /** The name/value pairs the entries stand for, in order. */
  function Serialized(entries: Params): seq<(string, string)>
  {
    if entries == [] then []
    else EntryPairs(entries[0].0, entries[0].1) + Serialized(entries[1..])
  }

  /** One `&`-separated segment: the name before the first `=`, the value after it, both decoded. */
  function DecodePair(segment: string): Option<(string, string)> {
    var (name, value) := if '=' in segment then
                           var i := IndexOf(segment, '=');
                           (segment[..i], segment[i + 1..])
                         else (segment, "");
    match (DecodeUriComponent(name), DecodeUriComponent(value))
    case (Some(n), Some(v)) => Some((n, v))
    case _ => None
  }

  /** The pairs of a list of segments; empty segments stand for nothing. */
  function DecodeSegments(segments: seq<string>): Option<seq<(string, string)>> {
    if segments == [] then Some([])
    else
      var rest := DecodeSegments(segments[1..]);
      if segments[0] == "" then rest
      else match (DecodePair(segments[0]), rest)
           case (Some(p), Some(ps)) => Some([p] + ps)
           case _ => None
  }

  /** Reads a query string back into its pairs: an optional leading `?`, then `&`-separated segments. */
  function DecodeQuery(q: string): Option<seq<(string, string)>> {
    var body := if q != "" && q[0] == '?' then q[1..] else q;
    DecodeSegments(Split(body, '&'))
  }

  // ----- the round trip -----

  /** The segments one entry produces: its pair texts, or one empty segment for an empty array. */
  function EntrySegments(encode: bool, key: string, value: Value): seq<string> {
    if value.Arr? then (if value.items == [] then [""] else ItemTexts(encode, key, value.items))
    else [PairText(encode, key, ToStr(value))]
  }

  /** The segments the entries produce, in order. */
  function Segments(encode: bool, entries: Params): seq<string>
  {
    if entries == [] then []
    else EntrySegments(encode, entries[0].0, entries[0].1) + Segments(encode, entries[1..])
  }

  lemma EntrySegmentsJoin(encode: bool, key: string, value: Value)
    ensures EntrySegments(encode, key, value) != []
    ensures Join(EntrySegments(encode, key, value), "&") == EntryText(encode, key, value)
  {
  }

  lemma {:induction false} JoinEntryTexts(encode: bool, entries: Params)
    requires entries != []
    ensures Segments(encode, entries) != []
    ensures Join(EntryTexts(encode, entries), "&") == Join(Segments(encode, entries), "&")
  {
    var (key, value) := entries[0];
    var first := EntrySegments(encode, key, value);
    assert Segments(encode, entries) == first + Segments(encode, entries[1..]);
    EntrySegmentsJoin(encode, key, value);
    if |entries| > 1 {
      var texts, rest := EntryTexts(encode, entries), EntryTexts(encode, entries[1..]);
      JoinEntryTexts(encode, entries[1..]);
      assert texts[1..] == rest;
      assert Join(texts, "&") == EntryText(encode, key, value) + "&" + Join(rest, "&");
      JoinAppend(first, Segments(encode, entries[1..]), "&");
    } else {
      assert Segments(encode, entries[1..]) == [];
      assert first + [] == first;
    }
  }

  /** The first `=` of `n=v` is the one after `n` when `n` holds none. */
  lemma SplitAtFirstEquals(n: string, v: string)
    requires '=' !in n
    ensures var seg := n + ("=" + v);
      '=' in seg && seg[..IndexOf(seg, '=')] == n && seg[IndexOf(seg, '=') + 1..] == v
  {
    IndexOfAppend(n, "=" + v, '=');
    var seg := n + ("=" + v);
    assert seg[..|n|] == n && seg[|n| + 1..] == v;
  }

  lemma EncodedPairDecodes(name: string, value: string)
    ensures DecodePair(PairText(true, name, value)) == Some((name, value))
    ensures '&' !in PairText(true, name, value)
  {
    var n, v := EncodeUriComponent(name), EncodeUriComponent(value);
    EncodeAlphabet(name);
    EncodeAlphabet(value);
    assert PairText(true, name, value) == n + ("=" + v);
    SplitAtFirstEquals(n, v);
    DecodeEncode(name);
    DecodeEncode(value);
  }

  lemma {:induction false} DecodeSegmentsAppend(a: seq<string>, b: seq<string>, x: seq<(string, string)>, y: seq<(string, string)>)
    requires DecodeSegments(a) == Some(x) && DecodeSegments(b) == Some(y)
    ensures DecodeSegments(a + b) == Some(x + y)
  {
    if a != [] {
      assert (a + b)[1..] == a[1..] + b;
      if a[0] == "" {
        DecodeSegmentsAppend(a[1..], b, x, y);
      } else {
        var p := DecodePair(a[0]).value;
        var xs := DecodeSegments(a[1..]).value;
        assert x == [p] + xs;
        DecodeSegmentsAppend(a[1..], b, xs, y);
        assert x + y == [p] + (xs + y);
      }
    } else {
      assert a + b == b;
      assert x + y == y;
    }
  }

  /** The pairs an array value stands for: `key[]` with each element's text. */
  function ItemPairs(key: string, items: seq<Value>): (r: seq<(string, string)>)
    ensures |r| == |items|
  {
    seq(|items|, i requires 0 <= i < |items| => (key + "[]", ToStr(items[i])))
  }

  lemma ItemsCons(key: string, items: seq<Value>)
    requires items != []
    ensures ItemTexts(true, key, items) == [PairText(true, key + "[]", ToStr(items[0]))] + ItemTexts(true, key, items[1..])
    ensures ItemPairs(key, items) == [(key + "[]", ToStr(items[0]))] + ItemPairs(key, items[1..])
  {
  }

  lemma {:induction false} ItemTextsDecode(key: string, items: seq<Value>)
    ensures DecodeSegments(ItemTexts(true, key, items)) == Some(ItemPairs(key, items))
  {
    if items != [] {
      ItemTextsDecode(key, items[1..]);
      EncodedPairDecodes(key + "[]", ToStr(items[0]));
      ItemsCons(key, items);
    }
  }

  lemma ItemTextsNoAmpersand(key: string, items: seq<Value>)
    ensures forall i :: 0 <= i < |items| ==> '&' !in ItemTexts(true, key, items)[i]
  {
    forall i | 0 <= i < |items| ensures '&' !in ItemTexts(true, key, items)[i] {
      EncodedPairDecodes(key + "[]", ToStr(items[i]));
    }
  }

  /** One entry's segments decode to its pairs and contain no `&`. */
  lemma EntrySegmentsDecode(key: string, value: Value)
    ensures DecodeSegments(EntrySegments(true, key, value)) == Some(EntryPairs(key, value))
    ensures forall i :: 0 <= i < |EntrySegments(true, key, value)| ==> '&' !in EntrySegments(true, key, value)[i]
  {
    var first := EntrySegments(true, key, value);
    if value.Arr? {
      ItemTextsDecode(key, value.items);
      ItemTextsNoAmpersand(key, value.items);
      if value.items == [] {
        assert first[1..] == [];
        assert EntryPairs(key, value) == [];
      }
    } else {
      EncodedPairDecodes(key, ToStr(value));
      assert first[1..] == [];
      assert DecodeSegments(first[1..]) == Some([]);
      assert first[0] != "" by {
        assert '=' in first[0];
      }
      assert [EntryPairs(key, value)[0]] + [] == EntryPairs(key, value);
    }
  }

  lemma {:induction false} SegmentsDecode(entries: Params)
    ensures DecodeSegments(Segments(true, entries)) == Some(Serialized(entries))
    ensures forall i :: 0 <= i < |Segments(true, entries)| ==> '&' !in Segments(true, entries)[i]
  {
    if entries != [] {
      var (key, value) := entries[0];
      SegmentsDecode(entries[1..]);
      EntrySegmentsDecode(key, value);
      var first := EntrySegments(true, key, value);
      var rest := Segments(true, entries[1..]);
      DecodeSegmentsAppend(first, rest, EntryPairs(key, value), Serialized(entries[1..]));
      var all := Segments(true, entries);
      assert all == first + rest;
      forall i | 0 <= i < |all| ensures '&' !in all[i] {
        if i < |first| {
          assert all[i] == first[i];
        } else {
          assert all[i] == rest[i - |first|];
        }
      }
    }
  }

  /** An encoded pair never starts with `?`: its name encodes to URI characters, then comes `=`. */
  lemma PairTextLead(name: string, value: string)
    ensures PairText(true, name, value) != [] && PairText(true, name, value)[0] != '?'
  {
    var n := EncodeUriComponent(name);
    assert PairText(true, name, value) == n + ("=" + EncodeUriComponent(value));
    if name != [] {
      EncodeHead(name);
      assert !Unescaped('?');
    }
  }

  lemma EntryLead(key: string, value: Value)
    ensures var f := EntrySegments(true, key, value); f != [] && (f[0] == "" || f[0][0] != '?')
  {
    if value.Arr? && value.items != [] {
      PairTextLead(key + "[]", ToStr(value.items[0]));
    } else if !value.Arr? {
      PairTextLead(key, ToStr(value));
    }
  }

  lemma JoinHead(parts: seq<string>, sep: string)
    requires parts != []
    ensures Join(parts, sep) == parts[0] + (if |parts| == 1 then "" else sep + Join(parts[1..], sep))
  {
  }

  lemma {:induction false} NoQuestionMarkLead(entries: Params)
    requires entries != []
    ensures var s := Join(Segments(true, entries), "&"); s == "" || s[0] != '?'
  {
    var segs := Segments(true, entries);
    var first := EntrySegments(true, entries[0].0, entries[0].1);
    EntryLead(entries[0].0, entries[0].1);
    assert segs[0] == first[0];
    JoinHead(segs, "&");
  }

  /**
   * With encoding on, the query string reads back as exactly the kept
   * entries' pairs, in order: arrays as repeated `key[]` pairs, every other
   * value as `String(value)`.
   */
  lemma RoundTrip(params: Params, includeQuestionMark: bool, filterEmpty: bool)
    ensures DecodeQuery(BuildQueryString(params, true, includeQuestionMark, filterEmpty))
            == Some(Serialized(if filterEmpty then Kept(params) else params))
  {
    var entries := if filterEmpty then Kept(params) else params;
    var q := BuildQueryString(params, true, includeQuestionMark, filterEmpty);
    if entries == [] {
      assert q == "";
      assert Split("", '&') == [""];
      assert DecodeSegments([""]) == DecodeSegments([]);
    } else {
      JoinEntryTexts(true, entries);
      SegmentsDecode(entries);
      var segs := Segments(true, entries);
      var body := Join(segs, "&");
      NoQuestionMarkLead(entries);
      assert q == if includeQuestionMark then "?" + body else body;
      assert (if q != "" && q[0] == '?' then q[1..] else q) == body;
      SplitJoin(segs, '&');
    }
  }

  // ----- the exact text -----

  /** The `name=value` texts of pairs, each side encoded when `encode` holds. */
  function PairTexts(encode: bool, pairs: seq<(string, string)>): (r: seq<string>)
    ensures |r| == |pairs|
  {
    seq(|pairs|, i requires 0 <= i < |pairs| => PairText(encode, pairs[i].0, pairs[i].1))
  }

  predicate NoEmptyArray(entries: Params) {
    forall i :: 0 <= i < |entries| ==> entries[i].1 != Arr([])
  }

  /**
   * The segments of the result: each entry's pairs as `name=value` texts,
   * and one empty segment for an empty array, which has no pairs.
   */
  function PairSegments(encode: bool, entries: Params): seq<string>
  {
    if entries == [] then []
    else
      (if entries[0].1 == Arr([]) then [""] else PairTexts(encode, EntryPairs(entries[0].0, entries[0].1)))
      + PairSegments(encode, entries[1..])
  }

  lemma PairTextsAppend(encode: bool, a: seq<(string, string)>, b: seq<(string, string)>)
    ensures PairTexts(encode, a + b) == PairTexts(encode, a) + PairTexts(encode, b)
  {
  }

  lemma EntrySegmentsArePairTexts(encode: bool, key: string, value: Value)
    ensures EntrySegments(encode, key, value) ==
            if value == Arr([]) then [""] else PairTexts(encode, EntryPairs(key, value))
  {
    if value.Arr? && value.items != [] {
      var texts, pairs := ItemTexts(encode, key, value.items), ItemPairs(key, value.items);
      assert forall i :: 0 <= i < |texts| ==> texts[i] == PairText(encode, pairs[i].0, pairs[i].1);
    }
  }

  lemma {:induction false} SegmentsArePairTexts(encode: bool, entries: Params)
    ensures Segments(encode, entries) == PairSegments(encode, entries)
  {
    if entries != [] {
      SegmentsArePairTexts(encode, entries[1..]);
      EntrySegmentsArePairTexts(encode, entries[0].0, entries[0].1);
    }
  }

  lemma {:induction false} PairSegmentsArePairTexts(encode: bool, entries: Params)
    requires NoEmptyArray(entries)
    ensures PairSegments(encode, entries) == PairTexts(encode, Serialized(entries))
  {
    if entries != [] {
      assert NoEmptyArray(entries[1..]) by {
        forall i | 0 <= i < |entries[1..]| ensures entries[1..][i].1 != Arr([]) {
          assert entries[1..][i] == entries[i + 1];
        }
      }
      PairSegmentsArePairTexts(encode, entries[1..]);
      PairTextsAppend(encode, EntryPairs(entries[0].0, entries[0].1), Serialized(entries[1..]));
      assert entries[0].1 != Arr([]);
    }
  }

  /**
   * The exact text for either setting of `encode`: the optional `?`, then
   * every pair as `name=value` in order, each side (a key with its `[]`
   * suffix included) through encodeURIComponent when `encode` holds,
   * joined by `&`; an empty array, which only survives without
   * `filterEmpty`, leaves an empty segment. Without empty arrays the
   * segments are exactly the texts of the pairs the entries stand for.
   */
  lemma ExactText(params: Params, encode: bool, includeQuestionMark: bool, filterEmpty: bool)
    ensures var entries := if filterEmpty then Kept(params) else params;
      BuildQueryString(params, encode, includeQuestionMark, filterEmpty) ==
        if entries == [] then ""
        else (if includeQuestionMark then "?" else "") + Join(PairSegments(encode, entries), "&")
    ensures var entries := if filterEmpty then Kept(params) else params;
      NoEmptyArray(entries) ==> PairSegments(encode, entries) == PairTexts(encode, Serialized(entries))
  {
    var entries := if filterEmpty then Kept(params) else params;
    if entries != [] {
      JoinEntryTexts(encode, entries);
      SegmentsArePairTexts(encode, entries);
    }
    if NoEmptyArray(entries) {
      PairSegmentsArePairTexts(encode, entries);
    }
  }

  /**
   * With encoding on, the result starts with `?` exactly when there are
   * entries and `includeQuestionMark` holds: an encoded pair never starts
   * with `?`.
   */
  lemma EncodedLead(params: Params, includeQuestionMark: bool, filterEmpty: bool)
    ensures var entries := if filterEmpty then Kept(params) else params;
      var r := BuildQueryString(params, true, includeQuestionMark, filterEmpty);
      entries != [] ==> (r != "" && r[0] == '?' <==> includeQuestionMark)
  {
    var entries := if filterEmpty then Kept(params) else params;
    if entries != [] {
      JoinEntryTexts(true, entries);
      NoQuestionMarkLead(entries);
    }
  }

  /** Without `filterEmpty`, an empty array is written as an empty segment. */
  lemma EmptyArrayEmptySegment()
    ensures BuildQueryString([("a", Num(1)), ("b", Arr([]))], false, true, false) == "?a=1&"
  {
    var entries := [("a", Num(1)), ("b", Arr([]))];
    assert ToStr(Num(1)) == "1" by {
      assert NatToString(1) == [DigitChar(1)];
    }
    assert EntryText(false, "a", Num(1)) == "a=1";
    assert EntryText(false, "b", Arr([])) == "";
    assert EntryTexts(false, entries) == ["a=1", ""];
    assert Join(["a=1", ""], "&") == "a=1" + "&" + Join([""], "&");
  }

  lemma EncodeOpenBracket()
    ensures EncodeChar('[') == "%5B"
  {
    assert Utf8('[') == [0x5B];
    assert EscapeAll([0x5B]) == Escape(0x5B) + EscapeAll([]);
  }

  lemma EncodeCloseBracket()
    ensures EncodeChar(']') == "%5D"
  {
    assert Utf8(']') == [0x5D];
    assert EscapeAll([0x5D]) == Escape(0x5D) + EscapeAll([]);
  }

  lemma EncodeBrackets()
    ensures EncodeUriComponent("[]") == "%5B%5D"
  {
    EncodeOpenBracket();
    EncodeCloseBracket();
    assert EncodeUriComponent("]") == EncodeChar(']') + EncodeUriComponent([]);
    assert EncodeUriComponent("[]") == EncodeChar('[') + EncodeUriComponent("]");
  }

  lemma EncodedBracketPair()
    ensures EntryTexts(true, [("a", Arr([Str("1")]))]) == ["a%5B%5D=1"]
  {
    EncodeBrackets();
    assert EncodeUriComponent("a[]") == EncodeChar('a') + EncodeUriComponent("[]");
    assert EncodeUriComponent("1") == EncodeChar('1') + EncodeUriComponent([]);
    assert PairText(true, "a[]", "1") == "a%5B%5D=1";
    assert ItemTexts(true, "a", [Str("1")]) == ["a%5B%5D=1"];
  }

  /** With the defaults, an array key's `[]` suffix is percent-encoded with it. */
  lemma EncodedArrayKey()
    ensures BuildQueryString([("a", Arr([Str("1")]))]) == "?a%5B%5D=1"
  {
    var params := [("a", Arr([Str("1")]))];
    assert Kept(params) == params;
    EncodedBracketPair();
    assert Join(["a%5B%5D=1"], "&") == "a%5B%5D=1";
  }

  // ----- buildQueryStringFromSearchParams -----

  function Keys(params: Params): (r: seq<string>)
    ensures |r| == |params|
  {
    if params == [] then [] else [params[0].0] + Keys(params[1..])
  }

  lemma {:induction false} KeysSnoc(params: Params, e: (string, Value))
    ensures Keys(params + [e]) == Keys(params) + [e.0]
  {
    if params != [] {
      assert (params + [e])[1..] == params[1..] + [e];
      KeysSnoc(params[1..], e);
    }
  }

  /** `key in params` and `params[key]` on a record with own properties only. */
  function Get(params: Params, key: string): (r: Option<Value>)
    ensures r.Some? <==> key in Keys(params)
    ensures r.Some? ==> (key, r.value) in params
  {
    if params == [] then None
    else if params[0].0 == key then Some(params[0].1)
    else Get(params[1..], key)
  }

  /** `params[key] = value`: an existing property keeps its place, a new one goes last. */
  function Put(params: Params, key: string, value: Value): (r: Params)
    ensures Get(r, key) == Some(value)
    ensures forall k :: k != key ==> Get(r, k) == Get(params, k)
  {
    if params == [] then [(key, value)]
    else if params[0].0 == key then [(key, value)] + params[1..]
    else [params[0]] + Put(params[1..], key, value)
  }

  lemma {:induction false} PutKeys(params: Params, key: string, value: Value)
    ensures Keys(Put(params, key, value)) == if key in Keys(params) then Keys(params) else Keys(params) + [key]
  {
    if params != [] {
      if params[0].0 != key {
        PutKeys(params[1..], key, value);
        assert ([params[0]] + Put(params[1..], key, value))[1..] == Put(params[1..], key, value);
      } else {
        assert ([(key, value)] + params[1..])[1..] == params[1..];
      }
    }
  }

  lemma PutKeepsNoDup(params: Params, key: string, value: Value)
    requires NoDup(Keys(params))
    ensures NoDup(Keys(Put(params, key, value)))
    ensures forall k :: k in Keys(Put(params, key, value)) <==> k in Keys(params) || k == key
  {
    PutKeys(params, key, value);
  }

  /**
   * The record the `searchParams.forEach` loop has built after visiting
   * `searchParams`: an excluded name is skipped, a new name gets its value,
   * a second value turns the entry into a two-element array and later
   * values are pushed onto that array.
   */
  function Group(searchParams: FetchApi.Pairs, excludeParams: seq<string>): Params
    decreases |searchParams|
  {
    if searchParams == [] then []
    else
      var params := Group(searchParams[..|searchParams| - 1], excludeParams);
      var (key, value) := searchParams[|searchParams| - 1];
      if key in excludeParams then params
      else Put(params, key, Added(Get(params, key), value))
  }

  /** The `key in params` branches: the value a name holds once `value` arrives, given what it held before. */
  function Added(existing: Option<Value>, value: string): Value {
    match existing
    case None => Str(value)
    case Some(Arr(items)) => Arr(items + [Str(value)])
    case Some(v) => Arr([v, Str(value)])
  }

  /** `Object.assign(params, mergeParams)`: each merged entry in order, as an assignment. */
  function Assign(params: Params, mergeParams: Params): Params
    decreases |mergeParams|
  {
    if mergeParams == [] then params
    else
      var (key, value) := mergeParams[|mergeParams| - 1];
      Put(Assign(params, mergeParams[..|mergeParams| - 1]), key, value)
  }

  /** `buildQueryStringFromSearchParams`, with an absent option given as the empty sequence. */
  method BuildQueryStringFromSearchParams(searchParams: FetchApi.Pairs, mergeParams: Params, excludeParams: seq<string>)
    returns (s: string)
    ensures s == BuildQueryString(Assign(Group(searchParams, excludeParams), mergeParams))
  {
    var params: Params := [];
    for i := 0 to |searchParams|
      invariant params == Group(searchParams[..i], excludeParams)
    {
      var (key, value) := searchParams[i];
      assert searchParams[..i + 1][..i] == searchParams[..i];
      if key in excludeParams {
        continue;
      }
      var existing := Get(params, key);
      if existing.Some? {
        if existing.value.Arr? {
          params := Put(params, key, Arr(existing.value.items + [Str(value)]));
        } else {
          params := Put(params, key, Arr([existing.value, Str(value)]));
        }
      } else {
        params := Put(params, key, Str(value));
      }
    }
    assert searchParams[..|searchParams|] == searchParams;
    for i := 0 to |mergeParams|
      invariant params == Assign(Group(searchParams, excludeParams), mergeParams[..i])
    {
      assert mergeParams[..i + 1][..i] == mergeParams[..i];
      params := Put(params, mergeParams[i].0, mergeParams[i].1);
    }
    assert mergeParams[..|mergeParams|] == mergeParams;
    s := BuildQueryString(params);
  }

  // ----- what grouping and merging mean -----

  /** The values `searchParams` carries for `key`, in order. */
  function ValuesFor(searchParams: FetchApi.Pairs, key: string): seq<string>
  {
    if searchParams == [] then []
    else
      var p := searchParams[0];
      (if p.0 == key then [p.1] else []) + ValuesFor(searchParams[1..], key)
  }

  lemma {:induction false} ValuesForSnoc(searchParams: FetchApi.Pairs, p: (string, string), key: string)
    ensures ValuesFor(searchParams + [p], key) == ValuesFor(searchParams, key) + (if p.0 == key then [p.1] else [])
  {
    if searchParams == [] {
      assert [p][1..] == [];
    } else {
      assert (searchParams + [p])[1..] == searchParams[1..] + [p];
      ValuesForSnoc(searchParams[1..], p, key);
    }
  }

  /** One value stays a string; several become an array of strings in arrival order. */
  function Grouped(values: seq<string>): Value
    requires values != []
  {
    if |values| == 1 then Str(values[0])
    else Arr(seq(|values|, i requires 0 <= i < |values| => Str(values[i])))
  }

  /**
   * After the loop, an excluded or absent name has no entry; any other name
   * holds its single value, or all of its values in order as an array.
   */
  lemma {:induction false} GroupValue(searchParams: FetchApi.Pairs, excludeParams: seq<string>, key: string)
    ensures Get(Group(searchParams, excludeParams), key) ==
              if key in excludeParams || ValuesFor(searchParams, key) == [] then None
              else Some(Grouped(ValuesFor(searchParams, key)))
  {
    if searchParams != [] {
      var init := searchParams[..|searchParams| - 1];
      var p := searchParams[|searchParams| - 1];
      assert searchParams == init + [p];
      GroupValue(init, excludeParams, key);
      ValuesForSnoc(init, p, key);
      var params := Group(init, excludeParams);
      if p.0 !in excludeParams {
        assert Group(searchParams, excludeParams) == Put(params, p.0, Added(Get(params, p.0), p.1));
        if p.0 == key {
          AddedGrouped(ValuesFor(init, key), p.1);
        } else {
          assert ValuesFor(init, key) + [] == ValuesFor(init, key);
        }
      } else {
        assert ValuesFor(init, key) + [] == ValuesFor(init, key);
      }
    }
  }

  /** One more value for a name: a string becomes a pair, an array grows by one. */
  lemma AddedGrouped(before: seq<string>, value: string)
    ensures Added(if before == [] then None else Some(Grouped(before)), value) == Grouped(before + [value])
  {
    var vs := before + [value];
    if before == [] {
      assert vs == [value];
    } else if |before| == 1 {
      assert Grouped(vs).items == [Grouped(before), Str(value)];
    } else {
      assert Grouped(vs).items == Grouped(before).items + [Str(value)];
    }
  }

  /** The grouped record has one entry per name that is not excluded, and no name twice. */
  lemma {:induction false} GroupKeys(searchParams: FetchApi.Pairs, excludeParams: seq<string>)
    ensures NoDup(Keys(Group(searchParams, excludeParams)))
    ensures forall key :: key in Keys(Group(searchParams, excludeParams)) <==>
              key !in excludeParams && key in FetchApi.Names(searchParams)
  {
    if searchParams != [] {
      var init := searchParams[..|searchParams| - 1];
      var p := searchParams[|searchParams| - 1];
      GroupKeys(init, excludeParams);
      var params := Group(init, excludeParams);
      assert FetchApi.Names(searchParams) == FetchApi.Names(init) + [p.0];
      if p.0 !in excludeParams {
        PutKeepsNoDup(params, p.0, Added(Get(params, p.0), p.1));
      }
    }
  }

  /** The value the last merged entry named `key` carries. */
  function LastValue(mergeParams: Params, key: string): Value
    requires key in Keys(mergeParams)
    decreases |mergeParams|
  {
    var last := mergeParams[|mergeParams| - 1];
    if last.0 == key then last.1
    else
      assert mergeParams == mergeParams[..|mergeParams| - 1] + [last];
      KeysSnoc(mergeParams[..|mergeParams| - 1], last);
      LastValue(mergeParams[..|mergeParams| - 1], key)
  }

  /** A merged name overrides whatever the search parameters gave it; other names keep theirs. */
  lemma {:induction false} AssignValue(params: Params, mergeParams: Params, key: string)
    ensures Get(Assign(params, mergeParams), key) ==
              if key in Keys(mergeParams) then Some(LastValue(mergeParams, key)) else Get(params, key)
  {
    if mergeParams != [] {
      var init := mergeParams[..|mergeParams| - 1];
      assert mergeParams == init + [mergeParams[|mergeParams| - 1]];
      KeysSnoc(init, mergeParams[|mergeParams| - 1]);
      AssignValue(params, init, key);
    }
  }

  /** An excluded name reaches the query string only through `mergeParams`. */
  lemma ExcludedUnlessMerged(searchParams: FetchApi.Pairs, mergeParams: Params, excludeParams: seq<string>, key: string)
    requires key in excludeParams && key !in Keys(mergeParams)
    ensures key !in Keys(Assign(Group(searchParams, excludeParams), mergeParams))
  {
    AssignValue(Group(searchParams, excludeParams), mergeParams, key);
    GroupValue(searchParams, excludeParams, key);
  }

  /** Exclusion applies to the search parameters only: a merged entry under an excluded name is kept. */
  lemma ExcludedNameMergedBack()
    ensures var params := Assign(Group([("token", "a")], ["token"]), [("token", Str("b"))]);
      Get(params, "token") == Some(Str("b"))
  {
    AssignValue(Group([("token", "a")], ["token"]), [("token", Str("b"))], "token");
  }
}
