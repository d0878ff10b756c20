/** The order of `sort.Strings`, and the one ascending listing of a finite set of keys. */
module KeyOrder {
  predicate Less(a: string, b: string) {
    |b| > 0 && (|a| == 0 || a[0] < b[0] || (a[0] == b[0] && Less(a[1..], b[1..])))
  }

  predicate Ascending(keys: seq<string>) {
    forall i, j :: 0 <= i < j < |keys| ==> Less(keys[i], keys[j])
  }

  lemma {:induction false} LessTransitive(a: string, b: string, c: string)
    requires Less(a, b) && Less(b, c)
    ensures Less(a, c)
  {
    if |a| > 0 && a[0] == b[0] == c[0] {
      LessTransitive(a[1..], b[1..], c[1..]);
    }
  }

  lemma {:induction false} LessTotal(a: string, b: string)
    ensures a == b || Less(a, b) || Less(b, a)
    ensures Less(a, b) ==> a != b && !Less(b, a)
  {
    if |a| > 0 && |b| > 0 && a[0] == b[0] {
      LessTotal(a[1..], b[1..]);
      assert a == [a[0]] + a[1..] && b == [b[0]] + b[1..];
    } else if a == [] && b == [] {
    } else if |a| > 0 && |b| > 0 {
      assert a[0] < b[0] || b[0] < a[0];
    }
  }

  predicate IsLeast(k: string, keys: set<string>) {
    k in keys && forall x :: x in keys && x != k ==> Less(k, x)
  }

  lemma {:induction false} LeastExists(keys: set<string>)
    requires keys != {}
    ensures exists k :: IsLeast(k, keys)
    decreases |keys|
  {
    var k :| k in keys;
    if keys == {k} {
      assert IsLeast(k, keys);
    } else {
      LeastExists(keys - {k});
      var other :| IsLeast(other, keys - {k});
      LessTotal(k, other);
      var least := if Less(k, other) then k else other;
      forall x | x in keys && x != least ensures Less(least, x) {
        if x != k && x != other && least == k {
          LessTransitive(k, other, x);
        }
      }
      assert IsLeast(least, keys);
    }
  }

  ghost function Least(keys: set<string>): (least: string)
    requires keys != {}
    ensures IsLeast(least, keys)
  {
    LeastExists(keys);
    var least :| IsLeast(least, keys);
    least
  }

  ghost function Sorted(keys: set<string>): (sorted: seq<string>)
    ensures Ascending(sorted)
    ensures forall k :: k in sorted <==> k in keys
    ensures |sorted| == |keys|
    decreases |keys|
  {
    if keys == {} then []
    else
      var least := Least(keys);
      var rest := Sorted(keys - {least});
      assert forall i :: 0 <= i < |rest| ==> rest[i] in rest && rest[i] != least;
      [least] + rest
  }

  lemma {:induction false} AscendingTail(keys: seq<string>, all: set<string>)
    requires keys != [] && Ascending(keys) && forall k :: k in keys <==> k in all
    ensures keys[0] in all && keys[0] == Least(all)
    ensures forall k :: k in keys[1..] <==> k in all - {keys[0]}
  {
    assert keys[0] in keys;
    var least := Least(all);
    assert least in keys;
    LessTotal(keys[0], least);
    assert forall i :: 0 < i < |keys| ==> Less(keys[0], keys[i]);
    forall k ensures k in keys[1..] <==> k in all - {keys[0]} {
      LessTotal(keys[0], k);
    }
  }

  /** An ascending listing is determined by what it lists. */
  lemma {:induction false} AscendingIsSorted(keys: seq<string>, all: set<string>)
    requires Ascending(keys) && forall k :: k in keys <==> k in all
    ensures keys == Sorted(all)
    decreases |keys|
  {
    if keys == [] {
      assert all == {};
    } else {
      AscendingTail(keys, all);
      AscendingIsSorted(keys[1..], all - {keys[0]});
    }
  }

  /** Sorts distinct keys by insertion. */
  method SortStrings(keys: seq<string>) returns (sorted: seq<string>)
    requires forall i, j :: 0 <= i < j < |keys| ==> keys[i] != keys[j]
    ensures Ascending(sorted)
    ensures forall k :: k in sorted <==> k in keys
  {
    sorted := [];
    for i := 0 to |keys|
      invariant Ascending(sorted)
      invariant forall k :: k in sorted <==> k in keys[..i]
    {
      var p := 0;
      while p < |sorted| && Less(sorted[p], keys[i])
        invariant 0 <= p <= |sorted|
        invariant forall j :: 0 <= j < p ==> Less(sorted[j], keys[i])
      {
        p := p + 1;
      }
      InsertKeepsOrder(sorted, p, keys[i]) by {
        assert keys[i] !in keys[..i];
      }
      assert keys[..i + 1] == keys[..i] + [keys[i]];
      sorted := sorted[..p] + [keys[i]] + sorted[p..];
    }
    assert keys[..|keys|] == keys;
  }

  lemma {:induction false} InsertKeepsOrder(keys: seq<string>, p: nat, k: string)
    requires Ascending(keys) && k !in keys && p <= |keys|
    requires forall j :: 0 <= j < p ==> Less(keys[j], k)
    requires p < |keys| ==> !Less(keys[p], k)
    ensures Ascending(keys[..p] + [k] + keys[p..])
    ensures forall x :: x in keys[..p] + [k] + keys[p..] <==> x == k || x in keys
  {
    var out := keys[..p] + [k] + keys[p..];
    forall j | p <= j < |keys| ensures Less(k, keys[j]) {
      LessTotal(k, keys[p]);
      if j > p {
        LessTransitive(k, keys[p], keys[j]);
      }
    }
    assert keys == keys[..p] + keys[p..];
  }
}

/** Canonical JSON text: the recursive printer that envelopes are hashed and signed over,
    and the reader that a receiver applies to it.

    A number is represented by the literal the encoder prints for it, so the decimal printer
    itself is not part of the model.  What reading does to a literal, namely decoding it into a
    float64 and printing that again, is the function parameter `norm`. */
module Canonical {
  import opened Wrappers
  import opened KeyOrder

  predicate NumberChar(c: char) {
    '0' <= c <= '9' || c == '-' || c == '+' || c == '.' || c == 'e' || c == 'E'
  }

  /** A run of number characters that starts like a number: every literal of section 6 of RFC 8259. */
  type NumLit = s: string |
    |s| > 0 && ('0' <= s[0] <= '9' || s[0] == '-') && forall i :: 0 <= i < |s| ==> NumberChar(s[i])
    witness "0"

  datatype Json =
    | Null
    | Bool(b: bool)
    | Num(lit: NumLit)
    | Str(s: string)
    | Arr(items: seq<Json>)
    | Obj(fields: map<string, Json>)

  // ---------------------------------------------------------------- printing

  function HexDigit(n: nat): char
    requires n < 16
  {
    "0123456789abcdef"[n]
  }

  /** One character as the encoder writes it inside a string. */
  function Escape(c: char): string {
    if c == '\"' then "\\\""
    else if c == '\\' then "\\\\"
    else if c as int == 8 then "\\b"
    else if c as int == 12 then "\\f"
    else if c == '\n' then "\\n"
    else if c == '\r' then "\\r"
    else if c == '\t' then "\\t"
    else if c as int < 0x20 || c == '<' || c == '>' || c == '&' then
      "\\u00" + [HexDigit(c as int / 16), HexDigit(c as int % 16)]
    else if c as int == 0x2028 then "\\u2028"
    else if c as int == 0x2029 then "\\u2029"
    else [c]
  }

  function EscapeAll(s: string): string {
    if s == "" then "" else Escape(s[0]) + EscapeAll(s[1..])
  }

  function Quote(s: string): string {
    "\"" + EscapeAll(s) + "\""
  }

  /** The text that is hashed and signed: members in ascending key order, no white space. */
  ghost function Canonicalize(v: Json): string
    decreases v
  {
    match v
    case Null => "null"
    case Bool(b) => if b then "true" else "false"
    case Num(lit) => lit
    case Str(s) => Quote(s)
    case Arr(items) => "[" + Items(items) + "]"
    case Obj(fields) => PrintObject(v, Sorted(fields.Keys))
  }

  ghost function Items(items: seq<Json>): string
    decreases items
  {
    if items == [] then ""
    else if |items| == 1 then Canonicalize(items[0])
    else Canonicalize(items[0]) + "," + Items(items[1..])
  }

  /** The object v with its members written in the order of keys. */
  ghost function PrintObject(v: Json, keys: seq<string>): string
    requires v.Obj? && forall k :: k in keys ==> k in v.fields
    decreases v, |keys| + 1
  {
    "{" + Members(v, keys) + "}"
  }

  ghost function Members(v: Json, keys: seq<string>): string
    requires v.Obj? && forall k :: k in keys ==> k in v.fields
    decreases v, |keys|
  {
    if keys == [] then ""
    else
      assert keys[0] in keys;
      var first := Quote(keys[0]) + ":" + Canonicalize(v.fields[keys[0]]);
      if |keys| == 1 then first else first + "," + Members(v, keys[1..])
  }

  // ----------------------------------------------------------------- reading

  datatype Parsed<+T> = Parsed(value: T, rest: string)

  function HexValue(c: char): (n: int)
    ensures n < 16
  {
    if '0' <= c <= '9' then c as int - '0' as int
    else if 'a' <= c <= 'f' then c as int - 'a' as int + 10
    else if 'A' <= c <= 'F' then c as int - 'A' as int + 10
    else -1
  }

  function ReadUnicode(s: string): Option<char>
    requires |s| >= 4
  {
    var a, b, c, d := HexValue(s[0]), HexValue(s[1]), HexValue(s[2]), HexValue(s[3]);
    if a < 0 || b < 0 || c < 0 || d < 0 then None
    else
      var code := ((a * 16 + b) * 16 + c) * 16 + d;
      if 0xD800 <= code < 0xE000 then None else Some(code as char)
  }

  function ReadEscape(s: string): (p: Option<Parsed<char>>)
    ensures p.Some? ==> |p.value.rest| < |s|
  {
    if s == "" then None
    else if s[0] == '\"' then Some(Parsed('\"', s[1..]))
    else if s[0] == '\\' then Some(Parsed('\\', s[1..]))
    else if s[0] == '/' then Some(Parsed('/', s[1..]))
    else if s[0] == 'b' then Some(Parsed(8 as char, s[1..]))
    else if s[0] == 'f' then Some(Parsed(12 as char, s[1..]))
    else if s[0] == 'n' then Some(Parsed('\n', s[1..]))
    else if s[0] == 'r' then Some(Parsed('\r', s[1..]))
    else if s[0] == 't' then Some(Parsed('\t', s[1..]))
    else if s[0] == 'u' && |s| >= 5 then
      match ReadUnicode(s[1..5])
      case None => None
      case Some(c) => Some(Parsed(c, s[5..]))
    else None
  }

  /** Reads the characters of a string up to and including its closing quote. */
  function ReadChars(s: string): (p: Option<Parsed<string>>)
    ensures p.Some? ==> |p.value.rest| < |s|
    decreases |s|
  {
    if s == "" || s[0] as int < 0x20 then None
    else if s[0] == '\"' then Some(Parsed("", s[1..]))
    else if s[0] == '\\' then
      match ReadEscape(s[1..])
      case None => None
      case Some(Parsed(c, rest)) =>
        match ReadChars(rest)
        case None => None
        case Some(Parsed(cs, rest')) => Some(Parsed([c] + cs, rest'))
    else
      match ReadChars(s[1..])
      case None => None
      case Some(Parsed(cs, rest)) => Some(Parsed([s[0]] + cs, rest))
  }

  /** The longest run of number characters at the front of s. */
  function NumberRun(s: string): (n: nat)
    ensures n <= |s| && forall i :: 0 <= i < n ==> NumberChar(s[i])
    ensures n < |s| ==> !NumberChar(s[n])
  {
    if s == "" || !NumberChar(s[0]) then 0 else 1 + NumberRun(s[1..])
  }

  function ReadValue(s: string, norm: NumLit -> NumLit): (p: Option<Parsed<Json>>)
    ensures p.Some? ==> |p.value.rest| < |s|
    decreases |s|, 1
  {
    if s == "" then None
    else if s[0] == '{' then
      if |s| > 1 && s[1] == '}' then Some(Parsed(Obj(map[]), s[2..])) else ReadMembers(s[1..], map[], norm)
    else if s[0] == '[' then
      if |s| > 1 && s[1] == ']' then Some(Parsed(Arr([]), s[2..])) else ReadItems(s[1..], [], norm)
    else if s[0] == '\"' then
      match ReadChars(s[1..])
      case None => None
      case Some(Parsed(cs, rest)) => Some(Parsed(Str(cs), rest))
    else if "null" <= s then Some(Parsed(Null, s[4..]))
    else if "true" <= s then Some(Parsed(Bool(true), s[4..]))
    else if "false" <= s then Some(Parsed(Bool(false), s[5..]))
    else if '0' <= s[0] <= '9' || s[0] == '-' then
      var n := NumberRun(s);
      Some(Parsed(Num(norm(s[..n])), s[n..]))
    else None
  }

  function ReadItems(s: string, acc: seq<Json>, norm: NumLit -> NumLit): (p: Option<Parsed<Json>>)
    ensures p.Some? ==> |p.value.rest| < |s|
    decreases |s|, 2
  {
    match ReadValue(s, norm)
    case None => None
    case Some(Parsed(v, rest)) =>
      if rest != "" && rest[0] == ']' then Some(Parsed(Arr(acc + [v]), rest[1..]))
      else if rest != "" && rest[0] == ',' then ReadItems(rest[1..], acc + [v], norm)
      else None
  }

  function ReadMembers(s: string, acc: map<string, Json>, norm: NumLit -> NumLit): (p: Option<Parsed<Json>>)
    ensures p.Some? ==> |p.value.rest| < |s|
    decreases |s|, 2
  {
    if s == "" || s[0] != '\"' then None
    else
      match ReadChars(s[1..])
      case None => None
      case Some(Parsed(k, rest)) =>
        if rest == "" || rest[0] != ':' then None
        else
          match ReadValue(rest[1..], norm)
          case None => None
          case Some(Parsed(v, rest')) =>
            if rest' != "" && rest'[0] == '}' then Some(Parsed(Obj(acc[k := v]), rest'[1..]))
            else if rest' != "" && rest'[0] == ',' then ReadMembers(rest'[1..], acc[k := v], norm)
            else None
  }

  /** Reads one whole text. */
  function Parse(s: string, norm: NumLit -> NumLit): Option<Json> {
    match ReadValue(s, norm)
    case Some(Parsed(v, rest)) => if rest == "" then Some(v) else None
    case None => None
  }

  /** What a value becomes when every number literal goes through norm. */
  ghost function Normalize(v: Json, norm: NumLit -> NumLit): Json
    decreases v
  {
    match v
    case Num(lit) => Num(norm(lit))
    case Arr(items) => Arr(seq(|items|, i requires 0 <= i < |items| => Normalize(items[i], norm)))
    case Obj(fields) => Obj(map k | k in fields :: Normalize(fields[k], norm))
    case _ => v
  }

  // ------------------------------------------------- printing is unambiguous

  lemma {:induction false} EscapeReads(c: char, rest: string)
    ensures Escape(c) != [] && Escape(c)[0] as int >= 0x20 && Escape(c)[0] != '\"'
    ensures Escape(c)[0] == '\\' ==> ReadEscape(Escape(c)[1..] + rest) == Some(Parsed(c, rest))
    ensures Escape(c)[0] != '\\' ==> Escape(c) == [c]
  {
    var e := Escape(c);
    if e[0] == '\\' {
      var tail := e[1..] + rest;
      if |e| == 2 {
        assert tail == [e[1]] + rest && tail[1..] == rest;
      } else {
        assert |e| == 6 && tail[..5] == e[1..] && tail[1..5] == e[2..] && tail[5..] == rest;
        HexRoundTrip(c);
      }
    }
  }

  lemma {:induction false} HexRoundTrip(c: char)
    requires |Escape(c)| == 6
    ensures ReadUnicode(Escape(c)[2..]) == Some(c)
  {
    var e := Escape(c)[2..];
    assert HexValue('0') == 0 && HexValue('2') == 2 && HexValue('8') == 8 && HexValue('9') == 9;
    if c as int < 0x20 || c == '<' || c == '>' || c == '&' {
      HexDigitReads(c as int / 16);
      HexDigitReads(c as int % 16);
      assert e == ['0', '0', HexDigit(c as int / 16), HexDigit(c as int % 16)];
    } else if c as int == 0x2028 {
      assert e == "2028";
    } else {
      assert e == "2029";
    }
  }

  lemma {:induction false} HexDigitReads(n: nat)
    requires n < 16
    ensures HexValue(HexDigit(n)) == n
  {
  }

  lemma {:induction false} EscapedCharReads(c: char, tail: string, cs: string, rest: string)
    requires ReadChars(tail) == Some(Parsed(cs, rest))
    ensures ReadChars(Escape(c) + tail) == Some(Parsed([c] + cs, rest))
  {
    var e := Escape(c);
    var text := e + tail;
    EscapeReads(c, tail);
    assert text[0] == e[0] && text[1..] == e[1..] + tail;
    if e[0] != '\\' {
      assert text[1..] == tail;
    }
  }

  lemma {:induction false} QuotedReads(s: string, rest: string)
    ensures ReadChars(EscapeAll(s) + "\"" + rest) == Some(Parsed(s, rest))
  {
    var text := EscapeAll(s) + "\"" + rest;
    if s == "" {
      assert text == "\"" + rest && text[1..] == rest;
    } else {
      var tail := EscapeAll(s[1..]) + "\"" + rest;
      assert text == Escape(s[0]) + tail;
      QuotedReads(s[1..], rest);
      EscapedCharReads(s[0], tail, s[1..], rest);
      assert s == [s[0]] + s[1..];
    }
  }

  /** What may follow a value inside an array or object, or at the end of the text. */
  predicate Delimited(rest: string) {
    rest == "" || rest[0] == ',' || rest[0] == ']' || rest[0] == '}'
  }

  lemma {:induction false} NumberRunIs(run: string, rest: string)
    requires Delimited(rest) && forall i :: 0 <= i < |run| ==> NumberChar(run[i])
    ensures NumberRun(run + rest) == |run|
  {
    if run == "" {
      assert run + rest == rest;
    } else {
      assert (run + rest)[1..] == run[1..] + rest;
      NumberRunIs(run[1..], rest);
    }
  }

  lemma {:induction false} FirstChar(v: Json)
    ensures |Canonicalize(v)| > 0 && Canonicalize(v)[0] !in {']', '}', ',', ':'}
  {
  }

  lemma {:induction false} PrintedWordReads(v: Json, rest: string, norm: NumLit -> NumLit)
    requires v.Null? || v.Bool?
    ensures ReadValue(Canonicalize(v) + rest, norm) == Some(Parsed(v, rest))
  {
    var word := Canonicalize(v);
    var text := word + rest;
    assert text[0] == word[0] && word <= text && text[|word|..] == rest;
  }

  lemma {:induction false} PrintedNumberReads(lit: NumLit, rest: string, norm: NumLit -> NumLit)
    requires Delimited(rest)
    ensures ReadValue(lit + rest, norm) == Some(Parsed(Num(norm(lit)), rest))
  {
    var text := lit + rest;
    NumberRunIs(lit, rest);
    assert text[0] == lit[0] && text[..|lit|] == lit && text[|lit|..] == rest;
    assert !("null" <= text) && !("true" <= text) && !("false" <= text);
  }

  lemma {:induction false} PrintedStringReads(s: string, rest: string, norm: NumLit -> NumLit)
    ensures ReadValue(Quote(s) + rest, norm) == Some(Parsed(Str(s), rest))
  {
    hide EscapeAll, ReadItems, ReadMembers, NumberRun;
    var text := Quote(s) + rest;
    QuotedReads(s, rest);
    assert text[0] == '\"' && text[1..] == EscapeAll(s) + "\"" + rest;
  }

  lemma {:induction false} BracketReads(body: string, norm: NumLit -> NumLit)
    requires body != ""
    ensures body[0] == ']' ==> ReadValue("[" + body, norm) == Some(Parsed(Arr([]), body[1..]))
    ensures body[0] != ']' ==> ReadValue("[" + body, norm) == ReadItems(body, [], norm)
    ensures body[0] == '}' ==> ReadValue("{" + body, norm) == Some(Parsed(Obj(map[]), body[1..]))
    ensures body[0] != '}' ==> ReadValue("{" + body, norm) == ReadMembers(body, map[], norm)
  {
    var list, obj := "[" + body, "{" + body;
    assert list[0] == '[' && list[1] == body[0] && list[1..] == body && list[2..] == body[1..];
    assert obj[0] == '{' && obj[1] == body[0] && obj[1..] == body && obj[2..] == body[1..];
  }

  /** The reader gives back any printed value, whatever delimiter follows it. */
  lemma {:induction false} PrintedValueReads(v: Json, rest: string, norm: NumLit -> NumLit)
    requires Delimited(rest)
    ensures ReadValue(Canonicalize(v) + rest, norm) == Some(Parsed(Normalize(v, norm), rest))
    decreases v
  {
    match v
    case Arr(items) =>
      PrintedArrayReads(v, rest, norm);
    case Obj(fields) =>
      SortedIsKeyOrder(fields.Keys);
      PrintedObjectReads(v, Sorted(fields.Keys), rest, norm);
    case Num(lit) => PrintedNumberReads(lit, rest, norm);
    case Str(s) => PrintedStringReads(s, rest, norm);
    case _ => PrintedWordReads(v, rest, norm);
  }

  lemma {:induction false} PrintedArrayReads(v: Json, rest: string, norm: NumLit -> NumLit)
    requires v.Arr?
    ensures ReadValue(Canonicalize(v) + rest, norm) == Some(Parsed(Normalize(v, norm), rest))
    decreases v, 0
  {
    hide ReadValue, ReadItems;
    var body := Items(v.items) + "]" + rest;
    assert Canonicalize(v) + rest == "[" + body;
    BracketReads(body, norm);
    if v.items == [] {
      assert body == "]" + rest && body[1..] == rest;
      assert Normalize(v, norm).items == [];
    } else {
      FirstChar(v.items[0]);
      assert body[0] == Canonicalize(v.items[0])[0];
      PrintedItemsRead(v.items, [], rest, norm);
      assert [] + Normalize(v, norm).items == Normalize(v, norm).items;
    }
  }

  lemma {:induction false} PrintedItemsRead(items: seq<Json>, acc: seq<Json>, rest: string, norm: NumLit -> NumLit)
    requires items != []
    ensures ReadItems(Items(items) + "]" + rest, acc, norm)
         == Some(Parsed(Arr(acc + Normalize(Arr(items), norm).items), rest))
    decreases items
  {
    hide ReadValue, Canonicalize;
    var text := Items(items) + "]" + rest;
    var first := Canonicalize(items[0]);
    var normed := Normalize(Arr(items), norm).items;
    var v := Normalize(items[0], norm);
    if |items| == 1 {
      assert text == first + ("]" + rest);
      PrintedValueReads(items[0], "]" + rest, norm);
      assert ("]" + rest)[1..] == rest;
      assert normed == [v];
    } else {
      var tail := "," + (Items(items[1..]) + "]" + rest);
      assert text == first + tail;
      PrintedValueReads(items[0], tail, norm);
      assert tail[1..] == Items(items[1..]) + "]" + rest;
      PrintedItemsRead(items[1..], acc + [v], rest, norm);
      assert acc + [v] + Normalize(Arr(items[1..]), norm).items == acc + normed;
    }
  }

  /** keys lists the members of v, each once. */
  ghost predicate KeyListing(v: Json, keys: seq<string>) {
    v.Obj? && (forall k :: k in keys <==> k in v.fields) && forall i, j :: 0 <= i < j < |keys| ==> keys[i] != keys[j]
  }

  lemma {:induction false} SortedIsKeyOrder(keys: set<string>)
    ensures forall i, j :: 0 <= i < j < |Sorted(keys)| ==> Sorted(keys)[i] != Sorted(keys)[j]
  {
    var s := Sorted(keys);
    forall i, j | 0 <= i < j < |s| ensures s[i] != s[j] {
      LessTotal(s[i], s[j]);
    }
  }

  /** An object reads back the same whatever order its members were written in. */
  lemma {:induction false} PrintedObjectReads(v: Json, keys: seq<string>, rest: string, norm: NumLit -> NumLit)
    requires KeyListing(v, keys)
    ensures ReadValue(PrintObject(v, keys) + rest, norm) == Some(Parsed(Normalize(v, norm), rest))
    decreases v, |keys| + 1
  {
    hide ReadValue, ReadMembers, Quote;
    var body := Members(v, keys) + "}" + rest;
    assert PrintObject(v, keys) + rest == "{" + body;
    BracketReads(body, norm);
    assert MemberMap(v, keys, norm) == Normalize(v, norm).fields;
    if keys == [] {
      assert body == "}" + rest && body[1..] == rest;
      assert Normalize(v, norm).fields == map[];
    } else {
      MembersStartQuoted(v, keys);
      assert body[0] == '\"';
      PrintedMembersRead(v, keys, map[], rest, norm);
      assert map[] + MemberMap(v, keys, norm) == MemberMap(v, keys, norm);
    }
  }

  lemma {:induction false} MembersStartQuoted(v: Json, keys: seq<string>)
    requires v.Obj? && keys != [] && forall k :: k in keys ==> k in v.fields
    ensures |Members(v, keys)| > 0 && Members(v, keys)[0] == '\"'
  {
  }

  ghost function MemberMap(v: Json, keys: seq<string>, norm: NumLit -> NumLit): map<string, Json>
    requires v.Obj? && forall k :: k in keys ==> k in v.fields
  {
    map k | k in keys :: Normalize(v.fields[k], norm)
  }

  lemma {:induction false} OneMemberReads(k: string, value: string, v: Json, tail: string, acc: map<string, Json>, norm: NumLit -> NumLit)
    requires tail != "" && (tail[0] == ',' || tail[0] == '}')
    requires ReadValue(value + tail, norm) == Some(Parsed(v, tail))
    ensures ReadMembers(Quote(k) + ":" + value + tail, acc, norm)
         == if tail[0] == '}' then Some(Parsed(Obj(acc[k := v]), tail[1..])) else ReadMembers(tail[1..], acc[k := v], norm)
  {
    hide EscapeAll, ReadChars, ReadItems, ReadValue, NumberRun;
    var text := Quote(k) + ":" + value + tail;
    var afterKey := ":" + (value + tail);
    assert text == "\"" + (EscapeAll(k) + "\"" + afterKey);
    assert text[1..] == EscapeAll(k) + "\"" + afterKey;
    QuotedReads(k, afterKey);
    assert afterKey[1..] == value + tail;
  }

  lemma {:induction false} PrintedMembersRead(v: Json, keys: seq<string>, acc: map<string, Json>, rest: string, norm: NumLit -> NumLit)
    requires v.Obj? && keys != [] && forall k :: k in keys ==> k in v.fields
    requires forall i, j :: 0 <= i < j < |keys| ==> keys[i] != keys[j]
    ensures ReadMembers(Members(v, keys) + "}" + rest, acc, norm)
         == Some(Parsed(Obj(acc + MemberMap(v, keys, norm)), rest))
    decreases v, |keys|
  {
    hide ReadValue, ReadMembers, Canonicalize;
    var text := Members(v, keys) + "}" + rest;
    var k := keys[0];
    assert k in keys;
    var value := Canonicalize(v.fields[k]);
    var v' := Normalize(v.fields[k], norm);
    var tail := if |keys| == 1 then "}" + rest else "," + (Members(v, keys[1..]) + "}" + rest);
    assert text == Quote(k) + ":" + value + tail;
    PrintedValueReads(v.fields[k], tail, norm);
    OneMemberReads(k, value, v', tail, acc, norm);
    if |keys| == 1 {
      assert tail[1..] == rest;
      assert keys == [k];
      assert acc[k := v'] == acc + MemberMap(v, keys, norm);
    } else {
      assert tail[1..] == Members(v, keys[1..]) + "}" + rest;
      PrintedMembersRead(v, keys[1..], acc[k := v'], rest, norm);
      MemberMapStep(v, keys, acc, norm);
    }
  }

  lemma {:induction false} MemberMapStep(v: Json, keys: seq<string>, acc: map<string, Json>, norm: NumLit -> NumLit)
    requires v.Obj? && keys != [] && forall k :: k in keys ==> k in v.fields
    requires forall i, j :: 0 <= i < j < |keys| ==> keys[i] != keys[j]
    ensures acc[keys[0] := Normalize(v.fields[keys[0]], norm)] + MemberMap(v, keys[1..], norm) == acc + MemberMap(v, keys, norm)
  {
    assert keys == [keys[0]] + keys[1..];
  }

  // ------------------------------------------------------------ main results

  /** Reading a printed value gives the value back, up to what float64 does to its numbers. */
  lemma {:induction false} ParseInvertsCanonicalize(v: Json, norm: NumLit -> NumLit)
    ensures Parse(Canonicalize(v), norm) == Some(Normalize(v, norm))
  {
    PrintedValueReads(v, "", norm);
    assert Canonicalize(v) + "" == Canonicalize(v);
  }

  /** The same for an object whose members were written in any order, as a struct's are. */
  lemma {:induction false} ParseInvertsPrintObject(v: Json, keys: seq<string>, norm: NumLit -> NumLit)
    requires KeyListing(v, keys)
    ensures Parse(PrintObject(v, keys), norm) == Some(Normalize(v, norm))
  {
    PrintedObjectReads(v, keys, "", norm);
    assert PrintObject(v, keys) + "" == PrintObject(v, keys);
  }

  /** Every number literal in v is one that norm leaves alone. */
  ghost predicate Stable(v: Json, norm: NumLit -> NumLit)
    decreases v
  {
    match v
    case Num(lit) => norm(lit) == lit
    case Arr(items) => forall i :: 0 <= i < |items| ==> Stable(items[i], norm)
    case Obj(fields) => forall k :: k in fields ==> Stable(fields[k], norm)
    case _ => true
  }

  lemma {:induction false} StableIffUnchanged(v: Json, norm: NumLit -> NumLit)
    ensures Stable(v, norm) <==> Normalize(v, norm) == v
    decreases v
  {
    match v
    case Arr(items) =>
      var normed := Normalize(v, norm).items;
      forall i | 0 <= i < |items| ensures Stable(items[i], norm) <==> normed[i] == items[i] {
        StableIffUnchanged(items[i], norm);
      }
    case Obj(fields) =>
      var normed := Normalize(v, norm).fields;
      forall k | k in fields ensures Stable(fields[k], norm) <==> normed[k] == fields[k] {
        StableIffUnchanged(fields[k], norm);
      }
    case _ =>
  }

  /** norm is the result of a decode and a print: applying it twice changes nothing more. */
  ghost predicate Idempotent(norm: NumLit -> NumLit) {
    forall lit :: norm(norm(lit)) == norm(lit)
  }

  lemma {:induction false} NormalizeSettles(v: Json, norm: NumLit -> NumLit)
    requires Idempotent(norm)
    ensures Normalize(Normalize(v, norm), norm) == Normalize(v, norm)
    decreases v
  {
    match v
    case Arr(items) =>
      forall i | 0 <= i < |items| ensures Normalize(Normalize(items[i], norm), norm) == Normalize(items[i], norm) {
        NormalizeSettles(items[i], norm);
      }
    case Obj(fields) =>
      forall k | k in fields ensures Normalize(Normalize(fields[k], norm), norm) == Normalize(fields[k], norm) {
        NormalizeSettles(fields[k], norm);
      }
    case _ =>
  }

  /** No two values share a canonical text. */
  lemma {:induction false} CanonicalTextIdentifies(a: Json, b: Json)
    ensures Canonicalize(a) == Canonicalize(b) <==> a == b
  {
    var same := (lit: NumLit) => lit;
    AllStable(a, same);
    AllStable(b, same);
    StableIffUnchanged(a, same);
    StableIffUnchanged(b, same);
    ParseInvertsCanonicalize(a, same);
    ParseInvertsCanonicalize(b, same);
  }

  lemma {:induction false} AllStable(v: Json, norm: NumLit -> NumLit)
    requires forall lit :: norm(lit) == lit
    ensures Stable(v, norm)
    decreases v
  {
    match v
    case Arr(items) =>
      forall i | 0 <= i < |items| ensures Stable(items[i], norm) { AllStable(items[i], norm); }
    case Obj(fields) =>
      forall k | k in fields ensures Stable(fields[k], norm) { AllStable(fields[k], norm); }
    case _ =>
  }

  // -------------------------------------------------- the printer as written

  function Join(parts: seq<string>): string {
    if |parts| == 0 then "" else if |parts| == 1 then parts[0] else parts[0] + "," + Join(parts[1..])
  }

  lemma {:induction false} JoinIsItems(parts: seq<string>, items: seq<Json>)
    requires |parts| == |items| && forall i :: 0 <= i < |items| ==> parts[i] == Canonicalize(items[i])
    ensures Join(parts) == Items(items)
    decreases |items|
  {
    if |items| > 1 {
      JoinIsItems(parts[1..], items[1..]);
    }
  }

  lemma {:induction false} JoinIsMembers(pairs: seq<string>, v: Json, keys: seq<string>)
    requires v.Obj? && forall k :: k in keys ==> k in v.fields
    requires |pairs| == |keys|
    requires forall i :: 0 <= i < |keys| ==> keys[i] in v.fields && pairs[i] == Quote(keys[i]) + ":" + Canonicalize(v.fields[keys[i]])
    ensures Join(pairs) == Members(v, keys)
    decreases |keys|
  {
    if |keys| > 1 {
      JoinIsMembers(pairs[1..], v, keys[1..]);
    }
  }

  /** Map entries arrive in whatever order iteration gives; sorting makes it one. */
  method SortedKeys(fields: map<string, Json>) returns (keys: seq<string>)
    ensures keys == Sorted(fields.Keys)
  {
    hide Less;
    keys := [];
    var left := fields.Keys;
    while left != {}
      invariant left <= fields.Keys
      invariant forall k :: k in keys <==> k in fields.Keys - left
      invariant forall i, j :: 0 <= i < j < |keys| ==> keys[i] != keys[j]
      decreases |left|
    {
      var k :| k in left;
      assert k !in keys;
      keys, left := keys + [k], left - {k};
    }
    keys := SortStrings(keys);
    AscendingIsSorted(keys, fields.Keys);
  }

  method ArrayText(v: Json) returns (text: string)
    requires v.Arr?
    ensures text == Canonicalize(v)
    decreases v, 0
  {
    hide Items, Join;
    var parts := new string[|v.items|];
    for i := 0 to |v.items|
      invariant forall j :: 0 <= j < i ==> parts[j] == Canonicalize(v.items[j])
    {
      var part := CanonicalText(v.items[i]);
      parts[i] := part;
    }
    JoinIsItems(parts[..], v.items);
    text := "[" + Join(parts[..]) + "]";
  }

  method ObjectText(v: Json) returns (text: string)
    requires v.Obj?
    ensures text == Canonicalize(v)
    decreases v, 0
  {
    hide Members, Join, Sorted, Quote;
    var keys := SortedKeys(v.fields);
    var pairs := new string[|keys|];
    for i := 0 to |keys|
      invariant forall j :: 0 <= j < i ==> pairs[j] == Quote(keys[j]) + ":" + Canonicalize(v.fields[keys[j]])
    {
      assert keys[i] in keys;
      var member := CanonicalText(v.fields[keys[i]]);
      pairs[i] := Quote(keys[i]) + ":" + member;
    }
    JoinIsMembers(pairs[..], v, keys);
    text := "{" + Join(pairs[..]) + "}";
  }

  /** The printer: one case per kind of value. */
  method CanonicalText(v: Json) returns (text: string)
    ensures text == Canonicalize(v)
    decreases v, 1
  {
    hide Quote, Items, Members, Sorted;
    match v
    case Null => text := "null";
    case Bool(b) => text := if b then "true" else "false";
    case Num(lit) => text := lit;
    case Str(s) => text := Quote(s);
    case Arr(_) => text := ArrayText(v);
    case Obj(_) => text := ObjectText(v);
  }
}
