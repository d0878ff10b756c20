/** The texts themselves, character by character: what the printer writes for a string, a list and
    an object, in which order members come, and which spellings of a string the reader takes. */
module WireText {
  import opened Wrappers
  import opened KeyOrder
  import opened Canonical

  // ------------------------------------------------------------------ key order

  /** a and b first differ at i. */
  ghost predicate DifferAt(a: string, b: string, i: int) {
    0 <= i < |a| && i < |b| && a[..i] == b[..i] && a[i] != b[i]
  }

  lemma {:induction false} DifferTail(a: string, b: string)
    requires a != [] && b != [] && a[0] == b[0]
    ensures forall i :: DifferAt(a, b, i) <==> DifferAt(a[1..], b[1..], i - 1)
  {
    forall i ensures DifferAt(a, b, i) <==> DifferAt(a[1..], b[1..], i - 1) {
      if 0 < i < |a| && i < |b| {
        assert a[..i] == [a[0]] + a[1..][..i - 1] && b[..i] == [b[0]] + b[1..][..i - 1];
      }
    }
  }

  /** The order of the members: the smaller code point where two keys first differ, and a proper
      prefix before what it begins. */
  lemma {:induction false} LessIff(a: string, b: string)
    ensures Less(a, b) <==> (a != b && a <= b) || exists i :: DifferAt(a, b, i) && a[i] < b[i]
  {
    if a != [] && b != [] && a[0] == b[0] {
      hide DifferAt;
      LessIff(a[1..], b[1..]);
      DifferTail(a, b);
      assert a == [a[0]] + a[1..] && b == [b[0]] + b[1..];
      DifferInside(a, b);
      DifferInside(a[1..], b[1..]);
      if i :| DifferAt(a[1..], b[1..], i) && a[1..][i] < b[1..][i] {
        assert DifferAt(a, b, i + 1) && a[i + 1] == a[1..][i] && b[i + 1] == b[1..][i];
      }
    } else if a != [] && b != [] {
      assert DifferAt(a, b, 0);
    }
  }

  lemma {:induction false} DifferInside(a: string, b: string)
    ensures forall i :: DifferAt(a, b, i) ==> 0 <= i < |a| && i < |b| && a[i] != b[i]
  {
  }

  // ------------------------------------------------------------------- strings

  /** The characters json.Marshal never writes: control characters, and those that mean something
      to HTML or JavaScript. */
  predicate Unsafe(c: char) {
    c as int < 0x20 || c in "<>&" || c as int == 0x2028 || c as int == 0x2029
  }

  /** The two-character escapes: the character, and the letter after the backslash. */
  const SHORT_ESCAPES: map<int, char> := map[0x22 := '\"', 0x5C := '\\', 8 := 'b', 12 := 'f', 10 := 'n', 13 := 'r', 9 := 't']

  const LOWER_HEX := "0123456789abcdef"

  /** How the character c is written inside a string: as a two-character escape, as the four digits
      of its code point, most significant first, or as itself. */
  function Written(c: char): string {
    var n := c as int;
    if n in SHORT_ESCAPES then ['\\', SHORT_ESCAPES[n]]
    else if Unsafe(c) then "\\u" + [LOWER_HEX[n / 4096 % 16], LOWER_HEX[n / 256 % 16], LOWER_HEX[n / 16 % 16], LOWER_HEX[n % 16]]
    else [c]
  }

  function Spelled(s: string): string {
    if s == "" then "" else Written(s[0]) + Spelled(s[1..])
  }

  lemma {:induction false} EscapeIsWritten(c: char)
    ensures Escape(c) == Written(c)
  {
    if c as int < 0x80 {
      SmallIsWritten(c);
    } else {
      LargeIsWritten(c);
    }
  }

  lemma {:induction false} SmallIsWritten(c: char)
    requires c as int < 0x80
    ensures Escape(c) == Written(c)
  {
    SmallDigits(c as int);
  }

  lemma {:induction false} LargeIsWritten(c: char)
    requires c as int >= 0x80
    ensures Escape(c) == Written(c)
  {
    var n := c as int;
    if n == 0x2028 || n == 0x2029 {
      assert n / 4096 % 16 == 2 && n / 256 % 16 == 0 && n / 16 % 16 == 2 && n % 16 == n - 0x2020;
    }
  }

  lemma {:induction false} SmallDigits(n: nat)
    requires n < 0x80
    ensures n / 4096 % 16 == 0 && n / 256 % 16 == 0 && n / 16 % 16 == n / 16
  {
  }

  /** A string is printed between quotes, each character in its one spelling. */
  lemma {:induction false} StringText(s: string)
    ensures Canonicalize(Str(s)) == "\"" + Spelled(s) + "\""
  {
    EscapeAllSpells(s);
  }

  lemma {:induction false} EscapeAllSpells(s: string)
    ensures EscapeAll(s) == Spelled(s)
  {
    hide Escape, Written;
    if s != "" {
      EscapeIsWritten(s[0]);
      EscapeAllSpells(s[1..]);
    }
  }

  // ------------------------------------------------------------- whole texts

  ghost predicate Clean(text: string) {
    forall i :: 0 <= i < |text| ==> !Unsafe(text[i])
  }

  lemma {:induction false} SpelledIsClean(s: string)
    ensures Clean(Spelled(s))
  {
    if s != "" {
      WrittenIsClean(s[0]);
      SpelledIsClean(s[1..]);
    }
  }

  lemma {:induction false} WrittenIsClean(c: char)
    ensures Clean(Written(c))
  {
    assert forall i :: 0 <= i < 16 ==> !Unsafe(LOWER_HEX[i]);
  }

  lemma {:induction false} CleanConcat(a: string, b: string)
    requires Clean(a) && Clean(b)
    ensures Clean(a + b)
  {
  }

  lemma {:induction false} QuoteIsClean(s: string)
    ensures Clean(Quote(s))
  {
    EscapeAllSpells(s);
    SpelledIsClean(s);
  }

  /** No character of a canonical text, keys included, is one that json.Marshal escapes. */
  lemma {:induction false} CanonicalIsClean(v: Json)
    ensures Clean(Canonicalize(v))
    decreases v, 1, 0
  {
    hide Quote, Items, Members;
    match v
    case Null => WordsAreClean();
    case Bool(_) => WordsAreClean();
    case Num(lit) => NumberIsClean(lit);
    case Str(s) => QuoteIsClean(s);
    case Arr(items) => ItemsAreClean(v, items);
    case Obj(fields) => MembersAreClean(v, Sorted(fields.Keys));
  }

  lemma {:induction false} WordsAreClean()
    ensures Clean("null") && Clean("true") && Clean("false")
  {
  }

  lemma {:induction false} NumberIsClean(lit: NumLit)
    ensures Clean(lit)
  {
    forall i | 0 <= i < |lit| ensures !Unsafe(lit[i]) {
      assert NumberChar(lit[i]);
    }
  }

  lemma {:induction false} ItemsAreClean(v: Json, items: seq<Json>)
    requires v.Arr? && forall i :: 0 <= i < |items| ==> items[i] in v.items
    ensures Clean(Items(items))
    decreases v, 0, |items|
  {
    if items != [] {
      assert items[0] in v.items;
      CanonicalIsClean(items[0]);
      ItemsAreClean(v, items[1..]);
    }
  }

  lemma {:induction false} MembersAreClean(v: Json, keys: seq<string>)
    requires v.Obj? && forall k :: k in keys ==> k in v.fields
    ensures Clean(Members(v, keys))
    decreases v, 0, |keys|
  {
    if keys != [] {
      assert keys[0] in keys;
      QuoteIsClean(keys[0]);
      CanonicalIsClean(v.fields[keys[0]]);
      CleanConcat(Quote(keys[0]) + ":", Canonicalize(v.fields[keys[0]]));
      MembersAreClean(v, keys[1..]);
    }
  }

  /** An object is printed as its members in ascending key order, each as its key printed as a string, a colon
      and its value; there is one such order. */
  lemma {:induction false} ObjectIsMembers(fields: map<string, Json>, keys: seq<string>)
    requires Ascending(keys) && forall k :: k in keys <==> k in fields
    ensures Canonicalize(Obj(fields)) == "{" + Join(Pairs(fields, keys)) + "}"
  {
    AscendingIsSorted(keys, fields.Keys);
    JoinIsMembers(Pairs(fields, keys), Obj(fields), keys);
  }

  ghost function Pairs(fields: map<string, Json>, keys: seq<string>): (pairs: seq<string>)
    requires forall k :: k in keys ==> k in fields
    ensures |pairs| == |keys|
    ensures forall i :: 0 <= i < |keys| ==> pairs[i] == Canonicalize(Str(keys[i])) + ":" + Canonicalize(fields[keys[i]])
  {
    seq(|keys|, i requires 0 <= i < |keys| => assert keys[i] in keys; Canonicalize(Str(keys[i])) + ":" + Canonicalize(fields[keys[i]]))
  }

  // ------------------------------------------------------------------- reading

  const UPPER_HEX := "0123456789ABCDEF"

  /** The letter after the backslash, and the character it stands for. */
  const READ_ESCAPES: map<char, int> :=
    map['\"' := 0x22, '\\' := 0x5C, '/' := 0x2F, 'b' := 8, 'f' := 12, 'n' := 10, 'r' := 13, 't' := 9]

  predicate HexIs(d: char, n: nat) {
    n < 16 && (d == LOWER_HEX[n] || d == UPPER_HEX[n])
  }

  ghost predicate CodeIs(digits: string, n: int) {
    && |digits| == 4
    && exists p: nat, q: nat, r: nat, t: nat ::
         HexIs(digits[0], p) && HexIs(digits[1], q) && HexIs(digits[2], r) && HexIs(digits[3], t) && n == 4096 * p + 256 * q + 16 * r + t
  }

  /** The spellings of one character in section 7 of RFC 8259, surrogate pairs apart. */
  ghost predicate Spelling(e: string, c: char) {
    || (e == [c] && c as int >= 0x20 && c != '\"' && c != '\\')
    || (|e| == 2 && e[0] == '\\' && e[1] in READ_ESCAPES && READ_ESCAPES[e[1]] == c as int)
    || (|e| == 6 && e[..2] == "\\u" && CodeIs(e[2..], c as int))
  }

  function Concat(pieces: seq<string>): string {
    if pieces == [] then "" else pieces[0] + Concat(pieces[1..])
  }

  ghost predicate Spells(pieces: seq<string>, s: string) {
    |pieces| == |s| && forall i :: 0 <= i < |s| ==> Spelling(pieces[i], s[i])
  }

  lemma {:induction false} HexValueIs(d: char, n: nat)
    ensures HexIs(d, n) <==> HexValue(d) == n
  {
    assert forall i :: 0 <= i < 16 ==> LOWER_HEX[i] as int == (if i < 10 then 48 + i else 87 + i);
    assert forall i :: 0 <= i < 16 ==> UPPER_HEX[i] as int == (if i < 10 then 48 + i else 55 + i);
  }

  lemma {:induction false} UnicodeReadsIff(digits: string, c: char)
    requires |digits| == 4
    ensures ReadUnicode(digits) == Some(c) <==> CodeIs(digits, c as int)
  {
    hide HexIs, HexValue;
    var p, q, r, t := HexValue(digits[0]), HexValue(digits[1]), HexValue(digits[2]), HexValue(digits[3]);
    if p >= 0 && q >= 0 && r >= 0 && t >= 0 {
      HexValueIs(digits[0], p);
      HexValueIs(digits[1], q);
      HexValueIs(digits[2], r);
      HexValueIs(digits[3], t);
    }
    if CodeIs(digits, c as int) {
      var p': nat, q': nat, r': nat, t': nat :|
        HexIs(digits[0], p') && HexIs(digits[1], q') && HexIs(digits[2], r') && HexIs(digits[3], t') && c as int == 4096 * p' + 256 * q' + 16 * r' + t';
      HexValueIs(digits[0], p');
      HexValueIs(digits[1], q');
      HexValueIs(digits[2], r');
      HexValueIs(digits[3], t');
    }
  }

  lemma {:induction false} SpellingReads(e: string, c: char, tail: string)
    requires Spelling(e, c)
    ensures e != "" && e[0] as int >= 0x20 && e[0] != '\"'
    ensures if e[0] == '\\' then ReadEscape(e[1..] + tail) == Some(Parsed(c, tail)) else e == [c]
  {
    if e[0] == '\\' {
      var text := e[1..] + tail;
      if |e| == 2 {
        assert text[1..] == tail;
      } else {
        UnicodeReadsIff(e[2..], c);
        assert text[1..5] == e[2..] && text[5..] == tail;
      }
    }
  }

  lemma {:induction false} EscapeSpells(s: string, c: char, tail: string) returns (e: string)
    requires ReadEscape(s) == Some(Parsed(c, tail))
    ensures Spelling(e, c) && "\\" + s == e + tail
  {
    var n := if s[0] == 'u' then 5 else 1;
    e := "\\" + s[..n];
    assert s == s[..n] + tail;
    if n == 5 {
      UnicodeReadsIff(s[1..5], c);
      assert e[2..] == s[1..5];
    }
  }

  lemma {:induction false} SpellingsRead(pieces: seq<string>, s: string, rest: string)
    requires Spells(pieces, s)
    ensures ReadChars(Concat(pieces) + "\"" + rest) == Some(Parsed(s, rest))
    decreases |s|
  {
    hide Spelling, ReadEscape;
    if s == "" {
      assert Concat(pieces) + "\"" + rest == "\"" + rest;
    } else {
      var tail := Concat(pieces[1..]) + "\"" + rest;
      assert Spelling(pieces[0], s[0]);
      SpellingReads(pieces[0], s[0], tail);
      SpellingsRead(pieces[1..], s[1..], rest);
      var text := Concat(pieces) + "\"" + rest;
      assert text == pieces[0] + tail && text[1..] == pieces[0][1..] + tail;
      assert s == [s[0]] + s[1..];
    }
  }

  lemma {:induction false} ItselfSpells(c: char)
    requires c as int >= 0x20 && c != '\"' && c != '\\'
    ensures Spelling([c], c)
  {
  }

  lemma {:induction false} MorePieces(e: string, more: seq<string>, c: char, s: string, rest: string)
    requires Spelling(e, c) && Spells(more, s)
    ensures Spells([e] + more, [c] + s) && Concat([e] + more) + "\"" + rest == e + (Concat(more) + "\"" + rest)
  {
    hide Spelling;
    assert ([e] + more)[1..] == more;
  }

  lemma {:induction false} NoPieces(rest: string)
    ensures Spells([], "") && Concat([]) + "\"" + rest == "\"" + rest
  {
  }

  lemma {:induction false} OnlySpellingsRead(text: string, s: string, rest: string) returns (pieces: seq<string>)
    requires ReadChars(text) == Some(Parsed(s, rest))
    ensures Spells(pieces, s) && text == Concat(pieces) + "\"" + rest
    decreases |text|
  {
    hide ReadEscape, Spelling, Spells, Concat;
    pieces := [];
    NoPieces(rest);
    if text[0] == '\"' {
      assert text == "\"" + rest;
    } else {
      var e, tail := [text[0]], text[1..];
      if text[0] == '\\' {
        var p := ReadEscape(text[1..]).value;
        e := EscapeSpells(text[1..], p.value, p.rest);
        tail := p.rest;
        assert text == "\\" + text[1..];
      } else {
        ItselfSpells(text[0]);
      }
      var more := OnlySpellingsRead(tail, s[1..], rest);
      pieces := [e] + more;
      MorePieces(e, more, s[0], s[1..], rest);
      assert s == [s[0]] + s[1..] && text == e + tail;
    }
  }

  /** What stands between quotes is read as s exactly when it spells s, character by character. */
  lemma {:induction false} StringReadsIff(body: string, s: string, norm: NumLit -> NumLit)
    ensures Parse("\"" + body + "\"", norm) == Some(Str(s)) <==> exists pieces :: Spells(pieces, s) && body == Concat(pieces)
  {
    hide Spells, ReadChars, ReadItems, ReadMembers, NumberRun;
    var text := "\"" + body + "\"";
    assert text[1..] == body + "\"" && text[0] == '\"';
    if pieces :| Spells(pieces, s) && body == Concat(pieces) {
      SpellingsRead(pieces, s, "");
      assert body + "\"" + "" == body + "\"";
    }
    if Parse(text, norm) == Some(Str(s)) {
      var pieces := OnlySpellingsRead(body + "\"", s, "");
      assert Concat(pieces) + "\"" + "" == Concat(pieces) + "\"";
      SameBeforeQuote(body, Concat(pieces));
    }
  }

  lemma {:induction false} SameBeforeQuote(a: string, b: string)
    requires a + "\"" == b + "\""
    ensures a == b
  {
    assert a == (a + "\"")[..|a|] && b == (b + "\"")[..|b|];
  }

  // ------------------------------------------------------------------- numbers

  predicate Digits(s: string) {
    s != "" && forall i :: 0 <= i < |s| ==> '0' <= s[i] <= '9'
  }

  predicate IsFraction(s: string) {
    s == "" || (s[0] == '.' && Digits(s[1..]))
  }

  predicate IsExponent(s: string) {
    s == "" || (s[0] in "eE" && (Digits(s[1..]) || (|s| > 1 && s[1] in "+-" && Digits(s[2..]))))
  }

  /** A number in the grammar of section 6 of RFC 8259. */
  predicate IsNumber(minus: bool, digits: string, fraction: string, exponent: string) {
    Digits(digits) && (digits[0] == '0' ==> |digits| == 1) && IsFraction(fraction) && IsExponent(exponent)
  }

  /** Every JSON number is a literal of the model, and is read as one. */
  lemma {:induction false} NumbersAreLiterals(minus: bool, digits: string, fraction: string, exponent: string, norm: NumLit -> NumLit)
    requires IsNumber(minus, digits, fraction, exponent)
    ensures
      var s := (if minus then "-" else "") + digits + fraction + exponent;
      && s != "" && ('0' <= s[0] <= '9' || s[0] == '-') && (forall i :: 0 <= i < |s| ==> NumberChar(s[i]))
      && Parse(s, norm) == Some(Num(norm(s)))
  {
    hide ReadItems, ReadMembers, ReadChars;
    var s := (if minus then "-" else "") + digits + fraction + exponent;
    FractionChars(fraction);
    ExponentChars(exponent);
    assert s[0] == if minus then '-' else digits[0];
    NumberRunIs(s, "");
    assert s + "" == s && s[..|s|] == s;
  }

  lemma {:induction false} FractionChars(s: string)
    requires IsFraction(s)
    ensures forall i :: 0 <= i < |s| ==> NumberChar(s[i])
  {
    if s != "" {
      assert forall i :: 0 < i < |s| ==> s[i] == s[1..][i - 1];
    }
  }

  lemma {:induction false} ExponentChars(s: string)
    requires IsExponent(s)
    ensures forall i :: 0 <= i < |s| ==> NumberChar(s[i])
  {
    if s != "" {
      assert forall i :: 0 < i < |s| ==> s[i] == s[1..][i - 1];
      assert forall i :: 1 < i < |s| ==> s[i] == s[2..][i - 2];
    }
  }
}
