/** The reader against a grammar: which texts it takes, and what it makes of them. */
module JsonGrammar {
  import opened Wrappers
  import opened Canonical
  import opened WireText

  /** How a text is built: words, numbers, strings by their spelling, lists, and records whose keys may
      repeat. */
  datatype Syntax =
    | Word(v: Json)
    | Number(lit: NumLit)
    | Text(pieces: seq<string>, s: string)
    | List(items: seq<Syntax>)
    | Record(members: seq<Member>)

  datatype Member = Member(pieces: seq<string>, key: string, value: Syntax)

  ghost predicate Valid(x: Syntax)
    decreases x
  {
    match x
    case Word(v) => v.Null? || v.Bool?
    case Number(_) => true
    case Text(pieces, s) => Spells(pieces, s)
    case List(items) => forall i :: 0 <= i < |items| ==> Valid(items[i])
    case Record(members) => forall i :: 0 <= i < |members| ==> Spells(members[i].pieces, members[i].key) && Valid(members[i].value)
  }

  function Write(x: Syntax): string
    decreases x
  {
    match x
    case Word(v) => if v.Null? then "null" else if v == Bool(true) then "true" else "false"
    case Number(lit) => lit
    case Text(pieces, _) => "\"" + Concat(pieces) + "\""
    case List(items) => "[" + WriteItems(items) + "]"
    case Record(members) => "{" + WriteMembers(members) + "}"
  }

  function WriteItems(items: seq<Syntax>): string
    decreases items
  {
    if items == [] then "" else Write(items[0]) + if |items| == 1 then "" else "," + WriteItems(items[1..])
  }

  function WriteMembers(members: seq<Member>): string
    decreases members
  {
    if members == [] then "" else
      "\"" + Concat(members[0].pieces) + "\":" + Write(members[0].value) + if |members| == 1 then "" else "," + WriteMembers(members[1..])
  }

  /** What a text means: its numbers through norm, and of equal keys the last. */
  function Meaning(x: Syntax, norm: NumLit -> NumLit): Json
    decreases x
  {
    match x
    case Word(v) => v
    case Number(lit) => Num(norm(lit))
    case Text(_, s) => Str(s)
    case List(items) => Arr(Meanings(items, norm))
    case Record(members) => Obj(Gather(members, map[], norm))
  }

  function Meanings(items: seq<Syntax>, norm: NumLit -> NumLit): seq<Json>
    decreases items
  {
    if items == [] then [] else [Meaning(items[0], norm)] + Meanings(items[1..], norm)
  }

  function Gather(members: seq<Member>, acc: map<string, Json>, norm: NumLit -> NumLit): map<string, Json>
    decreases members
  {
    if members == [] then acc else Gather(members[1..], acc[members[0].key := Meaning(members[0].value, norm)], norm)
  }

  // ------------------------------------------------- what is written is read

  lemma {:induction false} FirstWritten(x: Syntax)
    requires Valid(x)
    ensures Write(x) != "" && Write(x)[0] !in {']', '}', ',', ':'}
  {
  }

  lemma {:induction false} WordReads(v: Json, rest: string, norm: NumLit -> NumLit)
    requires v.Null? || v.Bool?
    ensures ReadValue(Write(Word(v)) + rest, norm) == Some(Parsed(v, rest))
  {
    assert Write(Word(v)) == Canonicalize(v);
    PrintedWordReads(v, rest, norm);
  }

  lemma {:induction false} TextReads(pieces: seq<string>, s: string, rest: string, norm: NumLit -> NumLit)
    requires Spells(pieces, s)
    ensures ReadValue(Write(Text(pieces, s)) + rest, norm) == Some(Parsed(Str(s), rest))
  {
    hide Spells, ReadItems, ReadMembers, NumberRun, ReadChars, Concat;
    SpellingsRead(pieces, s, rest);
    var text := Write(Text(pieces, s)) + rest;
    assert text[0] == '\"' && text[1..] == Concat(pieces) + "\"" + rest;
  }

  lemma {:induction false} WrittenReads(x: Syntax, rest: string, norm: NumLit -> NumLit)
    requires Valid(x) && Delimited(rest)
    ensures ReadValue(Write(x) + rest, norm) == Some(Parsed(Meaning(x, norm), rest))
    decreases x, 1
  {
    match x
    case Word(v) => WordReads(v, rest, norm);
    case Number(lit) => PrintedNumberReads(lit, rest, norm);
    case Text(pieces, s) => TextReads(pieces, s, rest, norm);
    case List(items) => ListReads(x, rest, norm);
    case Record(members) => RecordReads(x, rest, norm);
  }

  lemma {:induction false} ListReads(x: Syntax, rest: string, norm: NumLit -> NumLit)
    requires Valid(x) && x.List? && Delimited(rest)
    ensures ReadValue(Write(x) + rest, norm) == Some(Parsed(Meaning(x, norm), rest))
    decreases x, 0
  {
    hide ReadValue, ReadItems;
    var body := WriteItems(x.items) + "]" + rest;
    assert Write(x) + rest == "[" + body;
    BracketReads(body, norm);
    if x.items == [] {
      assert body == "]" + rest && body[1..] == rest;
    } else {
      FirstWritten(x.items[0]);
      assert body[0] == Write(x.items[0])[0];
      ItemsRead(x.items, [], rest, norm);
      assert [] + Meanings(x.items, norm) == Meanings(x.items, norm);
    }
  }

  lemma {:induction false} ItemsRead(items: seq<Syntax>, acc: seq<Json>, rest: string, norm: NumLit -> NumLit)
    requires items != [] && forall i :: 0 <= i < |items| ==> Valid(items[i])
    ensures ReadItems(WriteItems(items) + "]" + rest, acc, norm) == Some(Parsed(Arr(acc + Meanings(items, norm)), rest))
    decreases items
  {
    hide ReadValue, Write, Meaning, Valid;
    var text, v := WriteItems(items) + "]" + rest, Meaning(items[0], norm);
    if |items| == 1 {
      assert text == Write(items[0]) + ("]" + rest);
      WrittenReads(items[0], "]" + rest, norm);
      assert ("]" + rest)[1..] == rest && Meanings(items, norm) == [v];
    } else {
      var tail := "," + (WriteItems(items[1..]) + "]" + rest);
      assert text == Write(items[0]) + tail;
      WrittenReads(items[0], tail, norm);
      assert tail[1..] == WriteItems(items[1..]) + "]" + rest;
      ItemsRead(items[1..], acc + [v], rest, norm);
      assert acc + [v] + Meanings(items[1..], norm) == acc + Meanings(items, norm);
    }
  }

  lemma {:induction false} RecordReads(x: Syntax, rest: string, norm: NumLit -> NumLit)
    requires Valid(x) && x.Record? && Delimited(rest)
    ensures ReadValue(Write(x) + rest, norm) == Some(Parsed(Meaning(x, norm), rest))
    decreases x, 0
  {
    hide ReadValue, ReadMembers;
    var body := WriteMembers(x.members) + "}" + rest;
    assert Write(x) + rest == "{" + body;
    BracketReads(body, norm);
    if x.members == [] {
      assert body == "}" + rest && body[1..] == rest;
    } else {
      assert body[0] == '\"';
      MembersRead(x.members, map[], rest, norm);
    }
  }

  /** One member, whatever follows it. */
  lemma {:induction false} MemberReads(m: Member, v: Json, tail: string, acc: map<string, Json>, norm: NumLit -> NumLit)
    requires Spells(m.pieces, m.key) && tail != "" && (tail[0] == ',' || tail[0] == '}')
    requires ReadValue(Write(m.value) + tail, norm) == Some(Parsed(v, tail))
    ensures ReadMembers("\"" + Concat(m.pieces) + "\":" + Write(m.value) + tail, acc, norm)
         == if tail[0] == '}' then Some(Parsed(Obj(acc[m.key := v]), tail[1..])) else ReadMembers(tail[1..], acc[m.key := v], norm)
  {
    hide Spells, ReadChars, ReadItems, ReadValue, NumberRun, Concat, Write;
    var afterKey := ":" + (Write(m.value) + tail);
    var text := "\"" + Concat(m.pieces) + "\":" + Write(m.value) + tail;
    assert text == "\"" + (Concat(m.pieces) + "\"" + afterKey);
    assert text[1..] == Concat(m.pieces) + "\"" + afterKey;
    SpellingsRead(m.pieces, m.key, afterKey);
    assert afterKey[1..] == Write(m.value) + tail;
  }

  lemma {:induction false} MembersRead(members: seq<Member>, acc: map<string, Json>, rest: string, norm: NumLit -> NumLit)
    requires members != [] && forall i :: 0 <= i < |members| ==> Spells(members[i].pieces, members[i].key) && Valid(members[i].value)
    ensures ReadMembers(WriteMembers(members) + "}" + rest, acc, norm) == Some(Parsed(Obj(Gather(members, acc, norm)), rest))
    decreases members
  {
    hide ReadValue, ReadMembers, Write, Meaning, Valid, Spells, Concat;
    var m, v := members[0], Meaning(members[0].value, norm);
    var tail := if |members| == 1 then "}" + rest else "," + (WriteMembers(members[1..]) + "}" + rest);
    assert WriteMembers(members) + "}" + rest == "\"" + Concat(m.pieces) + "\":" + Write(m.value) + tail;
    WrittenReads(m.value, tail, norm);
    MemberReads(m, v, tail, acc, norm);
    if |members| == 1 {
      assert tail[1..] == rest && members[1..] == [];
    } else {
      assert tail[1..] == WriteMembers(members[1..]) + "}" + rest;
      MembersRead(members[1..], acc[m.key := v], rest, norm);
    }
  }

  // ------------------------------------------------- what is read was written

  lemma {:induction false} NumberIsWritten(s: string, norm: NumLit -> NumLit) returns (x: Syntax)
    requires s != "" && ('0' <= s[0] <= '9' || s[0] == '-')
    ensures x == Number(s[..NumberRun(s)]) && s == Write(x) + s[NumberRun(s)..]
  {
    x := Number(s[..NumberRun(s)]);
  }

  lemma {:induction false} WordIsWritten(s: string, norm: NumLit -> NumLit) returns (x: Syntax)
    requires "null" <= s || "true" <= s || "false" <= s
    ensures Valid(x) && Write(x) <= s && ReadValue(s, norm) == Some(Parsed(Meaning(x, norm), s[|Write(x)|..]))
  {
    x := Word(if "null" <= s then Null else Bool("true" <= s));
  }

  lemma {:induction false} ValueIsWritten(s: string, norm: NumLit -> NumLit) returns (x: Syntax)
    requires ReadValue(s, norm).Some?
    ensures Valid(x) && ReadValue(s, norm) == Some(Parsed(Meaning(x, norm), ReadValue(s, norm).value.rest))
    ensures s == Write(x) + ReadValue(s, norm).value.rest
    decreases |s|, 1
  {
    hide ReadItems, ReadMembers, NumberRun, ReadChars, Spells;
    var rest := ReadValue(s, norm).value.rest;
    if s[0] == '{' {
      x := RecordIsWritten(s, norm);
    } else if s[0] == '[' {
      x := ListIsWritten(s, norm);
    } else if s[0] == '\"' {
      var key := ReadChars(s[1..]).value.value;
      var pieces := OnlySpellingsRead(s[1..], key, rest);
      x := Text(pieces, key);
      assert s == "\"" + s[1..];
    } else if "null" <= s || "true" <= s || "false" <= s {
      x := WordIsWritten(s, norm);
      assert s == Write(x) + s[|Write(x)|..];
    } else {
      x := NumberIsWritten(s, norm);
    }
  }

  lemma {:induction false} ListIsWritten(s: string, norm: NumLit -> NumLit) returns (x: Syntax)
    requires ReadValue(s, norm).Some? && s[0] == '['
    ensures Valid(x) && ReadValue(s, norm) == Some(Parsed(Meaning(x, norm), ReadValue(s, norm).value.rest))
    ensures s == Write(x) + ReadValue(s, norm).value.rest
    decreases |s|, 0
  {
    hide ReadItems, ReadMembers, ReadChars;
    var rest := ReadValue(s, norm).value.rest;
    if |s| > 1 && s[1] == ']' {
      x := List([]);
      assert s == "[" + "" + "]" + rest;
    } else {
      var items := ItemsAreWritten(s[1..], [], norm);
      x := List(items);
      assert [] + Meanings(items, norm) == Meanings(items, norm);
      assert s == "[" + s[1..];
    }
  }

  lemma {:induction false} ItemsAreWritten(s: string, acc: seq<Json>, norm: NumLit -> NumLit) returns (items: seq<Syntax>)
    requires ReadItems(s, acc, norm).Some?
    ensures items != [] && forall i :: 0 <= i < |items| ==> Valid(items[i])
    ensures
      var p := ReadItems(s, acc, norm).value;
      p.value == Arr(acc + Meanings(items, norm)) && s == WriteItems(items) + "]" + p.rest
    decreases |s|, 2
  {
    hide ReadValue, Write, Meaning, Valid, WriteItems, Meanings;
    var x := ValueIsWritten(s, norm);
    var v, rest := ReadValue(s, norm).value.value, ReadValue(s, norm).value.rest;
    if rest[0] == ']' {
      items := [x];
      OneItem(x, norm);
      assert rest == "]" + rest[1..];
    } else {
      var more := ItemsAreWritten(rest[1..], acc + [v], norm);
      items := [x] + more;
      assert rest == "," + rest[1..];
      MoreItems(x, more, ReadItems(s, acc, norm).value.rest, norm);
      assert acc + [v] + Meanings(more, norm) == acc + ([v] + Meanings(more, norm));
    }
  }

  lemma {:induction false} OneItem(x: Syntax, norm: NumLit -> NumLit)
    ensures WriteItems([x]) == Write(x) && Meanings([x], norm) == [Meaning(x, norm)]
  {
    hide Write, Meaning;
    assert [x][1..] == [];
  }

  lemma {:induction false} OneMember(m: Member, acc: map<string, Json>, norm: NumLit -> NumLit)
    ensures WriteMembers([m]) == "\"" + Concat(m.pieces) + "\":" + Write(m.value)
    ensures Gather([m], acc, norm) == acc[m.key := Meaning(m.value, norm)]
  {
    hide Write, Meaning, Concat;
    assert [m][1..] == [];
  }

  lemma {:induction false} GatherMore(m: Member, more: seq<Member>, acc: map<string, Json>, norm: NumLit -> NumLit)
    ensures Gather([m] + more, acc, norm) == Gather(more, acc[m.key := Meaning(m.value, norm)], norm)
  {
    hide Meaning;
    assert ([m] + more)[1..] == more;
  }

  lemma {:induction false} MoreItems(x: Syntax, more: seq<Syntax>, rest: string, norm: NumLit -> NumLit)
    requires more != []
    ensures WriteItems([x] + more) + "]" + rest == Write(x) + ("," + (WriteItems(more) + "]" + rest))
    ensures Meanings([x] + more, norm) == [Meaning(x, norm)] + Meanings(more, norm)
  {
    hide Write, Meaning;
    assert ([x] + more)[1..] == more;
  }

  lemma {:induction false} MoreMembers(m: Member, more: seq<Member>, rest: string)
    requires more != []
    ensures WriteMembers([m] + more) + "}" + rest
         == "\"" + Concat(m.pieces) + "\":" + Write(m.value) + ("," + (WriteMembers(more) + "}" + rest))
  {
    hide Write, Concat;
    assert ([m] + more)[1..] == more;
  }

  lemma {:induction false} RecordIsWritten(s: string, norm: NumLit -> NumLit) returns (x: Syntax)
    requires ReadValue(s, norm).Some? && s[0] == '{'
    ensures Valid(x) && ReadValue(s, norm) == Some(Parsed(Meaning(x, norm), ReadValue(s, norm).value.rest))
    ensures s == Write(x) + ReadValue(s, norm).value.rest
    decreases |s|, 0
  {
    hide ReadValue, ReadMembers, Write, Meaning, Valid;
    var body := s[1..];
    x := Record([]);
    assert s == "{" + body;
    if body == "" {
      assert s == "{";
      BraceAlone(norm);
    } else {
      BracketReads(body, norm);
      var members := [];
      if body[0] != '}' {
        members := MembersAreWritten(body, map[], norm);
      }
      x := Record(members);
      RecordMeans(members, norm);
      assert body[0] == '}' ==> body == "" + "}" + body[1..];
    }
  }

  lemma {:induction false} RecordMeans(members: seq<Member>, norm: NumLit -> NumLit)
    ensures Write(Record(members)) == "{" + WriteMembers(members) + "}" && Meaning(Record(members), norm) == Obj(Gather(members, map[], norm))
    ensures Valid(Record(members)) <==> forall i :: 0 <= i < |members| ==> Spells(members[i].pieces, members[i].key) && Valid(members[i].value)
  {
    hide Spells, Concat;
  }

  lemma {:induction false} BraceAlone(norm: NumLit -> NumLit)
    ensures ReadValue("{", norm) == None
  {
    hide ReadChars;
    assert "{"[1..] == "" && ReadMembers("", map[], norm) == None;
  }

  lemma {:induction false} MembersAreWritten(s: string, acc: map<string, Json>, norm: NumLit -> NumLit) returns (members: seq<Member>)
    requires ReadMembers(s, acc, norm).Some?
    ensures members != [] && forall i :: 0 <= i < |members| ==> Spells(members[i].pieces, members[i].key) && Valid(members[i].value)
    ensures
      var p := ReadMembers(s, acc, norm).value;
      p.value == Obj(Gather(members, acc, norm)) && s == WriteMembers(members) + "}" + p.rest
    decreases |s|, 2
  {
    hide ReadValue, ReadChars, Write, Meaning, Valid, Spells, Concat, NumberRun, ReadItems, WriteMembers, Gather;
    var key, afterKey := ReadChars(s[1..]).value.value, ReadChars(s[1..]).value.rest;
    var pieces := OnlySpellingsRead(s[1..], key, afterKey);
    var x := ValueIsWritten(afterKey[1..], norm);
    var v, rest := ReadValue(afterKey[1..], norm).value.value, ReadValue(afterKey[1..], norm).value.rest;
    var m := Member(pieces, key, x);
    assert s == "\"" + s[1..] && afterKey == ":" + afterKey[1..];
    assert s == "\"" + Concat(pieces) + "\":" + Write(x) + rest;
    if rest[0] == '}' {
      members := [m];
      OneMember(m, acc, norm);
      assert rest == "}" + rest[1..];
    } else {
      var more := MembersAreWritten(rest[1..], acc[key := v], norm);
      members := [m] + more;
      GatherMore(m, more, acc, norm);
      assert rest == "," + rest[1..];
      MoreMembers(m, more, ReadMembers(s, acc, norm).value.rest);
    }
  }

  // ---------------------------------------------------------------- main result

  /** A text is read as v exactly when the grammar writes it and it means v. */
  lemma {:induction false} ParseIff(text: string, v: Json, norm: NumLit -> NumLit)
    ensures Parse(text, norm) == Some(v) <==> exists x :: Valid(x) && Write(x) == text && Meaning(x, norm) == v
  {
    hide ReadValue, Write, Meaning, Valid;
    if x :| Valid(x) && Write(x) == text && Meaning(x, norm) == v {
      WrittenReads(x, "", norm);
      assert text + "" == text;
    }
    if Parse(text, norm) == Some(v) {
      var x := ValueIsWritten(text, norm);
      assert Write(x) + "" == Write(x);
    }
  }
}
