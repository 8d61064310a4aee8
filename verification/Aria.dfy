/** An accessibility snapshot, read into the list of elements a Bot can act on. */
module Aria {
  import opened Text

  // ----- the descriptor of one element -----

  datatype Descriptor = Descriptor(role: string, name: string, flags: map<string, string>)

  predicate EndsRole(c: char) {
    c == ' ' || c == '"' || c == '['
  }

  /** How far the role runs. */
  function RoleLength(s: string): (n: nat)
    ensures n <= |s|
  {
    if s == [] || EndsRole(s[0]) then 0 else 1 + RoleLength(s[1..])
  }

  datatype Scanned = Scanned(collected: string, rest: string)

  /** From inside a quote to behind the closing one; a backslash takes the next character as it is. */
  function Quoted(s: string): (r: Scanned)
    ensures |r.rest| <= |s|
  {
    if s == [] then Scanned("", "")
    else if s[0] == '"' then Scanned("", s[1..])
    else if s[0] == '\\' && |s| > 1 then
      var r := Quoted(s[2..]);
      Scanned([s[1]] + r.collected, r.rest)
    else
      var r := Quoted(s[1..]);
      Scanned([s[0]] + r.collected, r.rest)
  }

  /** From inside a bracket to behind the closing one. */
  function Bracketed(s: string): (r: Scanned)
    ensures |r.rest| <= |s|
  {
    if s == [] then Scanned("", "")
    else if s[0] == ']' then Scanned("", s[1..])
    else
      var r := Bracketed(s[1..]);
      Scanned([s[0]] + r.collected, r.rest)
  }

  /** `indexOf("=")`; the length when there is none. */
  function EqualsAt(s: string): (n: nat)
    ensures n <= |s| && (n < |s| ==> s[n] == '=')
  {
    if s == [] || s[0] == '=' then 0 else 1 + EqualsAt(s[1..])
  }

  function SetFlag(flags: map<string, string>, collected: string): map<string, string> {
    var n := EqualsAt(collected);
    if n == |collected| then flags[Trim(collected) := ""] else flags[Trim(collected[..n]) := Trim(collected[n + 1..])]
  }

  datatype Read = Read(name: string, flags: map<string, string>)

  /** The rest of a descriptor: the last quoted name, and every bracketed flag. */
  function ReadRest(s: string, sofar: Read): Read
    decreases |s|
  {
    if s == [] then sofar
    else if s[0] == '"' then
      var r := Quoted(s[1..]);
      ReadRest(r.rest, sofar.(name := r.collected))
    else if s[0] == '[' then
      var r := Bracketed(s[1..]);
      ReadRest(r.rest, sofar.(flags := SetFlag(sofar.flags, r.collected)))
    else ReadRest(s[1..], sofar)
  }

  function Parsed(text: string): Option<Descriptor> {
    var s := Trim(text);
    var n := RoleLength(s);
    if n == 0 then None
    else
      var read := ReadRest(s[n..], Read("", map[]));
      Some(Descriptor(s[..n], read.name, read.flags))
  }

  function From(s: string, index: nat): string {
    if index <= |s| then s[index..] else ""
  }

  /** One turn inside a quote, from an index of the text. */
  lemma QuoteOn(s: string, index: nat)
    requires index < |s|
    ensures s[index] == '"' ==> Quoted(s[index..]) == Scanned("", From(s, index + 1))
    ensures s[index] != '"' ==>
      var taken := if s[index] == '\\' && index + 1 < |s| then index + 1 else index;
      var r := Quoted(s[taken + 1..]);
      Quoted(s[index..]) == Scanned([s[taken]] + r.collected, r.rest)
  {
    assert s[index..][1..] == s[index + 1..];
    if index + 1 < |s| { assert s[index..][2..] == s[index + 2..]; }
  }

  lemma Gathered(collected: string, c: char, rest: string)
    ensures collected + ([c] + rest) == (collected + [c]) + rest
  {
  }

  /** One character of the name: where it is taken from, and what is left. */
  method ScanCharacter(s: string, index: nat, ghost collected: string) returns (c: char, past: nat)
    requires index < |s| && s[index] != '"'
    ensures index < past <= |s|
    ensures collected + Quoted(s[index..]).collected == (collected + [c]) + Quoted(s[past..]).collected
    ensures Quoted(s[index..]).rest == Quoted(s[past..]).rest
  {
    QuoteOn(s, index);
    if s[index] == '\\' && index + 1 < |s| {
      c, past := s[index + 1], index + 2;
    } else {
      c, past := s[index], index + 1;
    }
    Gathered(collected, c, Quoted(s[past..]).collected);
  }

  /** Past the closing quote of the name that starts at an index, which may be past the end. */
  method ScanName(s: string, start: nat) returns (collected: string, index: nat)
    requires start <= |s|
    ensures index > start && Quoted(s[start..]) == Scanned(collected, From(s, index))
  {
    index, collected := start, "";
    ghost var whole := Quoted(s[start..]);
    while index < |s| && s[index] != '"'
      invariant start <= index <= |s|
      invariant whole.collected == collected + Quoted(s[index..]).collected && whole.rest == Quoted(s[index..]).rest
    {
      var c;
      c, index := ScanCharacter(s, index, collected);
      collected := collected + [c];
    }
    if index < |s| { QuoteOn(s, index); }
    index := index + 1;
  }

  method ScanFlag(s: string, start: nat) returns (collected: string, index: nat)
    requires start <= |s|
    ensures index > start && Bracketed(s[start..]) == Scanned(collected, From(s, index))
  {
    index, collected := start, "";
    while index < |s| && s[index] != ']'
      invariant start <= index <= |s|
      invariant Bracketed(s[start..]) == Scanned(collected + Bracketed(s[index..]).collected, Bracketed(s[index..]).rest)
    {
      assert s[index..][1..] == s[index + 1..];
      collected := collected + [s[index]];
      index := index + 1;
    }
    assert index < |s| ==> s[index..][1..] == s[index + 1..];
    index := index + 1;
  }

  /** The role runs up to the first space, quote or bracket. */
  method ScanRole(s: string) returns (index: nat)
    ensures index == RoleLength(s)
  {
    index := 0;
    while index < |s| && !EndsRole(s[index])
      invariant index <= |s| && RoleLength(s) == index + RoleLength(s[index..])
    {
      assert s[index..][1..] == s[index + 1..];
      index := index + 1;
    }
  }

  /** One turn of the scan, from an index of the text. */
  lemma ReadOn(s: string, index: nat, read: Read)
    requires index < |s|
    ensures ReadRest(s[index..], read) ==
      if s[index] == '"' then ReadRest(Quoted(s[index + 1..]).rest, read.(name := Quoted(s[index + 1..]).collected))
      else if s[index] == '[' then ReadRest(Bracketed(s[index + 1..]).rest,
        read.(flags := SetFlag(read.flags, Bracketed(s[index + 1..]).collected)))
      else ReadRest(s[index + 1..], read)
  {
    assert s[index..][1..] == s[index + 1..];
  }

  /** The body of the scan's loop. */
  method ScanOne(s: string, index: nat, read: Read) returns (past: nat, read': Read)
    requires index < |s|
    ensures past > index && ReadRest(From(s, past), read') == ReadRest(s[index..], read)
  {
    ReadOn(s, index, read);
    past, read' := index + 1, read;
    if s[index] == '"' {
      var name;
      name, past := ScanName(s, index + 1);
      read' := read.(name := name);
    } else if s[index] == '[' {
      var collected;
      collected, past := ScanFlag(s, index + 1);
      read' := read.(flags := SetFlag(read.flags, collected));
    }
  }

  method ScanRest(s: string, start: nat) returns (read: Read)
    requires start <= |s|
    ensures read == ReadRest(s[start..], Read("", map[]))
  {
    var index := start;
    read := Read("", map[]);
    ghost var whole := ReadRest(s[start..], read);
    while index < |s|
      invariant ReadRest(From(s, index), read) == whole
      decreases |s| - index
    {
      index, read := ScanOne(s, index, read);
    }
  }

  method ParseDescriptor(text: string) returns (descriptor: Option<Descriptor>)
    ensures descriptor == Parsed(text)
  {
    var trimmed := Trim(text);
    if trimmed == "" { return None; }
    var index := ScanRole(trimmed);
    var role := trimmed[..index];
    if role == "" { return None; }
    var read := ScanRest(trimmed, index);
    descriptor := Some(Descriptor(role, read.name, read.flags));
  }

  // ----- printing, and reading it back -----

  datatype Flag = Flag(key: string, value: string)

  function FlagText(flag: Flag): string {
    if flag.value == "" then flag.key else flag.key + "=" + flag.value
  }

  function FlagsText(flags: seq<Flag>): string {
    if flags == [] then "" else " [" + (FlagText(flags[0]) + ("]" + FlagsText(flags[1..])))
  }

  /** An element's descriptor as it is printed: role, quoted name, flags. */
  function Printed(role: string, name: string, flags: seq<Flag>): string {
    role + (" \"" + (Escaped(name) + ("\"" + FlagsText(flags))))
  }

  predicate PlainRole(role: string) {
    role != "" && forall c | c in role :: !EndsRole(c) && !IsSpace(c)
  }

  predicate PlainFlag(flag: Flag) {
    && ']' !in flag.key && '=' !in flag.key && ']' !in flag.value
    && Trim(flag.key) == flag.key && Trim(flag.value) == flag.value
  }

  /** The flags as a map: of two with one key the later counts. */
  function FlagMap(flags: seq<Flag>, sofar: map<string, string>): map<string, string>
    decreases |flags|
  {
    if flags == [] then sofar else FlagMap(flags[1..], sofar[flags[0].key := flags[0].value])
  }

  /** A character as it stands inside a quote. */
  function Escape(c: char): string {
    if c == '"' || c == '\\' then ['\\', c] else [c]
  }

  function Escaped(name: string): string {
    if name == [] then "" else Escape(name[0]) + Escaped(name[1..])
  }

  lemma EscapeIsRead(c: char, tail: string)
    requires tail != ""
    ensures Quoted(Escape(c) + tail) == Scanned([c] + Quoted(tail).collected, Quoted(tail).rest)
  {
    var s := Escape(c) + tail;
    if c == '"' || c == '\\' {
      assert s[0] == '\\' && s[1] == c && s[2..] == tail;
    } else {
      assert s[0] == c && s[1..] == tail;
    }
  }

  lemma {:induction false} EscapedIsRead(name: string, rest: string)
    ensures Quoted(Escaped(name) + ("\"" + rest)) == Scanned(name, rest)
  {
    var closing := "\"" + rest;
    if name == [] {
      assert Escaped(name) + closing == closing && closing[0] == '"' && closing[1..] == rest;
    } else {
      var tail := Escaped(name[1..]) + closing;
      EscapedIsRead(name[1..], rest);
      EscapeIsRead(name[0], tail);
      assert Escaped(name) + closing == Escape(name[0]) + tail;
      assert name == [name[0]] + name[1..];
    }
  }

  lemma {:induction false} BracketIsRead(body: string, rest: string)
    requires ']' !in body
    ensures Bracketed(body + ("]" + rest)) == Scanned(body, rest)
  {
    var s := body + ("]" + rest);
    if body == [] {
      assert s[0] == ']' && s[1..] == rest;
    } else {
      BracketIsRead(body[1..], rest);
      assert s[0] == body[0] && s[0] in body && s[1..] == body[1..] + ("]" + rest);
      assert body == [body[0]] + body[1..];
    }
  }

  lemma {:induction false} EqualsAfter(key: string, rest: string)
    requires '=' !in key && (rest == "" || rest[0] == '=')
    ensures EqualsAt(key + rest) == |key|
  {
    if key == [] {
      assert key + rest == rest;
    } else {
      EqualsAfter(key[1..], rest);
      assert key[0] in key && (key + rest)[1..] == key[1..] + rest;
    }
  }

  lemma FlagIsSet(flag: Flag, flags: map<string, string>)
    requires PlainFlag(flag)
    ensures SetFlag(flags, FlagText(flag)) == flags[flag.key := flag.value]
  {
    if flag.value == "" {
      assert flag.key + "" == flag.key;
      EqualsAfter(flag.key, "");
    } else {
      var text := FlagText(flag);
      assert text == flag.key + ("=" + flag.value);
      EqualsAfter(flag.key, "=" + flag.value);
      assert text[..|flag.key|] == flag.key && text[|flag.key| + 1..] == flag.value;
    }
  }

  lemma BetweenIsSkipped(s: string, rest: string, sofar: Read)
    requires s == " " + rest
    ensures ReadRest(s, sofar) == ReadRest(rest, sofar)
  {
    assert s[0] == ' ' && s[1..] == rest;
  }

  lemma FlagIsRead(s: string, flag: Flag, rest: string, sofar: Read)
    requires PlainFlag(flag) && s == "[" + (FlagText(flag) + ("]" + rest))
    ensures ReadRest(s, sofar) == ReadRest(rest, sofar.(flags := sofar.flags[flag.key := flag.value]))
  {
    assert s[0] == '[' && s[1..] == FlagText(flag) + ("]" + rest);
    BracketIsRead(FlagText(flag), rest);
    FlagIsSet(flag, sofar.flags);
  }

  lemma FirstFlagIsRead(s: string, flag: Flag, rest: string, sofar: Read)
    requires PlainFlag(flag) && s == " [" + (FlagText(flag) + ("]" + rest))
    ensures ReadRest(s, sofar) == ReadRest(rest, sofar.(flags := sofar.flags[flag.key := flag.value]))
  {
    var bracket := "[" + (FlagText(flag) + ("]" + rest));
    assert " [" == " " + "[" && s == " " + bracket;
    BetweenIsSkipped(s, bracket, sofar);
    FlagIsRead(bracket, flag, rest, sofar);
  }

  lemma NameIsRead(s: string, name: string, rest: string, sofar: Read)
    requires s == "\"" + (Escaped(name) + ("\"" + rest))
    ensures ReadRest(s, sofar) == ReadRest(rest, sofar.(name := name))
  {
    assert s[0] == '"' && s[1..] == Escaped(name) + ("\"" + rest);
    EscapedIsRead(name, rest);
  }

  lemma {:induction false} FlagsAreRead(flags: seq<Flag>, sofar: Read)
    requires forall flag | flag in flags :: PlainFlag(flag)
    ensures ReadRest(FlagsText(flags), sofar) == sofar.(flags := FlagMap(flags, sofar.flags))
    decreases |flags|
  {
    if flags != [] {
      var first := flags[0];
      assert first in flags && forall flag | flag in flags[1..] :: flag in flags;
      FirstFlagIsRead(FlagsText(flags), first, FlagsText(flags[1..]), sofar);
      FlagsAreRead(flags[1..], sofar.(flags := sofar.flags[first.key := first.value]));
    }
  }

  lemma {:induction false} RoleIsRead(role: string, rest: string)
    requires (forall c | c in role :: !EndsRole(c)) && (rest == "" || EndsRole(rest[0]))
    ensures RoleLength(role + rest) == |role|
  {
    if role == [] {
      assert role + rest == rest;
    } else {
      RoleIsRead(role[1..], rest);
      assert role[0] in role && (role + rest)[1..] == role[1..] + rest;
    }
  }

  /** What is printed is read back: the role, the name whatever it holds, and the flags. */
  lemma PrintedIsParsed(role: string, name: string, flags: seq<Flag>)
    requires PlainRole(role) && forall flag | flag in flags :: PlainFlag(flag)
    ensures Parsed(Printed(role, name, flags)) == Some(Descriptor(role, name, FlagMap(flags, map[])))
  {
    var s := Printed(role, name, flags);
    var quoted := "\"" + (Escaped(name) + ("\"" + FlagsText(flags)));
    PrintedEnds(role, name, flags);
    TrimNothing(s);
    assert s == role + (" " + quoted);
    RoleIsRead(role, " " + quoted);
    assert s[..|role|] == role && s[|role|..] == " " + quoted;
    BetweenIsSkipped(" " + quoted, quoted, Read("", map[]));
    NameIsRead(quoted, name, FlagsText(flags), Read("", map[]));
    FlagsAreRead(flags, Read(name, map[]));
  }

  /** So is what is printed without a name. */
  lemma UnnamedIsParsed(role: string, flags: seq<Flag>)
    requires PlainRole(role) && forall flag | flag in flags :: PlainFlag(flag)
    ensures Parsed(role + FlagsText(flags)) == Some(Descriptor(role, "", FlagMap(flags, map[])))
  {
    var rest := FlagsText(flags);
    var s := role + rest;
    assert role[0] in role && role[|role| - 1] in role;
    FlagsEnd(flags);
    assert flags == [] ==> s == role;
    assert flags != [] ==> rest[|rest| - 1] == ("\"" + rest)[|rest|] == ']';
    TrimNothing(s);
    RoleIsRead(role, rest);
    assert s[..|role|] == role && s[|role|..] == rest;
    FlagsAreRead(flags, Read("", map[]));
  }

  /** Only a text that is blank, or begins with a quote or a bracket, describes nothing. */
  lemma NothingWithoutARole(text: string)
    ensures Parsed(text).None? <==> Trim(text) == "" || EndsRole(Trim(text)[0])
  {
  }

  lemma PrintedEnds(role: string, name: string, flags: seq<Flag>)
    requires PlainRole(role)
    ensures var s := Printed(role, name, flags); s != [] && !IsSpace(s[0]) && !IsSpace(s[|s| - 1])
  {
    assert role[0] in role;
    FlagsEnd(flags);
  }

  lemma {:induction false} FlagsEnd(flags: seq<Flag>)
    ensures var s := "\"" + FlagsText(flags); s[|s| - 1] == if flags == [] then '"' else ']'
  {
    if flags != [] { FlagsEnd(flags[1..]); }
  }

  /** Flags with different keys are all there, and nothing else is. */
  lemma {:induction false} DistinctFlagsAreKept(flags: seq<Flag>, sofar: map<string, string>)
    requires forall i, j | 0 <= i < j < |flags| :: flags[i].key != flags[j].key
    requires forall flag | flag in flags :: flag.key !in sofar
    ensures var all := FlagMap(flags, sofar);
      && (forall flag | flag in flags :: flag.key in all && all[flag.key] == flag.value)
      && (forall key | key in sofar :: key in all && all[key] == sofar[key])
      && forall key | key in all :: key in sofar || exists flag | flag in flags :: flag.key == key
    decreases |flags|
  {
    if flags != [] {
      var longer := sofar[flags[0].key := flags[0].value];
      assert forall k | 0 <= k < |flags[1..]| :: flags[1..][k] == flags[k + 1];
      DistinctFlagsAreKept(flags[1..], longer);
      assert flags == [flags[0]] + flags[1..];
    }
  }
}
