/** The parser that turns D-Bus type signatures into Python type strings for the generated
    bindings (D-Bus Specification, section "Type System"). */
module DBusSignature {
  datatype Result<+T> = Ok(value: T) | Raised

  /** A Python type string and the number of characters the caller is told were read. */
  datatype Mapped = Mapped(name: string, read: nat)

  /** The basic types with their Python names, and which of them is the byte. */
  type Table = map<char, string>

  predicate IsTable(table: Table) {
    BYTE in table && 'a' !in table && '(' !in table && ')' !in table && '{' !in table && '}' !in table
  }

  const BYTE := 'y'

  // ---------------------------------------------------------------- the mappers

  function Join(names: seq<string>): string {
    if names == [] then ""
    else if |names| == 1 then names[0]
    else Join(names[..|names| - 1]) + ", " + names[|names| - 1]
  }

  function TupleName(names: seq<string>): string {
    "Tuple[" + Join(names) + "]"
  }

  function ListName(name: string): string {
    "List[" + name + "]"
  }

  function DictName(key: string, value: string): string {
    "Dict[" + key + ", " + value + "]"
  }

  /** A dictionary of variants has a name of its own. */
  function BasicDictName(key: string, value: string): string {
    if DictName(key, value) == "Dict[str, Variant]" then "Structure" else DictName(key, value)
  }

  /** An index past the end raises, as does using the result when no branch applies. */
  function MapArray(table: Table, s: string): (r: Result<Mapped>)
    ensures r.Ok? ==> r.value.read >= 2
    decreases |s|, 0
  {
    if |s| < 2 || s[0] != 'a' then Raised
    else if s[1] == BYTE then Ok(Mapped("bytes", 2))
    else if s[1] in table then Ok(Mapped(ListName(table[s[1]]), 2))
    else if s[1] == '(' then
      match MapStruct(table, s[1..])
      case Ok(m) => Ok(Mapped(ListName(m.name), m.read + 3))
      case Raised => Raised
    else if s[1] == '{' then
      if |s| < 4 || s[2] !in table then Raised
      else if s[3] in table then
        if |s| > 4 && s[4] == '}' then Ok(Mapped(BasicDictName(table[s[2]], table[s[3]]), 5)) else Raised
      else if s[3] == 'a' then
        match MapArray(table, s[3..])
        case Ok(m) => Ok(Mapped(DictName(table[s[2]], m.name), m.read + 4))
        case Raised => Raised
      else if s[3] == '(' then
        match MapStruct(table, s[3..])
        case Ok(m) => Ok(Mapped(DictName(table[s[2]], m.name), m.read + 6))
        case Raised => Raised
      else Raised
    else Raised
  }

  /** The count is that of the characters between the parentheses. */
  function MapStruct(table: Table, s: string): Result<Mapped>
    decreases |s|, |s| + 1
  {
    if |s| < 1 || s[0] != '(' then Raised
    else
      match MapFields(table, s, 1, [])
      case Ok((names, end)) => Ok(Mapped(TupleName(names), end - 1))
      case Raised => Raised
  }

  /** The types from position `i` to the closing parenthesis, and its position. */
  function MapFields(table: Table, s: string, i: nat, found: seq<string>): (r: Result<(seq<string>, nat)>)
    requires i >= 1
    ensures r.Ok? ==> i <= r.value.1 < |s| && s[r.value.1] == ')'
    decreases |s|, if i <= |s| then |s| - i else 0
  {
    if i >= |s| then Raised
    else if s[i] == ')' then Ok((found, i))
    else if s[i] in table then MapFields(table, s, i + 1, found + [table[s[i]]])
    else if s[i] == '(' then
      match MapStruct(table, s[i..])
      case Ok(m) => MapFields(table, s, i + m.read + 2, found + [m.name])
      case Raised => Raised
    else if s[i] == 'a' then
      match MapArray(table, s[i..])
      case Ok(m) => MapFields(table, s, i + m.read, found + [m.name])
      case Raised => Raised
    else Raised
  }

  /** What the parser returns: a type string, or the pair of an empty one and a count that it
      returns for the empty signature. */
  datatype Parsed = TypeString(name: string) | Pair(name: string, read: nat)

  /** parse_dbus_type_string: several types in a row are taken for the fields of a struct. */
  function Parse(table: Table, s: string): Result<Parsed> {
    if s == "" then Ok(Pair("", 0))
    else if |s| == 1 then if s[0] in table then Ok(TypeString(table[s[0]])) else Raised
    else if s[0] == '(' then NameOnly(MapStruct(table, s))
    else if s[0] == 'a' then NameOnly(MapArray(table, s))
    else NameOnly(MapStruct(table, "(" + s + ")"))
  }

  function NameOnly(r: Result<Mapped>): Result<Parsed> {
    match r
    case Ok(m) => Ok(TypeString(m.name))
    case Raised => Raised
  }

  // ---------------------------------------------------------------- types and how they are written

  /** The types the mappers know: an array holds a basic type, a struct, or dictionary entries
      with a basic key. */
  datatype Type =
    | Basic(c: char)
    | BasicArray(c: char)
    | StructArray(fields: seq<Type>)
    | Dict(key: char, value: Type)
    | Struct(fields: seq<Type>)

  predicate Known(table: Table, t: Type)
    decreases t
  {
    match t
    case Basic(c) => c in table
    case BasicArray(c) => c in table
    case StructArray(fields) => forall f :: f in fields ==> Known(table, f)
    case Dict(key, value) => key in table && Known(table, value)
    case Struct(fields) => forall f :: f in fields ==> Known(table, f)
  }

  function Print(t: Type): string
    decreases t
  {
    match t
    case Basic(c) => [c]
    case BasicArray(c) => ['a', c]
    case StructArray(fields) => "a(" + PrintAll(fields) + ")"
    case Dict(key, value) => "a{" + [key] + Print(value) + "}"
    case Struct(fields) => "(" + PrintAll(fields) + ")"
  }

  function PrintAll(ts: seq<Type>): string
    decreases ts
  {
    if ts == [] then "" else Print(ts[0]) + PrintAll(ts[1..])
  }

  function Name(table: Table, t: Type): string
    requires Known(table, t)
    decreases t
  {
    match t
    case Basic(c) => table[c]
    case BasicArray(c) => if c == BYTE then "bytes" else ListName(table[c])
    case StructArray(fields) => ListName(TupleName(Names(table, fields)))
    case Dict(key, value) =>
      if value.Basic? then
        assert Known(table, value);
        BasicDictName(table[key], table[value.c])
      else DictName(table[key], Name(table, value))
    case Struct(fields) => TupleName(Names(table, fields))
  }

  function Names(table: Table, ts: seq<Type>): (r: seq<string>)
    requires forall t :: t in ts ==> Known(table, t)
    ensures |r| == |ts|
    decreases ts
  {
    if ts == [] then [] else [Name(table, ts[0])] + Names(table, ts[1..])
  }

  // ---------------------------------------------------------------- what the mappers accept

  /** `s` begins with the written type, except that the closing brace after a dictionary value
      that is not basic may be any character, or missing: nobody looks at it. */
  predicate Begins(t: Type, s: string)
    decreases t
  {
    match t
    case Basic(c) => |s| >= 1 && s[0] == c
    case BasicArray(c) => |s| >= 2 && s[0] == 'a' && s[1] == c
    case StructArray(fields) => |s| >= 2 && s[0] == 'a' && s[1] == '(' && FieldsBegin(fields, s[2..])
    case Dict(key, value) =>
      |s| >= 4 && s[0] == 'a' && s[1] == '{' && s[2] == key && Begins(value, s[3..])
      && (value.Basic? ==> |s| >= 5 && s[4] == '}')
    case Struct(fields) => |s| >= 1 && s[0] == '(' && FieldsBegin(fields, s[1..])
  }

  /** `s` begins with the written fields and a closing parenthesis. */
  predicate FieldsBegin(ts: seq<Type>, s: string)
    decreases ts
  {
    if ts == [] then |s| >= 1 && s[0] == ')'
    else Begins(ts[0], s) && |Print(ts[0])| <= |s| && FieldsBegin(ts[1..], s[|Print(ts[0])|..])
  }

  predicate IsArray(t: Type) {
    t.BasicArray? || t.StructArray? || t.Dict?
  }

  /** The mapper for the type makes of `s` its Python name and the length it is written with. */
  ghost predicate ReadsAs(table: Table, t: Type, s: string)
    requires Known(table, t)
  {
    && s != ""
    && (t.Basic? ==> s[0] == t.c)
    && (IsArray(t) ==> s[0] == 'a' && MapArray(table, s) == Ok(Mapped(Name(table, t), |Print(t)|)))
    && (t.Struct? ==> s[0] == '(' && MapStruct(table, s) == Ok(Mapped(Name(table, t), |Print(t)| - 2)))
  }

  lemma {:induction false} Reads(table: Table, t: Type, s: string)
    requires IsTable(table) && Known(table, t) && Begins(t, s)
    ensures ReadsAs(table, t, s)
    decreases t, 1
  {
    match t
    case Basic(_) =>
    case BasicArray(c) =>
    case StructArray(fields) =>
      assert s[1..][1..] == s[2..];
      ReadsStruct(table, fields, s[1..]);
    case Struct(fields) => ReadsStruct(table, fields, s);
    case Dict(key, value) =>
      Reads(table, value, s[3..]);
      ReadsDict(table, key, value, s);
  }

  lemma ReadsDict(table: Table, key: char, value: Type, s: string)
    requires IsTable(table) && key in table && Known(table, value) && Begins(Dict(key, value), s)
    requires ReadsAs(table, value, s[3..])
    ensures ReadsAs(table, Dict(key, value), s)
  {
    assert s[3] == s[3..][0];
    assert Known(table, Dict(key, value));
  }

  lemma {:induction false} ReadsStruct(table: Table, fields: seq<Type>, s: string)
    requires IsTable(table) && forall f :: f in fields ==> Known(table, f)
    requires |s| >= 1 && s[0] == '(' && FieldsBegin(fields, s[1..])
    ensures ReadsAs(table, Struct(fields), s)
    decreases fields, 1
  {
    ReadsFields(table, fields, s, 1, []);
    StructEnds(table, fields, s);
  }

  lemma StructEnds(table: Table, fields: seq<Type>, s: string)
    requires forall f :: f in fields ==> Known(table, f)
    requires |s| >= 1 && s[0] == '('
    requires FieldsEnd(table, s, 1, [], [] + Names(table, fields), 1 + |PrintAll(fields)|)
    ensures ReadsAs(table, Struct(fields), s)
  {
    assert [] + Names(table, fields) == Names(table, fields);
  }

  /** All fields from `i` on are `names`, and the parenthesis is at `end`. */
  ghost predicate FieldsEnd(table: Table, s: string, i: nat, found: seq<string>, names: seq<string>, end: nat)
    requires i >= 1
  {
    var r := MapFields(table, s, i, found);
    r.Ok? && r.value.0 == names && r.value.1 == end
  }

  /** One field further. */
  lemma ReadsOneField(table: Table, t: Type, s: string, i: nat, found: seq<string>)
    requires IsTable(table) && Known(table, t) && 1 <= i <= |s| && ReadsAs(table, t, s[i..])
    ensures |Print(t)| >= 1
    ensures MapFields(table, s, i, found) == MapFields(table, s, i + |Print(t)|, found + [Name(table, t)])
  {
    assert s[i] == s[i..][0];
  }

  lemma FirstAndMore(table: Table, fields: seq<Type>, found: seq<string>)
    requires fields != [] && forall f :: f in fields ==> Known(table, f)
    ensures found + Names(table, fields) == found + [Name(table, fields[0])] + Names(table, fields[1..])
  {
    var more := Names(table, fields[1..]);
    assert Names(table, fields) == [Name(table, fields[0])] + more;
    assert found + ([Name(table, fields[0])] + more) == found + [Name(table, fields[0])] + more;
  }

  lemma LengthSum(fields: seq<Type>)
    requires fields != []
    ensures |PrintAll(fields)| == |Print(fields[0])| + |PrintAll(fields[1..])|
  {
  }

  lemma NoMoreFields(table: Table, s: string, i: nat, found: seq<string>)
    requires IsTable(table) && 1 <= i <= |s| && FieldsBegin([], s[i..])
    ensures FieldsEnd(table, s, i, found, found + [], i)
  {
    assert s[i] == s[i..][0] == ')';
    assert found + [] == found;
  }

  lemma {:induction false} ReadsFields(table: Table, fields: seq<Type>, s: string, i: nat, found: seq<string>)
    requires IsTable(table) && forall f :: f in fields ==> Known(table, f)
    requires 1 <= i <= |s| && FieldsBegin(fields, s[i..])
    ensures FieldsEnd(table, s, i, found, found + Names(table, fields), i + |PrintAll(fields)|)
    decreases fields, 0, 2
  {
    if fields == [] {
      NoMoreFields(table, s, i, found);
    } else {
      var t, more := fields[0], fields[1..];
      KnownParts(table, fields, t, more);
      MoreBegins(fields, t, more, s, i);
      ReadsMoreFields(table, fields, t, more, s, i, found);
      MoreEnds(table, fields, t, more, s, i, found);
    }
  }

  lemma KnownParts(table: Table, fields: seq<Type>, t: Type, more: seq<Type>)
    requires fields != [] && t == fields[0] && more == fields[1..]
    requires forall f :: f in fields ==> Known(table, f)
    ensures Known(table, t) && forall f :: f in more ==> Known(table, f)
  {
  }

  lemma MoreBegins(fields: seq<Type>, t: Type, more: seq<Type>, s: string, i: nat)
    requires fields != [] && t == fields[0] && more == fields[1..]
    requires i <= |s| && FieldsBegin(fields, s[i..])
    ensures Begins(t, s[i..]) && i + |Print(t)| <= |s|
    ensures FieldsBegin(more, s[i + |Print(t)|..])
  {
    assert s[i..][|Print(t)|..] == s[i + |Print(t)|..];
  }

  lemma {:induction false} ReadsField(table: Table, t: Type, s: string, i: nat, found: seq<string>)
    requires IsTable(table) && Known(table, t) && 1 <= i <= |s| && Begins(t, s[i..])
    ensures i + |Print(t)| >= 1
    ensures MapFields(table, s, i, found) == MapFields(table, s, i + |Print(t)|, found + [Name(table, t)])
    decreases t, 2
  {
    Reads(table, t, s[i..]);
    ReadsOneField(table, t, s, i, found);
  }

  lemma {:induction false} ReadsMoreFields(
    table: Table, fields: seq<Type>, t: Type, more: seq<Type>, s: string, i: nat, found: seq<string>)
    requires IsTable(table) && fields != [] && t == fields[0] && more == fields[1..]
    requires Known(table, t) && forall f :: f in more ==> Known(table, f)
    requires 1 <= i <= |s| && Begins(t, s[i..])
    requires i + |Print(t)| <= |s| && FieldsBegin(more, s[i + |Print(t)|..])
    ensures MapFields(table, s, i, found) == MapFields(table, s, i + |Print(t)|, found + [Name(table, t)])
    ensures FieldsEnd(table, s, i + |Print(t)|, found + [Name(table, t)],
                      found + [Name(table, t)] + Names(table, more), i + |Print(t)| + |PrintAll(more)|)
    decreases fields, 0, 1
  {
    ReadsField(table, t, s, i, found);
    ReadsFields(table, more, s, i + |Print(t)|, found + [Name(table, t)]);
  }

  /** The same end, said of all the fields. */
  lemma MoreEnds(
    table: Table, fields: seq<Type>, t: Type, more: seq<Type>, s: string, i: nat, found: seq<string>)
    requires i >= 1 && fields != [] && t == fields[0] && more == fields[1..]
    requires forall f :: f in fields ==> Known(table, f)
    requires MapFields(table, s, i, found) == MapFields(table, s, i + |Print(t)|, found + [Name(table, t)])
    requires FieldsEnd(table, s, i + |Print(t)|, found + [Name(table, t)],
                       found + [Name(table, t)] + Names(table, more), i + |Print(t)| + |PrintAll(more)|)
    ensures FieldsEnd(table, s, i, found, found + Names(table, fields), i + |PrintAll(fields)|)
  {
    var j, names := i + |Print(t)|, found + [Name(table, t)];
    SameEnd(table, s, i, found, j, names, names + Names(table, more), j + |PrintAll(more)|);
    FirstAndMore(table, fields, found);
    LengthSum(fields);
  }

  lemma SameEnd(table: Table, s: string, i: nat, found: seq<string>, j: nat, foundNext: seq<string>,
                names: seq<string>, end: nat)
    requires i >= 1 && j >= 1 && MapFields(table, s, i, found) == MapFields(table, s, j, foundNext)
    requires FieldsEnd(table, s, j, foundNext, names, end)
    ensures FieldsEnd(table, s, i, found, names, end)
  {
  }

  // ---- and nothing else

  lemma {:induction false} ArrayIsType(table: Table, s: string) returns (t: Type)
    requires IsTable(table) && MapArray(table, s).Ok?
    ensures Known(table, t) && IsArray(t) && Begins(t, s)
    decreases |s|, 0
  {
    if s[1] in table {
      t := BasicArray(s[1]);
    } else if s[1] == '(' {
      var fields := StructIsType(table, s[1..]);
      assert s[1..][1..] == s[2..];
      t := StructArray(fields);
    } else if s[3] in table {
      t := Dict(s[2], Basic(s[3]));
      assert s[3] == s[3..][0];
    } else if s[3] == 'a' {
      var value := ArrayIsType(table, s[3..]);
      t := Dict(s[2], value);
    } else {
      var fields := StructIsType(table, s[3..]);
      t := Dict(s[2], Struct(fields));
      assert Known(table, Struct(fields)) && Begins(Struct(fields), s[3..]);
    }
  }

  lemma {:induction false} StructIsType(table: Table, s: string) returns (fields: seq<Type>)
    requires IsTable(table) && MapStruct(table, s).Ok?
    ensures forall f :: f in fields ==> Known(table, f)
    ensures |s| >= 1 && s[0] == '(' && FieldsBegin(fields, s[1..])
    decreases |s|, |s| + 1
  {
    fields := FieldsAreTypes(table, s, 1, []);
  }

  lemma {:induction false} FieldsAreTypes(table: Table, s: string, i: nat, found: seq<string>)
    returns (fields: seq<Type>)
    requires IsTable(table) && i >= 1 && MapFields(table, s, i, found).Ok?
    ensures i < |s|
    ensures forall f :: f in fields ==> Known(table, f)
    ensures FieldsBegin(fields, s[i..])
    decreases |s|, if i <= |s| then |s| - i else 0
  {
    assert s[i] == s[i..][0];
    if s[i] == ')' {
      fields := [];
    } else {
      var t := FieldIsType(table, s, i, found);
      ReadsField(table, t, s, i, found);
      var next := i + |Print(t)|;
      var more := FieldsAreTypes(table, s, next, found + [Name(table, t)]);
      OneMoreField(t, more, s, i);
      fields := [t] + more;
    }
  }

  lemma OneMoreField(t: Type, more: seq<Type>, s: string, i: nat)
    requires i + |Print(t)| <= |s| && Begins(t, s[i..]) && FieldsBegin(more, s[i + |Print(t)|..])
    ensures FieldsBegin([t] + more, s[i..])
  {
    assert s[i..][|Print(t)|..] == s[i + |Print(t)|..];
    assert ([t] + more)[1..] == more;
  }

  lemma {:induction false} FieldIsType(table: Table, s: string, i: nat, found: seq<string>) returns (t: Type)
    requires IsTable(table) && i >= 1 && MapFields(table, s, i, found).Ok? && s[i] != ')'
    ensures Known(table, t) && Begins(t, s[i..])
    decreases |s|, 0
  {
    assert s[i] == s[i..][0];
    if s[i] == '(' {
      var inner := StructIsType(table, s[i..]);
      t := Struct(inner);
    } else if s[i] == 'a' {
      t := ArrayIsType(table, s[i..]);
    } else {
      t := Basic(s[i]);
    }
  }

  /** Exactly what the array mapper accepts, what it makes of it, and how far it says it read. */
  lemma ArrayExactly(table: Table, s: string, m: Mapped)
    requires IsTable(table)
    ensures MapArray(table, s) == Ok(m) <==>
      exists t :: Known(table, t) && IsArray(t) && Begins(t, s) && m == Mapped(Name(table, t), |Print(t)|)
  {
    if MapArray(table, s) == Ok(m) {
      var t := ArrayIsType(table, s);
      Reads(table, t, s);
    }
    if t :| Known(table, t) && IsArray(t) && Begins(t, s) && m == Mapped(Name(table, t), |Print(t)|) {
      Reads(table, t, s);
    }
  }

  lemma StructExactly(table: Table, s: string, m: Mapped)
    requires IsTable(table)
    ensures MapStruct(table, s) == Ok(m) <==>
      exists t :: Known(table, t) && t.Struct? && Begins(t, s) && m == Mapped(Name(table, t), |Print(t)| - 2)
  {
    if MapStruct(table, s) == Ok(m) {
      var fields := StructIsType(table, s);
      assert Known(table, Struct(fields)) && Begins(Struct(fields), s);
      Reads(table, Struct(fields), s);
    }
    if t :| Known(table, t) && t.Struct? && Begins(t, s) && m == Mapped(Name(table, t), |Print(t)| - 2) {
      Reads(table, t, s);
    }
  }

  // ---------------------------------------------------------------- round trip

  lemma PrintStart(t: Type)
    ensures |Print(t)| >= 1
    ensures IsArray(t) ==> |Print(t)| >= 2 && Print(t)[0] == 'a'
    ensures t.Struct? ==> |Print(t)| >= 2 && Print(t)[0] == '('
  {
  }

  lemma {:induction false} PrintBegins(t: Type, rest: string)
    ensures Begins(t, Print(t) + rest)
    decreases t, 1
  {
    match t
    case Basic(_) =>
    case BasicArray(_) =>
    case StructArray(fields) =>
      PrintAllBegins(fields, rest);
      StructBegins(fields, rest);
    case Dict(key, value) =>
      PrintBegins(value, "}" + rest);
      DictBegins(key, value, rest);
    case Struct(fields) =>
      PrintAllBegins(fields, rest);
      StructBegins(fields, rest);
  }

  lemma StructBegins(fields: seq<Type>, rest: string)
    requires FieldsBegin(fields, PrintAll(fields) + ")" + rest)
    ensures Begins(Struct(fields), Print(Struct(fields)) + rest)
    ensures Begins(StructArray(fields), Print(StructArray(fields)) + rest)
  {
    assert Print(Struct(fields)) + rest == ['('] + (PrintAll(fields) + ")" + rest);
    assert Print(StructArray(fields)) + rest == ['a', '('] + (PrintAll(fields) + ")" + rest);
  }

  lemma DictBegins(key: char, value: Type, rest: string)
    requires Begins(value, Print(value) + ("}" + rest))
    ensures Begins(Dict(key, value), Print(Dict(key, value)) + rest)
  {
    var s := Print(Dict(key, value)) + rest;
    PrintStart(value);
    assert s == ['a', '{', key] + (Print(value) + ("}" + rest));
    assert s[3..] == Print(value) + ("}" + rest);
    if value.Basic? {
      assert Print(value) == [value.c];
      assert s == ['a', '{', key, value.c, '}'] + rest;
    }
  }

  lemma {:induction false} PrintAllBegins(fields: seq<Type>, rest: string)
    ensures FieldsBegin(fields, PrintAll(fields) + ")" + rest)
    decreases fields, 0
  {
    if fields != [] {
      var s, more := PrintAll(fields) + ")" + rest, PrintAll(fields[1..]) + ")" + rest;
      assert s == Print(fields[0]) + more;
      PrintBegins(fields[0], more);
      PrintAllBegins(fields[1..], rest);
      assert s[|Print(fields[0])|..] == more;
    }
  }

  lemma ReadsBack(table: Table, t: Type, rest: string)
    requires IsTable(table) && Known(table, t)
    ensures ReadsAs(table, t, Print(t) + rest)
  {
    PrintBegins(t, rest);
    Reads(table, t, Print(t) + rest);
  }

  lemma ParsesBack(table: Table, t: Type)
    requires IsTable(table) && Known(table, t)
    ensures Parse(table, Print(t)) == Ok(TypeString(Name(table, t)))
  {
    ReadsBack(table, t, "");
    PrintStart(t);
    assert Print(t) + "" == Print(t);
  }

  /** Every supported type, read back from the way it is written, whatever follows: its Python
      name, and the count by which the callers move on to what follows. */
  lemma RoundTrip(table: Table, t: Type, rest: string)
    requires IsTable(table) && Known(table, t)
    ensures IsArray(t) ==> MapArray(table, Print(t) + rest) == Ok(Mapped(Name(table, t), |Print(t)|))
    ensures t.Struct? ==> MapStruct(table, Print(t) + rest) == Ok(Mapped(Name(table, t), |Print(t)| - 2))
    ensures Parse(table, Print(t)) == Ok(TypeString(Name(table, t)))
  {
    ReadsBack(table, t, rest);
    ParsesBack(table, t);
  }

  // ---- several types in a row

  /** What a signature of complete types stands for: nothing, the one type, or a tuple. */
  function Intended(table: Table, ts: seq<Type>): string
    requires forall t :: t in ts ==> Known(table, t)
  {
    if ts == [] then "" else if |ts| == 1 then Name(table, ts[0]) else TupleName(Names(table, ts))
  }

  lemma ParsesFirst(table: Table, ts: seq<Type>)
    requires IsTable(table) && |ts| >= 2 && forall t :: t in ts ==> Known(table, t)
    requires !ts[0].Basic?
    ensures Parse(table, PrintAll(ts)) == Ok(TypeString(Name(table, ts[0])))
  {
    var t := ts[0];
    assert PrintAll(ts) == Print(t) + PrintAll(ts[1..]);
    RoundTrip(table, t, PrintAll(ts[1..]));
    PrintStart(t);
    assert PrintAll(ts)[0] == Print(t)[0];
  }

  lemma ParsesAll(table: Table, ts: seq<Type>)
    requires IsTable(table) && |ts| >= 2 && forall t :: t in ts ==> Known(table, t)
    requires ts[0].Basic?
    ensures Parse(table, PrintAll(ts)) == Ok(TypeString(TupleName(Names(table, ts))))
  {
    var s := PrintAll(ts);
    assert Known(table, ts[0]);
    assert s == Print(ts[0]) + PrintAll(ts[1..]);
    assert PrintAll(ts[1..]) == Print(ts[1..][0]) + PrintAll(ts[1..][1..]);
    PrintStart(ts[1..][0]);
    assert s[0] == ts[0].c;
    PrintAllBegins(ts, "");
    assert ("(" + s + ")")[1..] == s + ")" + "";
    assert Known(table, Struct(ts)) && Begins(Struct(ts), "(" + s + ")");
    Reads(table, Struct(ts), "(" + s + ")");
  }

  lemma {:induction false} JoinIsLonger(names: seq<string>)
    requires names != []
    ensures |Join(names)| >= |names[0]|
  {
    if |names| > 1 {
      JoinIsLonger(names[..|names| - 1]);
    }
  }

  /** A row of types is understood as intended exactly if it is a single type or begins with a
      basic one and has more.  The empty row gives a pair instead of a type string, and of a
      longer row all but the first type are dropped without an error. */
  lemma ParsedAsIntended(table: Table, ts: seq<Type>)
    requires IsTable(table) && forall t :: t in ts ==> Known(table, t)
    ensures (Parse(table, PrintAll(ts)) == Ok(TypeString(Intended(table, ts))))
              <==> (|ts| == 1 || (|ts| > 1 && ts[0].Basic?))
    ensures ts == [] ==> Parse(table, PrintAll(ts)) == Ok(Pair("", 0))
    ensures |ts| > 1 && !ts[0].Basic? ==> Parse(table, PrintAll(ts)) == Ok(TypeString(Name(table, ts[0])))
  {
    if |ts| == 1 {
      assert PrintAll(ts) == Print(ts[0]) + "" == Print(ts[0]);
      RoundTrip(table, ts[0], "");
    } else if |ts| > 1 && ts[0].Basic? {
      ParsesAll(table, ts);
    } else if |ts| > 1 {
      ParsesFirst(table, ts);
      JoinIsLonger(Names(table, ts));
      assert Names(table, ts)[0] == Name(table, ts[0]);
    }
  }

  /** How some signatures are written in Python. */
  lemma WrittenInPython(table: Table)
    requires IsTable(table) && 's' in table && 'i' in table && 'v' in table
    requires table['s'] == "str" && table['i'] == "Int" && table['v'] == "Variant"
    ensures Parse(table, "as") == Ok(TypeString("List[str]"))
    ensures Parse(table, "ay") == Ok(TypeString("bytes"))
    ensures Parse(table, "a{ss}") == Ok(TypeString("Dict[str, str]"))
    ensures Parse(table, "a{sv}") == Ok(TypeString("Structure"))
    ensures Parse(table, "a{sas}") == Ok(TypeString("Dict[str, List[str]]"))
    ensures Parse(table, "(si)") == Ok(TypeString("Tuple[str, Int]"))
  {
    ListInPython(table);
    DictInPython(table);
    PairInPython(table);
  }

  lemma ListInPython(table: Table)
    requires IsTable(table) && 's' in table && table['s'] == "str"
    ensures Parse(table, "as") == Ok(TypeString("List[str]")) && Parse(table, "ay") == Ok(TypeString("bytes"))
    ensures Parse(table, "a{sas}") == Ok(TypeString("Dict[str, List[str]]"))
  {
    assert ListName("str") == "List[str]" && DictName("str", "List[str]") == "Dict[str, List[str]]";
    assert "a{sas}"[3..] == "as}";
  }

  lemma DictInPython(table: Table)
    requires IsTable(table) && 's' in table && 'v' in table && table['s'] == "str" && table['v'] == "Variant"
    ensures Parse(table, "a{ss}") == Ok(TypeString("Dict[str, str]"))
    ensures Parse(table, "a{sv}") == Ok(TypeString("Structure"))
  {
    assert DictName("str", "str") == "Dict[str, str]" && DictName("str", "Variant") == "Dict[str, Variant]";
    assert |"Dict[str, str]"| != |"Dict[str, Variant]"|;
  }

  lemma PairInPython(table: Table)
    requires IsTable(table) && 's' in table && 'i' in table && table['s'] == "str" && table['i'] == "Int"
    ensures Parse(table, "(si)") == Ok(TypeString("Tuple[str, Int]"))
  {
    assert MapFields(table, "(si)", 3, [] + ["str"] + ["Int"]) == Ok(([] + ["str"] + ["Int"], 3));
    assert [] + ["str"] + ["Int"] == ["str", "Int"] && ["str", "Int"][..1] == ["str"];
    assert TupleName(["str", "Int"]) == "Tuple[str, Int]";
  }

  /** The pair is returned for the empty signature and for no other. */
  lemma PairExactly(table: Table, s: string)
    requires IsTable(table)
    ensures Parse(table, s).Ok? && Parse(table, s).value.Pair? <==> s == ""
    ensures Parse(table, "") == Ok(Pair("", 0))
  {
  }

  /** An array of arrays is a valid signature, but not one the mappers know. */
  lemma ArrayOfArrays(table: Table, s: string)
    requires IsTable(table) && |s| >= 2 && s[0] == 'a' && s[1] == 'a'
    ensures MapArray(table, s) == Raised && Parse(table, s) == Raised
  {
  }

  /** Any character does for the brace after a dictionary value that is not basic. */
  lemma ClosingBraceUnchecked(table: Table, key: char, value: Type, close: char, rest: string)
    requires IsTable(table) && key in table && Known(table, value) && !value.Basic?
    ensures MapArray(table, "a{" + [key] + Print(value) + [close] + rest)
            == MapArray(table, "a{" + [key] + Print(value) + "}" + rest)
    ensures MapArray(table, "a{" + [key] + Print(value) + [close] + rest).Ok?
  {
    var t := Dict(key, value);
    AnyClose(table, key, value, [close] + rest);
    AnyClose(table, key, value, "}" + rest);
    assert "a{" + [key] + Print(value) + [close] + rest == ['a', '{', key] + (Print(value) + ([close] + rest));
    assert "a{" + [key] + Print(value) + "}" + rest == ['a', '{', key] + (Print(value) + ("}" + rest));
  }

  lemma AnyClose(table: Table, key: char, value: Type, rest: string)
    requires IsTable(table) && key in table && Known(table, value) && !value.Basic?
    ensures Known(table, Dict(key, value))
    ensures MapArray(table, ['a', '{', key] + (Print(value) + rest))
            == Ok(Mapped(Name(table, Dict(key, value)), |Print(Dict(key, value))|))
  {
    var s := ['a', '{', key] + (Print(value) + rest);
    assert s[3..] == Print(value) + rest;
    PrintBegins(value, rest);
    assert Begins(Dict(key, value), s);
    Reads(table, Dict(key, value), s);
  }

  // ---------------------------------------------------------------- the code of the struct mapper

  /** _map_dbus_struct_to_pytype_string: a loop over the fields that collects their names. */
  method MapStructLoop(table: Table, s: string) returns (r: Result<Mapped>)
    ensures r == MapStruct(table, s)
  {
    if |s| < 1 || s[0] != '(' {
      return Raised;
    }
    var found: seq<string> := [];
    var j := -1;
    var i := 1;
    ghost var fields := MapFields(table, s, i, found);
    while i < |s|
      invariant i >= 1 && j == -1
      invariant fields == MapFields(table, s, i, found)
      decreases |s| - i
    {
      var c := s[i];
      if c == ')' {
        j := i - 1;
        break;
      }
      if c in table {
        found, i := found + [table[c]], i + 1;
      } else if c == '(' {
        var m := MapStruct(table, s[i..]);
        if m.Raised? {
          return Raised;
        }
        found, i := found + [m.value.name], i + m.value.read + 2;
      } else if c == 'a' {
        var m := MapArray(table, s[i..]);
        if m.Raised? {
          return Raised;
        }
        found, i := found + [m.value.name], i + m.value.read;
      } else {
        return Raised;
      }
    }
    if j == -1 {
      return Raised;
    }
    return Ok(Mapped(TupleName(found), j));
  }
}
