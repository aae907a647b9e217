/**
 Renaming the fields of an imported JSON value so that all of them are accepted: names that are
 accepted stay, others are slugified and prefixed, and prefixed further while the new name is
 already a field of the same object.  The slugifier belongs to another library, so it is a parameter.
 */
module ValidJson {
  import opened Common

  const MAX_FIELD_NAME_LENGTH: nat := 1024
  const DUPLICATE_FIELD_LIMIT: nat := 3

  /** An object keeps the order in which its fields were first inserted. */
  datatype Json = Leaf(text: string) | Array(items: seq<Json>) | Object(fields: seq<Field>)

  datatype Field = Field(name: string, value: Json)

  // ------------------------------------------------------------------ field names

  /** ASCII, not a control character. */
  predicate Printable(c: char) {
    ' ' <= c <= '~'
  }

  predicate IsFieldName(s: string) {
    !(s != "" && s[0] == '$') && |s| <= MAX_FIELD_NAME_LENGTH && forall i :: 0 <= i < |s| ==> Printable(s[i])
  }

  /** The rules for field names: at most 1024 printable ASCII characters, the first not a dollar sign. */
  ghost predicate NameRules(s: string) {
    |s| <= 1024 && (s != "" ==> s[0] != '$') && forall i :: 0 <= i < |s| ==> 0x20 <= s[i] as int < 0x7F
  }

  /** The vectorised form, sixteen characters at a time, decides the same. */
  method IsValidFieldName(s: string) returns (ok: bool)
    ensures ok == IsFieldName(s)
    ensures ok <==> NameRules(s)
  {
    if s != "" && s[0] == '$' {
      return false;
    }
    if |s| > MAX_FIELD_NAME_LENGTH {
      return false;
    }
    var chunks := |s| / 16;
    for j := 0 to chunks
      invariant forall i :: 0 <= i < 16 * j ==> Printable(s[i])
    {
      var bad := seq(16, t requires 0 <= t < 16 => !Printable(s[16 * j + t]));
      if bad != seq(16, t => false) {
        var t :| 0 <= t < 16 && bad[t];
        assert !Printable(s[16 * j + t]);
        return false;
      }
      forall i | 16 * j <= i < 16 * j + 16 ensures Printable(s[i]) {
        assert !bad[i - 16 * j];
      }
    }
    for i := 16 * chunks to |s|
      invariant forall m :: 0 <= m < i ==> Printable(s[m])
    {
      if !Printable(s[i]) {
        return false;
      }
    }
    ok := true;
  }

  predicate IsSystem(s: string) {
    s != "" && s[0] == '_'
  }

  /** A name that an import keeps as it is. */
  predicate Accepted(s: string) {
    IsFieldName(s) && !IsSystem(s)
  }

  function Prefixed(s: string): string {
    "source_" + s
  }

  function ValidIdentifier(slug: string -> string, s: string): Option<string> {
    if Accepted(s) then Some(s)
    else if IsFieldName(Prefixed(slug(s))) then Some(Prefixed(slug(s)))
    else None
  }

  // ------------------------------------------------------------------ choosing a name

  function Search(keys: set<string>, name: string, modified: bool, tries: nat): Option<string>
    decreases tries
  {
    if tries == 0 then None
    else if modified != (name in keys) then Some(name)
    else Search(keys, Prefixed(name), true, tries - 1)
  }

  function Chosen(slug: string -> string, keys: set<string>, field: string): Option<string> {
    match ValidIdentifier(slug, field)
    case None => None
    case Some(name) => Search(keys, name, name != field, DUPLICATE_FIELD_LIMIT)
  }

  /** `m` times the prefix, then `s`. */
  function Sourced(m: nat, s: string): string {
    if m == 0 then s else "source_" + Sourced(m - 1, s)
  }

  /**
   A name that obeys the rules and does not start with an underscore stays; any other becomes its slug
   with the prefix once, twice or three times, whichever is first not the name of a field.
   */
  ghost predicate ChosenByRules(slug: string -> string, keys: set<string>, field: string, r: Option<string>) {
    if NameRules(field) && (field != "" ==> field[0] != '_') then r == Some(field)
    else
      var t := slug(field);
      if !NameRules("source_" + t) then r == None
      else if Sourced(1, t) !in keys then r == Some(Sourced(1, t))
      else if Sourced(2, t) !in keys then r == Some(Sourced(2, t))
      else if Sourced(3, t) !in keys then r == Some(Sourced(3, t))
      else r == None
  }

  lemma SourcedOnce(m: nat, s: string)
    ensures Sourced(0, s) == s && Sourced(m + 1, s) == Prefixed(Sourced(m, s))
  {
  }

  lemma ChosenFollowsRules(slug: string -> string, keys: set<string>, field: string)
    requires field in keys
    ensures ChosenByRules(slug, keys, field, Chosen(slug, keys, field))
  {
    var t := slug(field);
    assert IsFieldName(field) <==> NameRules(field);
    assert IsFieldName("source_" + t) <==> NameRules("source_" + t);
    var a := Sourced(1, t);
    var b := Sourced(2, t);
    SourcedOnce(0, t);
    SourcedOnce(1, t);
    SourcedOnce(2, t);
    assert Search(keys, a, true, 3) == if a !in keys then Some(a) else Search(keys, b, true, 2);
    assert Search(keys, b, true, 2) == if b !in keys then Some(b) else Search(keys, Sourced(3, t), true, 1);
  }

  method Choose(slug: string -> string, keys: set<string>, field: string) returns (r: Option<string>)
    ensures r == Chosen(slug, keys, field)
    ensures field in keys ==> ChosenByRules(slug, keys, field, r)
  {
    if field in keys {
      ChosenFollowsRules(slug, keys, field);
    }
    var valid := ValidIdentifier(slug, field);
    if valid.None? {
      return None;
    }
    var name := valid.value;
    var modified := name != field;
    for i := 0 to DUPLICATE_FIELD_LIMIT
      invariant Chosen(slug, keys, field) == Search(keys, name, modified, DUPLICATE_FIELD_LIMIT - i)
    {
      if modified != (name in keys) {
        return Some(name);
      }
      name := Prefixed(name);
      modified := true;
    }
    r := None;
  }

  function Prefixes(s: string, j: nat): string
    decreases j
  {
    if j == 0 then s else Prefixes(Prefixed(s), j - 1)
  }

  /** The first prefixed form of `name` that is not a field. */
  predicate FirstFree(keys: set<string>, name: string, j: nat) {
    Prefixes(name, j) !in keys && forall i :: 0 <= i < j ==> Prefixes(name, i) in keys
  }

  /** The search stops at the first free form, or fails when none of the tries is free. */
  lemma {:induction false} SearchFindsFirstFree(keys: set<string>, name: string, tries: nat) returns (j: nat)
    ensures var r := Search(keys, name, true, tries);
            if r.Some? then j < tries && FirstFree(keys, name, j) && r.value == Prefixes(name, j)
            else forall i :: 0 <= i < tries ==> Prefixes(name, i) in keys
    decreases tries
  {
    j := 0;
    assert Prefixes(name, 0) == name;
    if tries > 0 && name in keys {
      j := SearchFindsFirstFree(keys, Prefixed(name), tries - 1);
      forall i | 1 <= i ensures Prefixes(name, i) == Prefixes(Prefixed(name), i - 1) {
      }
      j := j + 1;
    }
  }

  /** An accepted field stays; any other never lands on a field the object already has. */
  lemma ChosenAvoidsFields(slug: string -> string, keys: set<string>, field: string)
    requires field in keys
    ensures Accepted(field) ==> Chosen(slug, keys, field) == Some(field)
    ensures !Accepted(field) && Chosen(slug, keys, field).Some? ==> Chosen(slug, keys, field).value !in keys
  {
  }

  /** A chosen name is accepted unless prefixing made it too long, which the code does not check. */
  lemma ChosenAcceptedIffShort(slug: string -> string, keys: set<string>, field: string)
    requires Chosen(slug, keys, field).Some?
    ensures var n := Chosen(slug, keys, field).value; Accepted(n) <==> |n| <= MAX_FIELD_NAME_LENGTH
  {
  }

  /** A name to be changed stays short: its slug with the prefixes it takes to be free. */
  ghost predicate NameFits(slug: string -> string, keys: set<string>, field: string) {
    Accepted(field)
    || exists j: nat ::
      FirstFree(keys, Prefixed(slug(field)), j) && |slug(field)| + 7 * (j + 1) <= MAX_FIELD_NAME_LENGTH
  }

  lemma {:induction false} PrefixesLength(s: string, j: nat)
    ensures |Prefixes(s, j)| == |s| + 7 * j
    decreases j
  {
    if j > 0 {
      PrefixesLength(Prefixed(s), j - 1);
    }
  }

  lemma FirstFreeUnique(keys: set<string>, name: string, i: nat, j: nat)
    requires FirstFree(keys, name, i) && FirstFree(keys, name, j)
    ensures i == j
  {
  }

  /** Whether a name comes out accepted can be told from the object that goes in. */
  lemma ChosenAcceptedIffFits(slug: string -> string, keys: set<string>, field: string)
    requires field in keys && Chosen(slug, keys, field).Some?
    ensures Accepted(Chosen(slug, keys, field).value) <==> NameFits(slug, keys, field)
  {
    ChosenAcceptedIffShort(slug, keys, field);
    ChosenAvoidsFields(slug, keys, field);
    if !Accepted(field) {
      var name := Prefixed(slug(field));
      var j := SearchFindsFirstFree(keys, name, DUPLICATE_FIELD_LIMIT);
      PrefixesLength(name, j);
      forall i: nat | FirstFree(keys, name, i) ensures i == j {
        FirstFreeUnique(keys, name, i, j);
      }
    }
  }

  /** A slug of 1011 characters beside a field of its prefixed form gets a name of 1025. */
  lemma LongSlugGrowsTooLong(slug: string -> string, keys: set<string>, field: string)
    requires !Accepted(field) && |slug(field)| == 1011 && IsFieldName(Prefixed(slug(field)))
    requires field in keys && Prefixed(slug(field)) in keys && Prefixed(Prefixed(slug(field))) !in keys
    ensures Chosen(slug, keys, field).Some? && |Chosen(slug, keys, field).value| == 1025
    ensures !Accepted(Chosen(slug, keys, field).value)
  {
    var name := Prefixed(slug(field));
    assert Search(keys, name, true, 3) == Search(keys, Prefixed(name), true, 2) == Some(Prefixed(name));
  }

  // ------------------------------------------------------------------ whole values

  function Keys(fields: seq<Field>): set<string> {
    set i | 0 <= i < |fields| :: fields[i].name
  }

  /** Insertion replaces the value of a field that is there and keeps its place. */
  function Insert(fields: seq<Field>, f: Field): seq<Field> {
    if fields == [] then [f]
    else if fields[0].name == f.name then [f] + fields[1..]
    else [fields[0]] + Insert(fields[1..], f)
  }

  function InsertAll(fields: seq<Field>): seq<Field> {
    if fields == [] then [] else Insert(InsertAll(fields[..|fields| - 1]), fields[|fields| - 1])
  }

  function Values<T>(os: seq<Option<T>>): (r: Option<seq<T>>)
    ensures r.Some? <==> forall i :: 0 <= i < |os| ==> os[i].Some?
    ensures r.Some? ==> |r.value| == |os| && forall i :: 0 <= i < |os| ==> os[i] == Some(r.value[i])
  {
    if os == [] then Some([])
    else
      match (os[0], Values(os[1..]))
      case (Some(x), Some(xs)) => Some([x] + xs)
      case _ => None
  }

  function Renamed(slug: string -> string, v: Json): Option<Json>
    decreases v
  {
    match v
    case Leaf(_) => Some(v)
    case Array(items) =>
      var rs := Values(seq(|items|, i requires 0 <= i < |items| => Renamed(slug, items[i])));
      if rs.None? then None else Some(Array(rs.value))
    case Object(fields) =>
      var rs := Values(seq(|fields|, i requires 0 <= i < |fields| =>
        var name := Chosen(slug, Keys(fields), fields[i].name);
        var value := Renamed(slug, fields[i].value);
        if name.None? || value.None? then None else Some(Field(name.value, value.value))));
      if rs.None? then None else Some(Object(InsertAll(rs.value)))
  }

  // ------------------------------------------------------------------ inserting fields

  predicate DistinctFields(fields: seq<Field>) {
    forall i, j :: 0 <= i < j < |fields| ==> fields[i].name != fields[j].name
  }

  lemma {:induction false} InsertFacts(fields: seq<Field>, f: Field)
    requires DistinctFields(fields)
    ensures var out := Insert(fields, f);
            && DistinctFields(out) && f in out
            && (forall x :: x in out ==> x == f || (x in fields && x.name != f.name))
            && (forall x :: x in fields && x.name != f.name ==> x in out)
  {
    if fields != [] && fields[0].name != f.name {
      var rest := Insert(fields[1..], f);
      InsertFacts(fields[1..], f);
      assert fields == [fields[0]] + fields[1..];
      forall j | 0 <= j < |rest| ensures rest[j].name != fields[0].name {
        assert rest[j] in rest;
      }
    }
  }

  lemma {:induction false} InsertLength(fields: seq<Field>, f: Field)
    ensures |Insert(fields, f)| == |fields| + if f.name in Keys(fields) then 0 else 1
  {
    if fields != [] {
      KeysCons(fields);
      if fields[0].name != f.name {
        InsertLength(fields[1..], f);
      }
    }
  }

  /** A name that is there already keeps its place, and the others keep their values. */
  lemma {:induction false} InsertKeepsPlace(fields: seq<Field>, f: Field, i: nat)
    requires DistinctFields(fields) && i < |fields| && fields[i].name == f.name
    ensures Insert(fields, f) == fields[i := f]
  {
    if i > 0 {
      InsertKeepsPlace(fields[1..], f, i - 1);
      assert fields[i := f] == [fields[0]] + fields[1..][i - 1 := f];
    }
  }

  lemma {:induction false} InsertNew(fields: seq<Field>, f: Field)
    requires f.name !in Keys(fields)
    ensures Insert(fields, f) == fields + [f]
  {
    if fields != [] {
      assert fields[0].name in Keys(fields);
      assert forall n :: n in Keys(fields[1..]) ==> n in Keys(fields);
      InsertNew(fields[1..], f);
    }
  }

  lemma {:induction false} InsertAllDistinct(fields: seq<Field>)
    ensures DistinctFields(InsertAll(fields)) && forall x :: x in InsertAll(fields) ==> x in fields
  {
    if fields != [] {
      var n := |fields| - 1;
      InsertAllDistinct(fields[..n]);
      InsertFacts(InsertAll(fields[..n]), fields[n]);
      assert fields == fields[..n] + [fields[n]];
    }
  }

  /** Another name's field stays, and the new field is there. */
  lemma InsertMembers(fields: seq<Field>, f: Field, x: Field)
    requires DistinctFields(fields) && (x == f || (x in fields && x.name != f.name))
    ensures x in Insert(fields, f)
  {
    InsertFacts(fields, f);
  }

  /** The last value inserted under a name is the one that stays. */
  lemma {:induction false} LastStays(fields: seq<Field>, i: nat)
    requires i < |fields| && LastOfName(fields, i)
    ensures fields[i] in InsertAll(fields)
  {
    var n := |fields| - 1;
    InsertAllDistinct(fields[..n]);
    if i < n {
      LastStays(fields[..n], i);
    }
    InsertMembers(InsertAll(fields[..n]), fields[n], fields[i]);
  }

  lemma {:induction false} DistinctStays(fields: seq<Field>)
    requires DistinctFields(fields)
    ensures InsertAll(fields) == fields
  {
    if fields != [] {
      var n := |fields| - 1;
      DistinctStays(fields[..n]);
      InsertNew(fields[..n], fields[n]);
      assert fields == fields[..n] + [fields[n]];
    }
  }

  lemma DistinctSnoc(fields: seq<Field>, f: Field)
    ensures DistinctFields(fields + [f]) <==> DistinctFields(fields) && f.name !in Keys(fields)
  {
    var all := fields + [f];
    if DistinctFields(all) {
      assert forall i :: 0 <= i < |fields| ==> fields[i] == all[i] && all[|fields|] == f;
    }
  }

  /** No field is lost exactly when no two were given one name. */
  lemma {:induction false} NoneLostIffDistinct(fields: seq<Field>)
    ensures |InsertAll(fields)| <= |fields|
    ensures |InsertAll(fields)| == |fields| <==> DistinctFields(fields)
  {
    if fields != [] {
      var n := |fields| - 1;
      var before, f := fields[..n], fields[n];
      NoneLostIffDistinct(before);
      InsertAllDistinct(before);
      InsertLength(InsertAll(before), f);
      KeysKept(before);
      DistinctSnoc(before, f);
      assert fields == before + [f];
    }
  }

  /** What stays is, for each name, the last field inserted under it. */
  lemma SameNameSame(fields: seq<Field>, x: Field, y: Field)
    requires DistinctFields(fields) && x in fields && y in fields && x.name == y.name
    ensures x == y
  {
  }

  lemma StaysIsLast(fields: seq<Field>, x: Field)
    requires x in InsertAll(fields)
    ensures exists i :: 0 <= i < |fields| && fields[i] == x && LastOfName(fields, i)
  {
    InsertAllDistinct(fields);
    var j :| 0 <= j < |fields| && fields[j] == x;
    var i := LastIndex(fields, x.name);
    LastStays(fields, i);
    SameNameSame(InsertAll(fields), x, fields[i]);
  }

  predicate LastOfName(fields: seq<Field>, i: nat)
    requires i < |fields|
  {
    forall j :: i < j < |fields| ==> fields[j].name != fields[i].name
  }

  lemma {:induction false} LastIndex(fields: seq<Field>, name: string) returns (i: nat)
    requires exists j :: 0 <= j < |fields| && fields[j].name == name
    ensures i < |fields| && fields[i].name == name && LastOfName(fields, i)
  {
    var n := |fields| - 1;
    if fields[n].name == name {
      i := n;
    } else {
      i := LastIndex(fields[..n], name);
    }
  }

  lemma {:induction false} KeysKept(fields: seq<Field>)
    ensures Keys(InsertAll(fields)) == Keys(fields)
  {
    if fields != [] {
      var n := |fields| - 1;
      KeysKept(fields[..n]);
      InsertKeys(InsertAll(fields[..n]), fields[n]);
      assert Keys(fields) == Keys(fields[..n]) + {fields[n].name} by {
        assert fields == fields[..n] + [fields[n]];
      }
    }
  }

  lemma {:induction false} InsertKeys(fields: seq<Field>, f: Field)
    ensures Keys(Insert(fields, f)) == Keys(fields) + {f.name}
  {
    if fields != [] {
      KeysCons(fields);
      KeysCons(Insert(fields, f));
      if fields[0].name != f.name {
        InsertKeys(fields[1..], f);
        assert Insert(fields, f)[1..] == Insert(fields[1..], f);
      } else {
        assert Insert(fields, f)[1..] == fields[1..];
      }
    } else {
      assert [f][0] == f;
    }
  }

  lemma KeysCons(fields: seq<Field>)
    requires fields != []
    ensures Keys(fields) == {fields[0].name} + Keys(fields[1..])
  {
  }

  // ------------------------------------------------------------------ what renaming does to a value

  function RenamedItems(slug: string -> string, items: seq<Json>): (r: Option<seq<Json>>)
    ensures r.Some? <==> forall i :: 0 <= i < |items| ==> Renamed(slug, items[i]).Some?
    ensures r.Some? ==>
              |r.value| == |items| && forall i :: 0 <= i < |items| ==> Renamed(slug, items[i]) == Some(r.value[i])
  {
    var rs := seq(|items|, i requires 0 <= i < |items| => Renamed(slug, items[i]));
    assert forall i :: 0 <= i < |items| ==> rs[i] == Renamed(slug, items[i]);
    Values(rs)
  }

  /** The fields of an object under their new names, in the order of the old ones. */
  function RenamedFields(slug: string -> string, fields: seq<Field>): (r: Option<seq<Field>>)
    ensures r.Some? <==>
            forall i :: 0 <= i < |fields| ==>
              Chosen(slug, Keys(fields), fields[i].name).Some? && Renamed(slug, fields[i].value).Some?
    ensures r.Some? ==>
              |r.value| == |fields| && forall i :: 0 <= i < |fields| ==>
                && Chosen(slug, Keys(fields), fields[i].name) == Some(r.value[i].name)
                && Renamed(slug, fields[i].value) == Some(r.value[i].value)
  {
    var rs := seq(|fields|, i requires 0 <= i < |fields| =>
      var name := Chosen(slug, Keys(fields), fields[i].name);
      var value := Renamed(slug, fields[i].value);
      if name.None? || value.None? then None else Some(Field(name.value, value.value)));
    assert forall i :: 0 <= i < |fields| ==>
        (rs[i].Some? <==> Chosen(slug, Keys(fields), fields[i].name).Some? && Renamed(slug, fields[i].value).Some?);
    Values(rs)
  }

  /** Two fields of one object get one name only if both are changed. */
  lemma OnlyChangedCollide(slug: string -> string, fields: seq<Field>, i: nat, j: nat)
    requires DistinctFields(fields) && i < j < |fields|
    requires Chosen(slug, Keys(fields), fields[i].name).Some?
    requires Chosen(slug, Keys(fields), fields[i].name) == Chosen(slug, Keys(fields), fields[j].name)
    ensures !Accepted(fields[i].name) && !Accepted(fields[j].name)
  {
    assert fields[i].name in Keys(fields) && fields[j].name in Keys(fields);
    ChosenAvoidsFields(slug, Keys(fields), fields[i].name);
    ChosenAvoidsFields(slug, Keys(fields), fields[j].name);
  }

  /** An accepted field keeps its name, and its value renamed inside, whatever the others become. */
  lemma AcceptedFieldsStay(slug: string -> string, fields: seq<Field>, i: nat)
    requires DistinctFields(fields) && i < |fields| && Accepted(fields[i].name)
    requires Renamed(slug, Object(fields)).Some?
    ensures Renamed(slug, fields[i].value).Some?
    ensures Field(fields[i].name, Renamed(slug, fields[i].value).value) in Renamed(slug, Object(fields)).value.fields
  {
    var pairs := RenamedFields(slug, fields).value;
    assert Renamed(slug, Object(fields)).value.fields == InsertAll(pairs);
    assert fields[i].name in Keys(fields);
    ChosenAvoidsFields(slug, Keys(fields), fields[i].name);
    forall j | i < j < |pairs| ensures pairs[j].name != pairs[i].name {
      if pairs[j].name == pairs[i].name {
        OnlyChangedCollide(slug, fields, i, j);
      }
    }
    LastStays(pairs, i);
  }

  predicate WellFormed(v: Json)
    decreases v
  {
    match v
    case Leaf(_) => true
    case Array(items) => forall i :: 0 <= i < |items| ==> WellFormed(items[i])
    case Object(fields) => DistinctFields(fields) && forall i :: 0 <= i < |fields| ==> WellFormed(fields[i].value)
  }

  /** Every field name at every depth is accepted. */
  predicate AllAccepted(v: Json)
    decreases v
  {
    match v
    case Leaf(_) => true
    case Array(items) => forall i :: 0 <= i < |items| ==> AllAccepted(items[i])
    case Object(fields) => forall i :: 0 <= i < |fields| ==> Accepted(fields[i].name) && AllAccepted(fields[i].value)
  }

  lemma InsertAllWellFormed(pairs: seq<Field>)
    requires forall i :: 0 <= i < |pairs| ==> WellFormed(pairs[i].value)
    ensures WellFormed(Object(InsertAll(pairs)))
  {
    var out := InsertAll(pairs);
    InsertAllDistinct(pairs);
    forall k | 0 <= k < |out| ensures WellFormed(out[k].value) {
      assert out[k] in pairs;
    }
  }

  /** The result has different fields in each of its objects. */
  lemma {:induction false} RenamedWellFormed(slug: string -> string, v: Json)
    requires Renamed(slug, v).Some?
    ensures WellFormed(Renamed(slug, v).value)
    decreases v
  {
    match v
    case Leaf(_) =>
    case Array(items) =>
      var out := RenamedItems(slug, items).value;
      forall i | 0 <= i < |items| ensures WellFormed(out[i]) {
        RenamedWellFormed(slug, items[i]);
      }
      assert Renamed(slug, v) == Some(Array(out));
    case Object(fields) =>
      var pairs := RenamedFields(slug, fields).value;
      forall i | 0 <= i < |pairs| ensures WellFormed(pairs[i].value) {
        RenamedWellFormed(slug, fields[i].value);
      }
      InsertAllWellFormed(pairs);
      assert Renamed(slug, v) == Some(Object(InsertAll(pairs)));
  }

  /** A field that must change shows in the result. */
  lemma FixedNames(slug: string -> string, fields: seq<Field>, pairs: seq<Field>, i: nat)
    requires RenamedFields(slug, fields) == Some(pairs) && InsertAll(pairs) == fields && i < |fields|
    ensures Accepted(fields[i].name)
  {
    KeysKept(pairs);
    assert fields[i].name in Keys(fields) && pairs[i].name in Keys(pairs);
    ChosenAvoidsFields(slug, Keys(fields), fields[i].name);
  }

  lemma FixedFields(slug: string -> string, fields: seq<Field>, pairs: seq<Field>)
    requires RenamedFields(slug, fields) == Some(pairs) && DistinctFields(fields)
    requires forall i :: 0 <= i < |fields| ==> Accepted(fields[i].name)
    ensures InsertAll(pairs) == fields <==>
            forall i :: 0 <= i < |fields| ==> Renamed(slug, fields[i].value) == Some(fields[i].value)
  {
    forall i | 0 <= i < |fields| ensures pairs[i].name == fields[i].name {
      assert fields[i].name in Keys(fields);
      ChosenAvoidsFields(slug, Keys(fields), fields[i].name);
    }
    DistinctStays(pairs);
  }

  lemma AllRenamed(slug: string -> string, fields: seq<Field>)
    requires forall i :: 0 <= i < |fields| ==> Accepted(fields[i].name) && Renamed(slug, fields[i].value).Some?
    ensures RenamedFields(slug, fields).Some?
  {
  }

  lemma FixedObject(slug: string -> string, fields: seq<Field>)
    requires DistinctFields(fields)
    requires forall i :: 0 <= i < |fields| ==>
               (Renamed(slug, fields[i].value) == Some(fields[i].value) <==> AllAccepted(fields[i].value))
    ensures Renamed(slug, Object(fields)) == Some(Object(fields)) <==> AllAccepted(Object(fields))
  {
    var rs := RenamedFields(slug, fields);
    assert Renamed(slug, Object(fields)) == if rs.None? then None else Some(Object(InsertAll(rs.value)));
    if AllAccepted(Object(fields)) {
      AllRenamed(slug, fields);
      FixedFields(slug, fields, rs.value);
    } else if rs.Some? && InsertAll(rs.value) == fields {
      forall i | 0 <= i < |fields| ensures Accepted(fields[i].name) {
        FixedNames(slug, fields, rs.value, i);
      }
      FixedFields(slug, fields, rs.value);
    }
  }

  /** A value is left alone exactly when all its field names are accepted. */
  lemma {:induction false} FixedIffAccepted(slug: string -> string, v: Json)
    requires WellFormed(v)
    ensures Renamed(slug, v) == Some(v) <==> AllAccepted(v)
    decreases v
  {
    match v
    case Leaf(_) =>
    case Array(items) =>
      forall i | 0 <= i < |items| ensures Renamed(slug, items[i]) == Some(items[i]) <==> AllAccepted(items[i]) {
        FixedIffAccepted(slug, items[i]);
      }
      var rs := RenamedItems(slug, items);
      assert Renamed(slug, v) == if rs.None? then None else Some(Array(rs.value));
      if AllAccepted(v) {
        assert forall i :: 0 <= i < |items| ==> Renamed(slug, items[i]) == Some(items[i]);
        assert rs.Some? && rs.value == items;
      }
    case Object(fields) =>
      forall i | 0 <= i < |fields|
        ensures Renamed(slug, fields[i].value) == Some(fields[i].value) <==> AllAccepted(fields[i].value)
      {
        FixedIffAccepted(slug, fields[i].value);
      }
      FixedObject(slug, fields);
  }

  /** No field of an object is lost exactly when no two get one name. */
  lemma FieldsKeptIffDistinct(slug: string -> string, fields: seq<Field>)
    requires Renamed(slug, Object(fields)).Some?
    ensures |Renamed(slug, Object(fields)).value.fields| <= |fields|
    ensures |Renamed(slug, Object(fields)).value.fields| == |fields| <==>
            forall i, j :: 0 <= i < j < |fields| ==>
              Chosen(slug, Keys(fields), fields[i].name) != Chosen(slug, Keys(fields), fields[j].name)
  {
    var pairs := RenamedFields(slug, fields).value;
    assert Renamed(slug, Object(fields)) == Some(Object(InsertAll(pairs)));
    NoneLostIffDistinct(pairs);
  }

  // ------------------------------------------------------------------ when converting twice is converting once

  /** The field's value is in the result: no later field gets its name. */
  predicate Survives(slug: string -> string, fields: seq<Field>, i: nat)
    requires i < |fields|
  {
    forall j :: i < j < |fields| ==>
      Chosen(slug, Keys(fields), fields[j].name) != Chosen(slug, Keys(fields), fields[i].name)
  }

  /** Converting an array converts its items. */
  lemma ArrayParts(slug: string -> string, items: seq<Json>)
    ensures Renamed(slug, Array(items)).Some? <==> forall i :: 0 <= i < |items| ==> Renamed(slug, items[i]).Some?
    ensures Renamed(slug, Array(items)).Some? ==>
              var out := Renamed(slug, Array(items)).value;
              && out.Array? && |out.items| == |items|
              && forall i :: 0 <= i < |items| ==> Renamed(slug, items[i]) == Some(out.items[i])
  {
    assert Renamed(slug, Array(items)) ==
           match RenamedItems(slug, items) case None => None case Some(xs) => Some(Array(xs));
  }

  /**
   Converting an object fails exactly when a name cannot be chosen or a value converted; otherwise it
   has, under its chosen name and with its value converted, each field that no later one replaces.
   */
  lemma ObjectParts(slug: string -> string, fields: seq<Field>)
    ensures Renamed(slug, Object(fields)).Some? <==>
            forall i :: 0 <= i < |fields| ==>
              Chosen(slug, Keys(fields), fields[i].name).Some? && Renamed(slug, fields[i].value).Some?
    ensures Renamed(slug, Object(fields)).Some? ==>
              && Renamed(slug, Object(fields)).value.Object?
              && forall x :: x in Renamed(slug, Object(fields)).value.fields <==>
                   exists i :: 0 <= i < |fields| && Survives(slug, fields, i)
                     && Chosen(slug, Keys(fields), fields[i].name) == Some(x.name)
                     && Renamed(slug, fields[i].value) == Some(x.value)
  {
    var pairs := RenamedFields(slug, fields);
    assert Renamed(slug, Object(fields)) ==
           match pairs case None => None case Some(ps) => Some(Object(InsertAll(ps)));
    if pairs.Some? {
      var ps := pairs.value;
      forall x ensures x in InsertAll(ps) <==> exists i :: 0 <= i < |ps| && ps[i] == x && LastOfName(ps, i) {
        if x in InsertAll(ps) {
          StaysIsLast(ps, x);
        }
        if exists i :: 0 <= i < |ps| && ps[i] == x && LastOfName(ps, i) {
          var i :| 0 <= i < |ps| && ps[i] == x && LastOfName(ps, i);
          LastStays(ps, i);
        }
      }
      assert forall i :: 0 <= i < |ps| ==> (Survives(slug, fields, i) <==> LastOfName(ps, i));
    }
  }

  /** Every name at every depth that comes out stays short. */
  ghost predicate NamesFit(slug: string -> string, v: Json)
    decreases v
  {
    match v
    case Leaf(_) => true
    case Array(items) => forall i :: 0 <= i < |items| ==> NamesFit(slug, items[i])
    case Object(fields) =>
      && (forall i :: 0 <= i < |fields| ==> NameFits(slug, Keys(fields), fields[i].name))
      && (forall i :: 0 <= i < |fields| && Survives(slug, fields, i) ==> NamesFit(slug, fields[i].value))
  }

  lemma FieldsFit(slug: string -> string, fields: seq<Field>, pairs: seq<Field>)
    requires RenamedFields(slug, fields) == Some(pairs)
    ensures forall i :: 0 <= i < |fields| ==>
              (Accepted(pairs[i].name) <==> NameFits(slug, Keys(fields), fields[i].name))
    ensures forall i :: 0 <= i < |fields| ==> (LastOfName(pairs, i) <==> Survives(slug, fields, i))
  {
    forall i | 0 <= i < |fields| ensures Accepted(pairs[i].name) <==> NameFits(slug, Keys(fields), fields[i].name) {
      assert fields[i].name in Keys(fields);
      ChosenAcceptedIffFits(slug, Keys(fields), fields[i].name);
    }
  }

  /** What is inserted is accepted exactly when all names are, and the values that stay. */
  lemma InsertAllAccepted(pairs: seq<Field>)
    ensures AllAccepted(Object(InsertAll(pairs))) <==>
            && (forall i :: 0 <= i < |pairs| ==> Accepted(pairs[i].name))
            && (forall i :: 0 <= i < |pairs| && LastOfName(pairs, i) ==> AllAccepted(pairs[i].value))
  {
    var out := InsertAll(pairs);
    forall k | 0 <= k < |out| ensures exists i :: 0 <= i < |pairs| && pairs[i] == out[k] && LastOfName(pairs, i) {
      StaysIsLast(pairs, out[k]);
    }
    if AllAccepted(Object(out)) {
      forall i | 0 <= i < |pairs| ensures Accepted(pairs[i].name) {
        var l := LastIndex(pairs, pairs[i].name);
        LastStays(pairs, l);
      }
      forall i | 0 <= i < |pairs| && LastOfName(pairs, i) ensures AllAccepted(pairs[i].value) {
        LastStays(pairs, i);
      }
    }
  }

  lemma NamesFitObject(slug: string -> string, fields: seq<Field>, pairs: seq<Field>)
    requires RenamedFields(slug, fields) == Some(pairs)
    requires forall i :: 0 <= i < |fields| ==> (AllAccepted(pairs[i].value) <==> NamesFit(slug, fields[i].value))
    ensures AllAccepted(Object(InsertAll(pairs))) <==> NamesFit(slug, Object(fields))
  {
    FieldsFit(slug, fields, pairs);
    InsertAllAccepted(pairs);
  }

  lemma {:induction false} AcceptedIffNamesFit(slug: string -> string, v: Json)
    requires Renamed(slug, v).Some?
    ensures AllAccepted(Renamed(slug, v).value) <==> NamesFit(slug, v)
    decreases v
  {
    match v
    case Leaf(_) =>
    case Array(items) =>
      var out := RenamedItems(slug, items).value;
      forall i | 0 <= i < |items| ensures AllAccepted(out[i]) <==> NamesFit(slug, items[i]) {
        AcceptedIffNamesFit(slug, items[i]);
      }
      assert Renamed(slug, v) == Some(Array(out));
    case Object(fields) =>
      var pairs := RenamedFields(slug, fields).value;
      forall i | 0 <= i < |fields| ensures AllAccepted(pairs[i].value) <==> NamesFit(slug, fields[i].value) {
        AcceptedIffNamesFit(slug, fields[i].value);
      }
      NamesFitObject(slug, fields, pairs);
      assert Renamed(slug, v) == Some(Object(InsertAll(pairs)));
  }

  /** Converting twice is converting once exactly when the names that go in fit. */
  lemma IdempotentIffNamesFit(slug: string -> string, v: Json)
    requires Renamed(slug, v).Some?
    ensures var w := Renamed(slug, v).value; Renamed(slug, w) == Some(w) <==> NamesFit(slug, v)
  {
    RenamedWellFormed(slug, v);
    AcceptedIffNamesFit(slug, v);
    FixedIffAccepted(slug, Renamed(slug, v).value);
  }

  /** Every name at every depth is accepted, or its slug leaves room for all the prefixes tried. */
  predicate SlugsShort(slug: string -> string, v: Json)
    decreases v
  {
    match v
    case Leaf(_) => true
    case Array(items) => forall i :: 0 <= i < |items| ==> SlugsShort(slug, items[i])
    case Object(fields) =>
      forall i :: 0 <= i < |fields| ==>
        && (Accepted(fields[i].name) || |slug(fields[i].name)| + 21 <= MAX_FIELD_NAME_LENGTH)
        && SlugsShort(slug, fields[i].value)
  }

  lemma {:induction false} ShortSlugsFit(slug: string -> string, v: Json)
    requires Renamed(slug, v).Some? && SlugsShort(slug, v)
    ensures NamesFit(slug, v)
    decreases v
  {
    match v
    case Leaf(_) =>
    case Array(items) =>
      var out := RenamedItems(slug, items);
      forall i | 0 <= i < |items| ensures NamesFit(slug, items[i]) {
        ShortSlugsFit(slug, items[i]);
      }
    case Object(fields) =>
      var pairs := RenamedFields(slug, fields).value;
      forall i | 0 <= i < |fields|
        ensures NameFits(slug, Keys(fields), fields[i].name) && NamesFit(slug, fields[i].value)
      {
        ShortSlugsFit(slug, fields[i].value);
        assert fields[i].name in Keys(fields);
        ChosenAvoidsFields(slug, Keys(fields), fields[i].name);
        if !Accepted(fields[i].name) {
          var j := SearchFindsFirstFree(Keys(fields), Prefixed(slug(fields[i].name)), DUPLICATE_FIELD_LIMIT);
        }
      }
  }

  /** In particular when every slug leaves room for the prefixes. */
  lemma ShortSlugsIdempotent(slug: string -> string, v: Json)
    requires Renamed(slug, v).Some? && SlugsShort(slug, v)
    ensures var w := Renamed(slug, v).value; Renamed(slug, w) == Some(w)
  {
    ShortSlugsFit(slug, v);
    IdempotentIffNamesFit(slug, v);
  }

  lemma SameNameInserted(f: Field, g: Field)
    requires f.name == g.name
    ensures InsertAll([f, g]) == [g]
  {
    assert [f, g][..1] == [f] && [f][..0] == [];
    assert InsertAll([f]) == [f];
  }

  lemma ChosenSlug(slug: string -> string, keys: set<string>, field: string)
    requires !Accepted(field) && IsFieldName(Prefixed(slug(field))) && Prefixed(slug(field)) !in keys && field in keys
    ensures Chosen(slug, keys, field) == Some(Prefixed(slug(field)))
  {
  }

  /** Two fields that slugify alike become one, and the first one's value is lost. */
  lemma CollidingFieldsLoseData(slug: string -> string, fields: seq<Field>, name: string)
    requires |fields| == 2 && name !in Keys(fields) && IsFieldName(name)
    requires forall i :: 0 <= i < 2 ==> !Accepted(fields[i].name) && name == Prefixed(slug(fields[i].name))
    requires forall i :: 0 <= i < 2 ==> Renamed(slug, fields[i].value).Some?
    ensures Renamed(slug, Object(fields)) == Some(Object([Field(name, Renamed(slug, fields[1].value).value)]))
  {
    forall i | 0 <= i < 2 ensures Chosen(slug, Keys(fields), fields[i].name) == Some(name) {
      assert fields[i].name in Keys(fields);
      ChosenSlug(slug, Keys(fields), fields[i].name);
    }
    var pairs := RenamedFields(slug, fields).value;
    assert pairs == [pairs[0], pairs[1]];
    SameNameInserted(pairs[0], pairs[1]);
    assert Renamed(slug, Object(fields)) == Some(Object(InsertAll(pairs)));
  }
}
