/** The records of the SDK (iota-types.go), their JSON encoding under the
    struct tags, and the custom encoding of a Device's ExplicitAttrs field. */
module Types {
  import opened Wrappers
  import opened Json

  // ---------------------------------------------------------------------
  // Records

  datatype Metadata = Metadata(typ: string, value: string)

  /** A Go `map[string]Metadata`, as the list of entries in the order the
      encoder writes them. */
  type MetadataMap = seq<(string, Metadata)>

  datatype Attribute = Attribute(
    objectId: string, name: string, typ: string, expression: string,
    skipValue: string, entityName: string, entityType: string,
    metadata: MetadataMap)

  datatype LazyAttribute = LazyAttribute(
    objectId: string, name: string, typ: string, metadata: MetadataMap)

  /** `value` is Go's `any`; it is written by the standard encoder, so the
      model holds the JSON it becomes. */
  datatype StaticAttribute = StaticAttribute(
    objectId: string, name: string, typ: string, value: Value,
    metadata: MetadataMap)

  datatype Command = Command(
    objectId: string, name: string, typ: string, expression: string,
    payloadType: string, contentType: string, metadata: MetadataMap)

  datatype ConfigGroup = ConfigGroup(
    service: string,
    servicePath: string,
    resource: string,
    apikey: string,
    timestamp: Option<bool>,
    entityType: string,
    trust: string,
    cbHost: string,
    lazy: seq<LazyAttribute>,
    commands: seq<Command>,
    attributes: seq<Attribute>,
    staticAttributes: seq<StaticAttribute>,
    internalAttributes: seq<Value>,
    explicitAttrs: string,
    entityNameExp: string,
    ngsiVersion: string,
    defaultEntityNameConjunction: string,
    autoprovision: bool,
    payloadType: string,
    transport: string,
    endpoint: string)

  /** The dynamic type held by the `any` field Device.ExplicitAttrs: unset
      (nil), a string, a bool, or any other Go value, with the JSON the
      standard encoder gives it. */
  datatype Dynamic = Nil | Str(s: string) | Bool(b: bool) | Other(json: Value)

  datatype Device = Device(
    id: string,
    service: string,
    servicePath: string,
    entityName: string,
    entityType: string,
    timezone: string,
    timestamp: Option<bool>,
    apikey: string,
    endpoint: string,
    protocol: string,
    transport: string,
    attributes: seq<Attribute>,
    commands: seq<Command>,
    lazy: seq<LazyAttribute>,
    staticAttributes: seq<StaticAttribute>,
    internalAttributes: seq<Value>,
    explicitAttrs: Dynamic,
    ngsiVersion: string,
    payloadType: string)

  /** Go's zero Device, what a decoder leaves behind when it fills nothing. */
  function ZeroDevice(): Device {
    Device("", "", "", "", "", "", None, "", "", "", "", [], [], [], [], [], Nil, "", "")
  }

  datatype ApiError = ApiError(name: string, message: string)

  datatype MissingFields = MissingFields(fields: seq<string>, message: string)

  /** The values of Go's `error` that the SDK returns. `Panic` stands for a
      call that does not return normally: a log.Panic on an encoding or
      decoding failure, or a runtime panic. */
  datatype Error =
    | MissingFieldsError(missing: MissingFields)
    | ApiFailure(api: ApiError)
    | Failure(message: string)
    | Panic(reason: string)

  // ---------------------------------------------------------------------
  // Mandatory fields

  /** One mandatory field: its name and whether the record fills it. */
  datatype Mandatory = Mandatory(name: string, present: bool)

  /** The names of the mandatory fields that are absent, in check order. */
  function Absent(checks: seq<Mandatory>): (names: seq<string>)
    ensures |names| <= |checks|
    ensures |names| == 0 <==> forall i :: 0 <= i < |checks| ==> checks[i].present
    ensures forall n :: n in names <==> exists i :: 0 <= i < |checks| && checks[i].name == n && !checks[i].present
  {
    if checks == [] then []
    else
      (if checks[0].present then [] else [checks[0].name]) + Absent(checks[1..])
  }

  /** The names absent from a concatenation of checks are those of the first
      part followed by those of the second: the names keep check order. */
  lemma {:induction false} AbsentAppend(a: seq<Mandatory>, b: seq<Mandatory>)
    ensures Absent(a + b) == Absent(a) + Absent(b)
  {
    if a == [] {
      assert a + b == b;
    } else {
      assert (a + b)[0] == a[0];
      assert (a + b)[1..] == a[1..] + b;
      AbsentAppend(a[1..], b);
    }
  }

  const MissingFieldsMessage := "Missing fields"

  /** Validate's result for a list of checks: nil when nothing is absent,
      otherwise every absent name under the fixed message. */
  function ValidationOf(checks: seq<Mandatory>): (r: Option<MissingFields>)
    ensures r.None? <==> forall i :: 0 <= i < |checks| ==> checks[i].present
    ensures r.Some? ==> r.value.message == MissingFieldsMessage && r.value.fields == Absent(checks)
  {
    var names := Absent(checks);
    if |names| == 0 then None else Some(MissingFields(names, MissingFieldsMessage))
  }

  /** The validation error of the first record that fails validation, as a
      loop that returns at the first failure finds it. */
  function FirstInvalid<T>(xs: seq<T>, validate: T -> Option<MissingFields>): Option<MissingFields> {
    if xs == [] then None
    else match validate(xs[0])
      case Some(m) => Some(m)
      case None => FirstInvalid(xs[1..], validate)
  }

  /** FirstInvalid is nil exactly when every record validates, and otherwise
      the error of a record all of whose predecessors validate. */
  lemma {:induction false} FirstInvalidSpec<T>(xs: seq<T>, validate: T -> Option<MissingFields>)
    ensures FirstInvalid(xs, validate).None? <==> forall i :: 0 <= i < |xs| ==> validate(xs[i]).None?
    ensures FirstInvalid(xs, validate).Some? ==>
      exists i :: 0 <= i < |xs| && FirstInvalid(xs, validate) == validate(xs[i])
        && forall j :: 0 <= j < i ==> validate(xs[j]).None?
  {
    if xs != [] && validate(xs[0]).None? {
      var tail := xs[1..];
      FirstInvalidSpec(tail, validate);
      assert forall i :: 1 <= i < |xs| ==> xs[i] == tail[i - 1];
      if FirstInvalid(xs, validate).Some? {
        var i :| 0 <= i < |tail| && FirstInvalid(tail, validate) == validate(tail[i])
          && forall j :: 0 <= j < i ==> validate(tail[j]).None?;
        assert FirstInvalid(xs, validate) == validate(xs[i + 1]);
        forall j | 0 <= j < i + 1
          ensures validate(xs[j]).None?
        {
          if j > 0 {
            assert xs[j] == tail[j - 1];
          }
        }
      }
    }
  }

  // ---------------------------------------------------------------------
  // Text normalisation (strings.ToLower, strings.TrimSpace, strings.Trim)

  /** White space as unicode.IsSpace sees it, restricted to ASCII. */
  predicate IsSpace(c: char) {
    c == ' ' || c == '\t' || c == '\n' || c == '\r' || c == '\U{0B}' || c == '\U{0C}'
  }

  /** The two cut sets Normalize trims by: white space (strings.TrimSpace)
      and the tab character (strings.Trim with cutset "\t"). */
  datatype Cutset = Spaces | Tabs

  predicate InCutset(c: char, cut: Cutset) {
    match cut
    case Spaces => IsSpace(c)
    case Tabs => c == '\t'
  }

  function LowerChar(c: char): char {
    if 'A' <= c <= 'Z' then (c as int + 32) as char else c
  }

  function ToLower(s: string): (r: string)
    ensures |r| == |s|
    ensures forall i :: 0 <= i < |s| ==> r[i] == LowerChar(s[i])
  {
    seq(|s|, i requires 0 <= i < |s| => LowerChar(s[i]))
  }

  /** The number of leading characters of `s` in the cut set. */
  function SkipLeft(s: string, cut: Cutset): (i: nat)
    ensures i <= |s|
    ensures forall k :: 0 <= k < i ==> InCutset(s[k], cut)
    ensures i < |s| ==> !InCutset(s[i], cut)
  {
    if s != [] && InCutset(s[0], cut) then 1 + SkipLeft(s[1..], cut) else 0
  }

  /** The length of `s` without its trailing characters in the cut set. */
  function SkipRight(s: string, cut: Cutset): (j: nat)
    ensures j <= |s|
    ensures forall k :: j <= k < |s| ==> InCutset(s[k], cut)
    ensures j > 0 ==> !InCutset(s[j - 1], cut)
  {
    if s != [] && InCutset(s[|s| - 1], cut) then SkipRight(s[..|s| - 1], cut) else |s|
  }

  /** Drop the leading and trailing characters that are in the cut set. */
  function Trim(s: string, cut: Cutset): (r: string)
    ensures SkipLeft(s, cut) + |r| <= |s|
    ensures forall k :: 0 <= k < |r| ==> r[k] == s[SkipLeft(s, cut) + k]
  {
    var t := s[SkipLeft(s, cut)..];
    t[..SkipRight(t, cut)]
  }

  /** The normalisation Device.MarshalJSON applies to a string ExplicitAttrs:
      lower-case, trim white space, then trim tabs. */
  function Normalize(s: string): (r: string)
    ensures |r| <= |s|
    ensures forall k :: 0 <= k < |r| ==> !('A' <= r[k] <= 'Z')
  {
    var lower := ToLower(s);
    assert forall i :: 0 <= i < |lower| ==> !('A' <= lower[i] <= 'Z');
    Trim(Trim(lower, Spaces), Tabs)
  }

  predicate AllSpace(s: string) {
    forall k :: 0 <= k < |s| ==> IsSpace(s[k])
  }

  lemma SkipLeftExact(s: string, cut: Cutset, i: nat)
    requires i <= |s|
    requires forall k :: 0 <= k < i ==> InCutset(s[k], cut)
    requires i < |s| ==> !InCutset(s[i], cut)
    ensures SkipLeft(s, cut) == i
  {
    var n := SkipLeft(s, cut);
    assert n < |s| ==> !InCutset(s[n], cut);
    assert i < |s| ==> !InCutset(s[i], cut);
  }

  lemma SkipRightExact(s: string, cut: Cutset, j: nat)
    requires j <= |s|
    requires forall k :: j <= k < |s| ==> InCutset(s[k], cut)
    requires j > 0 ==> !InCutset(s[j - 1], cut)
    ensures SkipRight(s, cut) == j
  {
    var n := SkipRight(s, cut);
    assert n > 0 ==> !InCutset(s[n - 1], cut);
    assert j > 0 ==> !InCutset(s[j - 1], cut);
  }

  /** Trimming a string whose padding and core are known. */
  lemma TrimPadded(s: string, cut: Cutset, i: nat, j: nat)
    requires i <= j <= |s|
    requires forall k :: 0 <= k < i ==> InCutset(s[k], cut)
    requires forall k :: j <= k < |s| ==> InCutset(s[k], cut)
    requires i < j ==> !InCutset(s[i], cut) && !InCutset(s[j - 1], cut)
    ensures Trim(s, cut) == s[i..j]
  {
    if i < j {
      SkipLeftExact(s, cut, i);
      var t := s[i..];
      SkipRightExact(t, cut, j - i);
      assert t[..j - i] == s[i..j];
    } else {
      SkipLeftExact(s, cut, |s|);
      assert s[|s|..] == [];
    }
  }

  lemma ToLowerSlice(s: string, i: nat, j: nat)
    requires i <= j <= |s|
    ensures ToLower(s[i..j]) == ToLower(s)[i..j]
  {
  }

  lemma LowerKeepsSpace(s: string)
    ensures forall k :: 0 <= k < |s| ==> (IsSpace(ToLower(s)[k]) <==> IsSpace(s[k]))
  {
  }

  /** After lower-casing, white-space trimming keeps exactly the core. */
  lemma LowerTrimSpaces(s: string, i: nat, j: nat)
    requires i <= j <= |s|
    requires AllSpace(s[..i]) && AllSpace(s[j..])
    requires i < j ==> !IsSpace(s[i]) && !IsSpace(s[j - 1])
    ensures Trim(ToLower(s), Spaces) == ToLower(s[i..j])
  {
    var l := ToLower(s);
    assert forall k :: 0 <= k < i ==> s[..i][k] == s[k];
    assert forall k :: j <= k < |s| ==> s[j..][k - j] == s[k];
    LowerKeepsSpace(s);
    TrimPadded(l, Spaces, i, j);
    ToLowerSlice(s, i, j);
  }

  /** A string that neither starts nor ends with white space has no tab to trim. */
  lemma TrimTabsCore(c: string)
    requires c != [] ==> !IsSpace(c[0]) && !IsSpace(c[|c| - 1])
    ensures Trim(c, Tabs) == c
  {
    TrimPadded(c, Tabs, 0, |c|);
    assert c[0..|c|] == c;
  }

  /** Normalize lower-cases the core of `s` between its white-space padding. */
  lemma NormalizePadded(s: string, i: nat, j: nat)
    requires i <= j <= |s|
    requires AllSpace(s[..i]) && AllSpace(s[j..])
    requires i < j ==> !IsSpace(s[i]) && !IsSpace(s[j - 1])
    ensures Normalize(s) == ToLower(s[i..j])
  {
    LowerTrimSpaces(s, i, j);
    var core := ToLower(s[i..j]);
    LowerKeepsSpace(s[i..j]);
    TrimTabsCore(core);
  }

  /** Every string splits into white-space padding around a core whose ends
      are not white space; Normalize lower-cases that core. */
  lemma NormalizeCore(s: string) returns (i: nat, j: nat)
    ensures i <= j <= |s|
    ensures AllSpace(s[..i]) && AllSpace(s[j..])
    ensures i < j ==> !IsSpace(s[i]) && !IsSpace(s[j - 1])
    ensures Normalize(s) == ToLower(s[i..j])
  {
    i := SkipLeft(s, Spaces);
    var t := s[i..];
    j := i + SkipRight(t, Spaces);
    assert forall k :: j <= k < |s| ==> s[k] == t[k - i];
    assert forall k :: 0 <= k < i ==> s[..i][k] == s[k];
    assert forall k :: j <= k < |s| ==> s[j..][k - j] == s[k];
    NormalizePadded(s, i, j);
  }

  /** `s` is the word `w` in any mix of case, padded by white space. */
  predicate PaddedWord(s: string, w: string, i: nat, j: nat) {
    i <= j <= |s| && AllSpace(s[..i]) && AllSpace(s[j..]) && ToLower(s[i..j]) == w
  }

  lemma PaddedWordNormalizes(s: string, w: string, i: nat, j: nat)
    requires w == "true" || w == "false"
    requires PaddedWord(s, w, i, j)
    ensures Normalize(s) == w
  {
    var core := s[i..j];
    var l := ToLower(core);
    assert |core| == |w|;
    assert l[0] == LowerChar(core[0]) && l[|l| - 1] == LowerChar(core[|core| - 1]);
    assert core[0] == s[i] && core[|core| - 1] == s[j - 1];
    NormalizePadded(s, i, j);
  }

  /** A string normalises to "true" (or "false") exactly when it is that word
      in any mix of case, padded by white space on either side. */
  lemma NormalizesToWord(s: string, w: string)
    requires w == "true" || w == "false"
    ensures Normalize(s) == w <==> exists i: nat, j: nat :: PaddedWord(s, w, i, j)
  {
    if Normalize(s) == w {
      var i, j := NormalizeCore(s);
      assert PaddedWord(s, w, i, j);
    }
    if exists i: nat, j: nat :: PaddedWord(s, w, i, j) {
      var i: nat, j: nat :| PaddedWord(s, w, i, j);
      PaddedWordNormalizes(s, w, i, j);
    }
  }

  /** The trailing tab trim of Normalize never removes anything: white-space
      trimming has already removed every tab at either end. */
  lemma TabTrimIsRedundant(s: string)
    ensures Normalize(s) == Trim(ToLower(s), Spaces)
  {
    var i, j := NormalizeCore(s);
    LowerTrimSpaces(s, i, j);
  }

  // ---------------------------------------------------------------------
  // Struct encoding under `json:"tag[,omitempty]"` tags

  /** One struct field as encoding/json sees it: its tag name, whether the tag
      says omitempty, whether the value is Go's empty value for its type
      (false, "", nil, or an empty slice or map) and the JSON of the value. */
  datatype Field = Field(tag: string, omitEmpty: bool, empty: bool, value: Value)

  predicate Emitted(f: Field) {
    !(f.omitEmpty && f.empty)
  }

  function StringField(tag: string, s: string, omitEmpty: bool): Field {
    Field(tag, omitEmpty, s == "", JString(s))
  }

  function BoolField(tag: string, b: bool, omitEmpty: bool): Field {
    Field(tag, omitEmpty, !b, JBool(b))
  }

  /** A `*bool` field: nil is empty and encodes as null. */
  function BoolPtrField(tag: string, p: Option<bool>, omitEmpty: bool): Field {
    Field(tag, omitEmpty, p.None?, if p.Some? then JBool(p.value) else JNull)
  }

  function ListField(tag: string, items: seq<Value>, omitEmpty: bool): Field {
    Field(tag, omitEmpty, items == [], JArray(items))
  }

  function MapField(tag: string, entries: seq<Member>, omitEmpty: bool): Field {
    Field(tag, omitEmpty, entries == [], JObject(entries))
  }

  /** An `any` field under the standard encoder: only nil is empty. */
  function AnyField(tag: string, x: Dynamic, omitEmpty: bool): Field {
    Field(tag, omitEmpty, x.Nil?, match x
      case Nil => JNull
      case Str(s) => JString(s)
      case Bool(b) => JBool(b)
      case Other(j) => j)
  }

  /** The members encoding/json writes for a struct: one per field, in field
      order, leaving out every omitempty field that holds an empty value. */
  function EncodeStruct(fields: seq<Field>): (ms: seq<Member>)
    ensures |ms| <= |fields|
  {
    if fields == [] then []
    else
      (if Emitted(fields[0]) then [Member(fields[0].tag, fields[0].value)] else [])
      + EncodeStruct(fields[1..])
  }

  function Tags(fields: seq<Field>): (ts: seq<string>)
    ensures |ts| == |fields|
    ensures forall i :: 0 <= i < |fields| ==> ts[i] == fields[i].tag
  {
    seq(|fields|, i requires 0 <= i < |fields| => fields[i].tag)
  }

  lemma {:induction false} EncodeStructAppend(a: seq<Field>, b: seq<Field>)
    ensures EncodeStruct(a + b) == EncodeStruct(a) + EncodeStruct(b)
  {
    if a == [] {
      assert a + b == b;
    } else {
      assert (a + b)[0] == a[0];
      assert (a + b)[1..] == a[1..] + b;
      EncodeStructAppend(a[1..], b);
    }
  }

  /** A struct encodes to `{}` exactly when every field is omitted. */
  lemma {:induction false} EncodeStructEmpty(fields: seq<Field>)
    ensures EncodeStruct(fields) == [] <==> forall i :: 0 <= i < |fields| ==> !Emitted(fields[i])
  {
    if fields != [] {
      EncodeStructEmpty(fields[1..]);
      assert forall i :: 1 <= i < |fields| ==> fields[1..][i - 1] == fields[i];
    }
  }

  /** The members of a non-empty field list: the first field's member, if
      written, then the members of the rest. */
  lemma EncodeStructCons(fields: seq<Field>)
    requires fields != []
    ensures EncodeStruct(fields) == Head(fields[0]) + EncodeStruct(fields[1..])
  {
  }

  function Head(f: Field): seq<Member> {
    if Emitted(f) then [Member(f.tag, f.value)] else []
  }

  /** A key is written exactly when some field with that tag is written. */
  lemma {:induction false} EncodeStructKeys(fields: seq<Field>, k: string)
    ensures k in Keys(EncodeStruct(fields)) <==>
      exists i :: 0 <= i < |fields| && Emitted(fields[i]) && fields[i].tag == k
  {
    if fields != [] {
      var rest := fields[1..];
      EncodeStructKeys(rest, k);
      EncodeStructCons(fields);
      KeysAppend(Head(fields[0]), EncodeStruct(rest));
      assert k in Keys(EncodeStruct(fields)) <==>
        (Emitted(fields[0]) && fields[0].tag == k) || k in Keys(EncodeStruct(rest));
      if exists i :: 0 <= i < |fields| && Emitted(fields[i]) && fields[i].tag == k {
        var i :| 0 <= i < |fields| && Emitted(fields[i]) && fields[i].tag == k;
        if i > 0 {
          assert rest[i - 1] == fields[i];
        }
      }
      if k in Keys(EncodeStruct(rest)) {
        var j :| 0 <= j < |rest| && Emitted(rest[j]) && rest[j].tag == k;
        assert fields[j + 1] == rest[j];
      }
    }
  }

  predicate DistinctTags(fields: seq<Field>) {
    forall i, j :: 0 <= i < j < |fields| ==> fields[i].tag != fields[j].tag
  }

  /** The value a decoder finds under an emitted field's tag is that field's
      value, when no earlier field carries the same tag. */
  lemma {:induction false} EncodeStructLookup(fields: seq<Field>, i: nat)
    requires i < |fields| && Emitted(fields[i])
    requires forall j :: 0 <= j < i ==> fields[j].tag != fields[i].tag
    ensures Lookup(EncodeStruct(fields), fields[i].tag) == Some(fields[i].value)
  {
    var rest := fields[1..];
    var k := fields[i].tag;
    EncodeStructCons(fields);
    if i == 0 {
      LookupCons(Member(k, fields[0].value), EncodeStruct(rest), k);
    } else {
      assert rest[i - 1] == fields[i];
      forall j | 0 <= j < i - 1 ensures rest[j].tag != k {
        assert rest[j] == fields[j + 1];
      }
      EncodeStructLookup(rest, i - 1);
      if Emitted(fields[0]) {
        LookupCons(Member(fields[0].tag, fields[0].value), EncodeStruct(rest), k);
      } else {
        assert Head(fields[0]) + EncodeStruct(rest) == EncodeStruct(rest);
      }
    }
  }

  /** With distinct tags, a field's key is present exactly when the field is
      not an omitted empty value. */
  lemma EncodeStructPresence(fields: seq<Field>, i: nat)
    requires DistinctTags(fields)
    requires i < |fields|
    ensures fields[i].tag in Keys(EncodeStruct(fields)) <==> Emitted(fields[i])
  {
    EncodeStructKeys(fields, fields[i].tag);
    if exists j :: 0 <= j < |fields| && Emitted(fields[j]) && fields[j].tag == fields[i].tag {
      var j :| 0 <= j < |fields| && Emitted(fields[j]) && fields[j].tag == fields[i].tag;
      assert i == j;
    }
  }

  // ---------------------------------------------------------------------
  // Encoders of the nested records

  function EncodeMetadata(m: MetadataMap): (ms: seq<Member>)
    ensures |ms| == |m|
  {
    seq(|m|, i requires 0 <= i < |m| =>
      Member(m[i].0, JObject(EncodeStruct([
        StringField("type", m[i].1.typ, false),
        StringField("value", m[i].1.value, false)]))))
  }

  function EncodeAttribute(a: Attribute): Value {
    JObject(EncodeStruct([
      StringField("object_id", a.objectId, true),
      StringField("name", a.name, false),
      StringField("type", a.typ, false),
      StringField("expression", a.expression, true),
      StringField("skipValue", a.skipValue, true),
      StringField("entity_name", a.entityName, true),
      StringField("entity_type", a.entityType, true),
      MapField("metadata", EncodeMetadata(a.metadata), true)]))
  }

  function EncodeLazyAttribute(a: LazyAttribute): Value {
    JObject(EncodeStruct([
      StringField("object_id", a.objectId, true),
      StringField("name", a.name, false),
      StringField("type", a.typ, false),
      MapField("metadata", EncodeMetadata(a.metadata), true)]))
  }

  function EncodeStaticAttribute(a: StaticAttribute): Value {
    JObject(EncodeStruct([
      StringField("object_id", a.objectId, true),
      StringField("name", a.name, false),
      StringField("type", a.typ, false),
      Field("value", false, false, a.value),
      MapField("metadata", EncodeMetadata(a.metadata), true)]))
  }

  function EncodeCommand(c: Command): Value {
    JObject(EncodeStruct([
      StringField("object_id", c.objectId, true),
      StringField("name", c.name, false),
      StringField("type", c.typ, false),
      StringField("expression", c.expression, true),
      StringField("payloadType", c.payloadType, true),
      StringField("contentType", c.contentType, true),
      MapField("metadata", EncodeMetadata(c.metadata), true)]))
  }

  function Attributes(xs: seq<Attribute>): (r: seq<Value>)
    ensures |r| == |xs|
  {
    seq(|xs|, i requires 0 <= i < |xs| => EncodeAttribute(xs[i]))
  }

  function LazyAttributes(xs: seq<LazyAttribute>): (r: seq<Value>)
    ensures |r| == |xs|
  {
    seq(|xs|, i requires 0 <= i < |xs| => EncodeLazyAttribute(xs[i]))
  }

  function StaticAttributes(xs: seq<StaticAttribute>): (r: seq<Value>)
    ensures |r| == |xs|
  {
    seq(|xs|, i requires 0 <= i < |xs| => EncodeStaticAttribute(xs[i]))
  }

  function Commands(xs: seq<Command>): (r: seq<Value>)
    ensures |r| == |xs|
  {
    seq(|xs|, i requires 0 <= i < |xs| => EncodeCommand(xs[i]))
  }

  // ---------------------------------------------------------------------
  // ConfigGroup: the standard encoder (it has no MarshalJSON)

  function ConfigGroupFields(g: ConfigGroup): seq<Field> {
    [ StringField("service", g.service, true),
      StringField("subservice", g.servicePath, true),
      StringField("resource", g.resource, false),
      StringField("apikey", g.apikey, false),
      BoolPtrField("timestamp", g.timestamp, true),
      StringField("entity_type", g.entityType, true),
      StringField("trust", g.trust, true),
      StringField("cbHost", g.cbHost, true),
      ListField("lazy", LazyAttributes(g.lazy), true),
      ListField("commands", Commands(g.commands), true),
      ListField("attributes", Attributes(g.attributes), true),
      ListField("static_attributes", StaticAttributes(g.staticAttributes), true),
      ListField("internal_attributes", g.internalAttributes, true),
      StringField("explicitAttrs", g.explicitAttrs, true),
      StringField("entityNameExp", g.entityNameExp, true),
      StringField("ngsiVersion", g.ngsiVersion, true),
      StringField("defaultEntityNameConjunction", g.defaultEntityNameConjunction, true),
      BoolField("autoprovision", g.autoprovision, true),
      StringField("payloadType", g.payloadType, true),
      StringField("transport", g.transport, true),
      StringField("endpoint", g.endpoint, true) ]
  }

  function EncodeConfigGroup(g: ConfigGroup): (v: Value)
    ensures v.JObject? && |v.members| <= |ConfigGroupFields(g)|
  {
    JObject(EncodeStruct(ConfigGroupFields(g)))
  }

  /** `resource` and `apikey` carry no omitempty: every ConfigGroup encoding
      holds both, with the group's values, so it is never `{}`. */
  lemma ConfigGroupKeepsResource(g: ConfigGroup)
    ensures Lookup(EncodeConfigGroup(g).members, "resource") == Some(JString(g.resource))
  {
    EncodeStructLookup(ConfigGroupFields(g), 2);
  }

  lemma ConfigGroupKeepsApikey(g: ConfigGroup)
    ensures Lookup(EncodeConfigGroup(g).members, "apikey") == Some(JString(g.apikey))
  {
    EncodeStructLookup(ConfigGroupFields(g), 3);
  }

  lemma ConfigGroupNeverEmpty(g: ConfigGroup)
    ensures Render(EncodeConfigGroup(g)) != "{}"
  {
    ConfigGroupKeepsResource(g);
    RenderIsEmptyObject(EncodeConfigGroup(g));
  }

  // ---------------------------------------------------------------------
  // Device

  /** The fields of the embedded Alias that survive, in declaration order:
      Alias's own explicitAttrs (between internal_attributes and ngsiVersion)
      is shadowed by the wrapper's field of the same name. */
  function AliasFields(d: Device): seq<Field> {
    [ StringField("device_id", d.id, true),
      StringField("service", d.service, true),
      StringField("service_path", d.servicePath, true),
      StringField("entity_name", d.entityName, true),
      StringField("entity_type", d.entityType, true),
      StringField("timezon", d.timezone, true),
      BoolPtrField("timestamp", d.timestamp, true),
      StringField("apikey", d.apikey, true),
      StringField("endpoint", d.endpoint, true),
      StringField("protocol", d.protocol, true),
      StringField("transport", d.transport, true),
      ListField("attributes", Attributes(d.attributes), true),
      ListField("commands", Commands(d.commands), true),
      ListField("lazy", LazyAttributes(d.lazy), true),
      ListField("static_attributes", StaticAttributes(d.staticAttributes), true),
      ListField("internal_attributes", d.internalAttributes, true),
      StringField("ngsiVersion", d.ngsiVersion, true),
      StringField("payloadType", d.payloadType, true) ]
  }

  /** The position of explicitAttrs among Device's fields. */
  const ExplicitAttrsIndex := 16

  function AliasMembers(d: Device): seq<Member> {
    EncodeStruct(AliasFields(d))
  }

  const ExplicitAttrsKey := "explicitAttrs"
  const ExplicitAttrsTypeError := "ExplicitAttrs must be a string or a bool"

  /** The type switch of Device.MarshalJSON: the ExplicitAttrs field of the
      wrapper struct it builds, or the error for any other dynamic type. A
      string that normalises to "true" or "false" becomes a bool field
      without omitempty; any other string stays as given, under omitempty. */
  function ExplicitAttrsField(x: Dynamic): Result<Field, string> {
    match x
    case Str(v) =>
      var t := Normalize(v);
      if t == "true" || t == "false" then Ok(BoolField(ExplicitAttrsKey, t == "true", false))
      else Ok(StringField(ExplicitAttrsKey, v, true))
    case Bool(b) => Ok(BoolField(ExplicitAttrsKey, b, false))
    case _ => Err(ExplicitAttrsTypeError)
  }

  /** The wrapper struct `{ExplicitAttrs; *Alias}`: its own field first, then
      the fields of the embedded Alias. */
  function Wrapped(f: Field, d: Device): Value {
    JObject(EncodeStruct([f] + AliasFields(d)))
  }

  /** Device.MarshalJSON. */
  function MarshalDevice(d: Device): (r: Result<Value, string>)
    ensures r.Ok? <==> d.explicitAttrs.Str? || d.explicitAttrs.Bool?
    ensures r.Err? ==> r.error == ExplicitAttrsTypeError
    ensures r.Ok? ==> r.value.JObject? && |r.value.members| <= |AliasFields(d)| + 1
  {
    match ExplicitAttrsField(d.explicitAttrs)
    case Ok(f) => Ok(Wrapped(f, d))
    case Err(e) => Err(e)
  }

  /** The standard encoding of a Device value, which encoding/json uses when
      it cannot take the value's address and so never calls MarshalJSON: the
      `any` field is written in its struct position and dropped only when nil. */
  function PlainFields(d: Device): seq<Field> {
    var fs := AliasFields(d);
    fs[..ExplicitAttrsIndex] + [AnyField(ExplicitAttrsKey, d.explicitAttrs, true)] + fs[ExplicitAttrsIndex..]
  }

  function EncodeDevicePlain(d: Device): (v: Value)
    ensures v.JObject? && |v.members| <= |AliasFields(d)| + 1
  {
    JObject(EncodeStruct(PlainFields(d)))
  }

  /** The standard encoding writes explicitAttrs exactly when it is not nil,
      with the dynamic value as it is: a string stays a string. */
  lemma PlainExplicitAttrs(d: Device)
    ensures ExplicitAttrsKey in Keys(EncodeDevicePlain(d).members) <==> !d.explicitAttrs.Nil?
    ensures !d.explicitAttrs.Nil? ==>
      Lookup(EncodeDevicePlain(d).members, ExplicitAttrsKey) == Some(AnyField(ExplicitAttrsKey, d.explicitAttrs, true).value)
  {
    var fs := PlainFields(d);
    PlainFieldsTags(d);
    EncodeStructPresence(fs, ExplicitAttrsIndex);
    if !d.explicitAttrs.Nil? {
      EncodeStructLookup(fs, ExplicitAttrsIndex);
    }
  }

  /** The explicitAttrs value an encoding carries, as a decoder would read it. */
  function ExplicitAttrsOf(v: Value): Option<Value> {
    if v.JObject? then Lookup(v.members, ExplicitAttrsKey) else None
  }

  // --- a wrapper field in front of a struct's fields

  lemma WrapperMembers(f: Field, fs: seq<Field>)
    ensures EncodeStruct([f] + fs) == Head(f) + EncodeStruct(fs)
  {
    EncodeStructAppend([f], fs);
    assert EncodeStruct([f]) == Head(f) + EncodeStruct([]);
  }

  /** A tag that no field carries is not written. */
  lemma AbsentTag(fs: seq<Field>, k: string)
    requires forall j :: 0 <= j < |fs| ==> fs[j].tag != k
    ensures k !in Keys(EncodeStruct(fs))
    ensures Lookup(EncodeStruct(fs), k) == None
  {
    EncodeStructKeys(fs, k);
  }

  /** A wrapper field whose tag the inner fields do not carry is read back
      as its own value when written, and is absent otherwise. */
  lemma WrapperLookupOwn(f: Field, fs: seq<Field>)
    requires forall j :: 0 <= j < |fs| ==> fs[j].tag != f.tag
    ensures Lookup(EncodeStruct([f] + fs), f.tag) == if Emitted(f) then Some(f.value) else None
  {
    WrapperMembers(f, fs);
    AbsentTag(fs, f.tag);
    if Emitted(f) {
      LookupCons(Member(f.tag, f.value), EncodeStruct(fs), f.tag);
    } else {
      assert Head(f) + EncodeStruct(fs) == EncodeStruct(fs);
    }
  }

  /** Behind such a wrapper field, each inner field keeps its own tag rule. */
  lemma WrapperLookupInner(f: Field, fs: seq<Field>, i: nat)
    requires DistinctTags(fs)
    requires forall j :: 0 <= j < |fs| ==> fs[j].tag != f.tag
    requires i < |fs|
    ensures fs[i].tag in Keys(EncodeStruct([f] + fs)) <==> Emitted(fs[i])
    ensures Emitted(fs[i]) ==> Lookup(EncodeStruct([f] + fs), fs[i].tag) == Some(fs[i].value)
  {
    WrapperMembers(f, fs);
    EncodeStructPresence(fs, i);
    if Emitted(fs[i]) {
      EncodeStructLookup(fs, i);
    }
    assert Keys(Head(f)) == if Emitted(f) then [f.tag] else [];
    LookupSkip(Head(f), EncodeStruct(fs), fs[i].tag);
  }

  // --- the Alias's tags

  /** The tags of the Alias's fields, in order. */
  const AliasTags: seq<string> := [
    "device_id", "service", "service_path", "entity_name", "entity_type",
    "timezon", "timestamp", "apikey", "endpoint", "protocol", "transport",
    "attributes", "commands", "lazy", "static_attributes",
    "internal_attributes", "ngsiVersion", "payloadType"]

  lemma AliasTagsOf(d: Device)
    ensures Tags(AliasFields(d)) == AliasTags
  {
  }

  lemma AliasTagsDistinct()
    ensures forall i, j :: 0 <= i < j < |AliasTags| ==> AliasTags[i] != AliasTags[j]
    ensures forall i :: 0 <= i < |AliasTags| ==> AliasTags[i] != ExplicitAttrsKey
  {
  }

  /** The Alias's tags are distinct, and none of them is explicitAttrs: the
      wrapper's field shadows the Alias's own. */
  lemma AliasFieldsTags(d: Device)
    ensures DistinctTags(AliasFields(d))
    ensures forall j :: 0 <= j < |AliasFields(d)| ==> AliasFields(d)[j].tag != ExplicitAttrsKey
  {
    AliasTagsOf(d);
    AliasTagsDistinct();
    var fs := AliasFields(d);
    assert forall j :: 0 <= j < |fs| ==> fs[j].tag == AliasTags[j];
  }

  /** The plain encoding's tags are distinct too: explicitAttrs sits in its
      declared place among the Alias's tags. */
  lemma PlainFieldsTags(d: Device)
    ensures DistinctTags(PlainFields(d))
    ensures PlainFields(d)[ExplicitAttrsIndex] == AnyField(ExplicitAttrsKey, d.explicitAttrs, true)
    ensures forall i :: 0 <= i < ExplicitAttrsIndex ==> PlainFields(d)[i] == AliasFields(d)[i]
  {
    AliasFieldsTags(d);
    var fs := AliasFields(d);
    var p := PlainFields(d);
    assert forall i :: 0 <= i < ExplicitAttrsIndex ==> p[i] == fs[i];
    assert forall i :: ExplicitAttrsIndex < i < |p| ==> p[i] == fs[i - 1];
    forall i, j | 0 <= i < j < |p|
      ensures p[i].tag != p[j].tag
    {
      var i' := if i <= ExplicitAttrsIndex then i else i - 1;
      var j' := if j <= ExplicitAttrsIndex then j else j - 1;
      if i != ExplicitAttrsIndex && j != ExplicitAttrsIndex {
        assert p[i] == fs[i'] && p[j] == fs[j'] && i' < j';
      } else if i == ExplicitAttrsIndex {
        assert p[j] == fs[j'];
      } else {
        assert p[i] == fs[i'];
      }
    }
  }

  // --- properties of MarshalDevice

  /** The shape of every encoding: it succeeds exactly for a string or a bool,
      and then holds the Alias's members, preceded by at most one member,
      keyed explicitAttrs; no Alias member is keyed explicitAttrs. */
  lemma MarshalDeviceShape(d: Device)
    ensures MarshalDevice(d).Ok? <==> d.explicitAttrs.Str? || d.explicitAttrs.Bool?
    ensures MarshalDevice(d).Ok? ==>
      var ms := MarshalDevice(d).value.members;
      MarshalDevice(d).value.JObject? &&
      (ms == AliasMembers(d) || (ms != [] && ms[0].key == ExplicitAttrsKey && ms[1..] == AliasMembers(d)))
    ensures ExplicitAttrsKey !in Keys(AliasMembers(d))
  {
    AliasFieldsTags(d);
    AbsentTag(AliasFields(d), ExplicitAttrsKey);
    var r := ExplicitAttrsField(d.explicitAttrs);
    if r.Ok? {
      WrapperMembers(r.value, AliasFields(d));
      if !Emitted(r.value) {
        assert Head(r.value) + AliasMembers(d) == AliasMembers(d);
      }
    }
  }

  /** What a decoder reads under explicitAttrs is the wrapper field's value,
      when that field is written. */
  lemma MarshalExplicitAttrs(d: Device)
    requires MarshalDevice(d).Ok?
    ensures var f := ExplicitAttrsField(d.explicitAttrs).value;
      ExplicitAttrsOf(MarshalDevice(d).value) == if Emitted(f) then Some(f.value) else None
  {
    AliasFieldsTags(d);
    WrapperLookupOwn(ExplicitAttrsField(d.explicitAttrs).value, AliasFields(d));
  }

  /** A string that normalises to "true" or "false" is written as the boolean
      `normalised == "true"`, whatever its case and padding. */
  lemma MarshalBooleanString(d: Device)
    requires d.explicitAttrs.Str?
    requires Normalize(d.explicitAttrs.s) == "true" || Normalize(d.explicitAttrs.s) == "false"
    ensures MarshalDevice(d).Ok?
    ensures ExplicitAttrsOf(MarshalDevice(d).value) == Some(JBool(Normalize(d.explicitAttrs.s) == "true"))
  {
    MarshalExplicitAttrs(d);
  }

  /** Any other non-empty string is written as the original string, not as
      its normalised form. */
  lemma MarshalVerbatimString(d: Device)
    requires d.explicitAttrs.Str? && d.explicitAttrs.s != ""
    requires Normalize(d.explicitAttrs.s) != "true" && Normalize(d.explicitAttrs.s) != "false"
    ensures MarshalDevice(d).Ok?
    ensures ExplicitAttrsOf(MarshalDevice(d).value) == Some(JString(d.explicitAttrs.s))
  {
    MarshalExplicitAttrs(d);
  }

  /** The empty string drops the key; the rest of the Device is written as usual. */
  lemma MarshalEmptyString(d: Device)
    requires d.explicitAttrs == Str("")
    ensures MarshalDevice(d) == Ok(JObject(AliasMembers(d)))
    ensures ExplicitAttrsOf(MarshalDevice(d).value) == None
  {
    assert Normalize("") == "" by { NormalizePadded("", 0, 0); }
    MarshalDeviceShape(d);
    MarshalExplicitAttrs(d);
  }

  /** A white-space-only string normalises to "" but is not itself empty,
      so it is written verbatim rather than omitted. */
  lemma MarshalWhitespaceString(d: Device)
    requires d.explicitAttrs.Str? && d.explicitAttrs.s != "" && AllSpace(d.explicitAttrs.s)
    ensures Normalize(d.explicitAttrs.s) == ""
    ensures ExplicitAttrsOf(MarshalDevice(d).value) == Some(JString(d.explicitAttrs.s))
  {
    var s := d.explicitAttrs.s;
    assert s[..|s|] == s;
    assert s[|s|..] == [];
    NormalizePadded(s, |s|, |s|);
    MarshalVerbatimString(d);
  }

  /** A Go bool is written as itself, `false` included: the wrapper field has
      no omitempty. */
  lemma MarshalBool(d: Device)
    requires d.explicitAttrs.Bool?
    ensures MarshalDevice(d).Ok?
    ensures ExplicitAttrsOf(MarshalDevice(d).value) == Some(JBool(d.explicitAttrs.b))
  {
    MarshalExplicitAttrs(d);
  }

  /** Every other dynamic type, nil included, fails with no output. */
  lemma MarshalOtherFails(d: Device)
    requires d.explicitAttrs.Nil? || d.explicitAttrs.Other?
    ensures MarshalDevice(d) == Err("ExplicitAttrs must be a string or a bool")
  {
  }

  /** Apart from explicitAttrs, each Device field is written under its tag
      exactly when it is not an omitempty field holding an empty value, and
      then with its own value. */
  lemma MarshalDeviceField(d: Device, i: nat)
    requires MarshalDevice(d).Ok?
    requires i < |AliasFields(d)|
    ensures var f := AliasFields(d)[i];
      (f.tag in Keys(MarshalDevice(d).value.members) <==> Emitted(f))
      && (Emitted(f) ==> Lookup(MarshalDevice(d).value.members, f.tag) == Some(f.value))
  {
    AliasFieldsTags(d);
    WrapperLookupInner(ExplicitAttrsField(d.explicitAttrs).value, AliasFields(d), i);
  }

  lemma {:induction false} LookupSkip(head: seq<Member>, rest: seq<Member>, k: string)
    requires k !in Keys(head)
    ensures Lookup(head + rest, k) == Lookup(rest, k)
    ensures k in Keys(head + rest) <==> k in Keys(rest)
  {
    KeysAppend(head, rest);
    if head != [] {
      var h, t := head[0], head[1..];
      assert head == [h] + t;
      assert head + rest == [h] + (t + rest);
      LookupCons(h, t, k);
      LookupCons(h, t + rest, k);
      LookupSkip(t, rest, k);
    } else {
      assert head + rest == rest;
    }
  }

  /** A Device whose fields are all omitted and whose ExplicitAttrs is the
      empty string encodes to `{}`. */
  lemma EmptyDeviceIsEmptyObject(d: Device)
    requires d.explicitAttrs == Str("")
    requires forall i :: 0 <= i < |AliasFields(d)| ==> !Emitted(AliasFields(d)[i])
    ensures MarshalDevice(d) == Ok(JObject([]))
    ensures Render(MarshalDevice(d).value) == "{}"
  {
    MarshalEmptyString(d);
    EncodeStructEmpty(AliasFields(d));
  }

  lemma RenderSingleMember(k: string, v: Value)
    requires forall i :: 0 <= i < |k| ==> IsPlain(k[i])
    ensures Render(JObject([Member(k, v)])) == "{\"" + k + "\":" + Render(v) + "}"
  {
    EscapePlain(k);
  }

  /** When every other field is omitted, an encoding that carries `v` under
      explicitAttrs holds that one member and nothing else. */
  lemma LoneExplicitAttrs(d: Device, v: Value)
    requires forall i :: 0 <= i < |AliasFields(d)| ==> !Emitted(AliasFields(d)[i])
    requires MarshalDevice(d).Ok?
    requires ExplicitAttrsOf(MarshalDevice(d).value) == Some(v)
    ensures MarshalDevice(d).value == JObject([Member(ExplicitAttrsKey, v)])
  {
    var f := ExplicitAttrsField(d.explicitAttrs).value;
    EncodeStructEmpty(AliasFields(d));
    WrapperMembers(f, AliasFields(d));
    MarshalExplicitAttrs(d);
    assert MarshalDevice(d).value.members == Head(f) + [];
  }

  /** Such an encoding is the text `{"explicitAttrs":v}`. */
  lemma RenderLoneExplicitAttrs(d: Device, v: Value)
    requires forall i :: 0 <= i < |AliasFields(d)| ==> !Emitted(AliasFields(d)[i])
    requires MarshalDevice(d).Ok?
    requires ExplicitAttrsOf(MarshalDevice(d).value) == Some(v)
    ensures Render(MarshalDevice(d).value) == "{\"" + ExplicitAttrsKey + "\":" + Render(v) + "}"
  {
    LoneExplicitAttrs(d, v);
    var k := ExplicitAttrsKey;
    RenderExplicitAttrsMember(k, v);
  }

  lemma RenderExplicitAttrsMember(k: string, v: Value)
    requires k == "explicitAttrs"
    ensures Render(JObject([Member(k, v)])) == "{\"" + k + "\":" + Render(v) + "}"
  {
    assert forall i :: 0 <= i < |k| ==> IsPlain(k[i]);
    RenderSingleMember(k, v);
  }

  // --- the encodings of the unit tests, as text

  /** The Device of the unit tests: every field empty except ExplicitAttrs. */
  function TestDevice(x: Dynamic): Device {
    ZeroDevice().(explicitAttrs := x)
  }

  lemma TestDeviceOmitsAll(d: Device)
    requires d == TestDevice(d.explicitAttrs)
    ensures forall i :: 0 <= i < |AliasFields(d)| ==> !Emitted(AliasFields(d)[i])
  {
  }

  /** A proof step for the fixtures below: the text `{"explicitAttrs":t}`
      with the key passed as a parameter, which keeps the literal from being
      unrolled. */
  lemma LoneMemberText(k: string, t: string)
    requires k == "explicitAttrs"
    ensures "{\"" + k + "\":" + t + "}" == "{\"explicitAttrs\":" + t + "}"
  {
  }

  /** "true", "false" and " True\t " become booleans. */
  lemma TestCaseBoolean(s: string, i: nat, j: nat, b: bool)
    requires i <= j <= |s| && AllSpace(s[..i]) && AllSpace(s[j..])
    requires ToLower(s[i..j]) == if b then "true" else "false"
    ensures Render(MarshalDevice(TestDevice(Str(s))).value) == "{\"explicitAttrs\":" + Render(JBool(b)) + "}"
  {
    var d := TestDevice(Str(s));
    PaddedWordNormalizes(s, if b then "true" else "false", i, j);
    MarshalBooleanString(d);
    TestDeviceOmitsAll(d);
    RenderLoneExplicitAttrs(d, JBool(b));
    var k := ExplicitAttrsKey;
    LoneMemberText(k, Render(JBool(b)));
  }

  /** The fixtures "true", "false" and " True\t " meet TestCaseBoolean's
      requirements. */
  lemma BooleanFixtures(s1: string, s2: string, s3: string)
    requires s1 == "true" && s2 == "false" && s3 == " True\t "
    ensures PaddedWord(s1, "true", 0, 4)
    ensures PaddedWord(s2, "false", 0, 5)
    ensures PaddedWord(s3, "true", 1, 5)
  {
  }

  /** The fixture "test" meets TestCaseVerbatim's requirements. */
  lemma VerbatimFixture(s: string)
    requires s == "test"
    ensures Normalize(s) == "test"
    ensures Quote(s) == "\"test\""
  {
    NormalizePadded(s, 0, 4);
    QuotePlain(s);
  }

  /** "test", and any other non-empty string that does not normalise to a
      boolean, is written as its own quoted text. */
  lemma TestCaseVerbatim(s: string)
    requires s != ""
    requires Normalize(s) != "true" && Normalize(s) != "false"
    ensures Render(MarshalDevice(TestDevice(Str(s))).value) == "{\"explicitAttrs\":" + Quote(s) + "}"
  {
    var d := TestDevice(Str(s));
    MarshalVerbatimString(d);
    TestDeviceOmitsAll(d);
    RenderLoneExplicitAttrs(d, JString(s));
    var k := ExplicitAttrsKey;
    LoneMemberText(k, Quote(s));
  }

  lemma TestCaseBool(b: bool)
    ensures Render(MarshalDevice(TestDevice(Bool(b))).value) == "{\"explicitAttrs\":" + Render(JBool(b)) + "}"
  {
    var d := TestDevice(Bool(b));
    MarshalBool(d);
    TestDeviceOmitsAll(d);
    RenderLoneExplicitAttrs(d, JBool(b));
    var k := ExplicitAttrsKey;
    LoneMemberText(k, Render(JBool(b)));
  }

  lemma TestCaseEmpty(s: string)
    requires s == ""
    ensures Render(MarshalDevice(TestDevice(Str(s))).value) == "{}"
  {
    var d := TestDevice(Str(s));
    TestDeviceOmitsAll(d);
    EmptyDeviceIsEmptyObject(d);
  }

  lemma TestCaseNumber(n: int)
    ensures MarshalDevice(TestDevice(Other(JNumber(n)))) == Err(ExplicitAttrsTypeError)
  {
  }
}
