/**
 * The date-aware serializer and deserializer exported for the persisted-state
 * plugin (no store installs them; each keeps the plugin's default), over the tree of values `JSON.stringify` walks and `JSON.parse`
 * builds. The text layer (quoting, escaping, parsing characters) is not part
 * of this model: `Serialize` maps a store value to the tree that is written,
 * `Deserialize` maps a parsed tree to the value the store receives.
 *
 * `JSON.stringify` (section 25.5.2 of ECMA-262, SerializeJSONProperty) calls a
 * value's `toJSON` BEFORE it hands the value to the replacer. A `Date`'s
 * `toJSON` returns its ISO string, so the replacer never sees a `Date`.
 * `JSON.parse` (section 25.5.1 of ECMA-262, InternalizeJSONProperty) calls the
 * reviver on every value after its members have been revived: bottom-up.
 */
module Persistence {
  import opened Wrappers

  /** A JavaScript value as far as serialization can tell; `JDate` is a valid `Date`. */
  datatype Json =
    | JNull
    | JBool(b: bool)
    | JNum(n: int)
    | JStr(s: string)
    | JArr(items: seq<Json>)
    | JObj(fields: seq<Field>)
    | JDate(iso: string)

  /** One own property of an object, in insertion order. */
  datatype Field = Field(key: string, value: Json)

  /** `obj[key]`; with a repeated key the last one wins, as `JSON.parse` leaves it. */
  function Get(fields: seq<Field>, key: string): (r: Option<Json>)
    ensures r.Some? <==> exists k :: 0 <= k < |fields| && fields[k].key == key
    ensures r.Some? ==> exists k :: (0 <= k < |fields| && fields[k].key == key && fields[k].value == r.value
      && forall j :: k < j < |fields| ==> fields[j].key != key)
  {
    if fields == [] then None
    else if fields[|fields| - 1].key == key then Some(fields[|fields| - 1].value)
    else
      var r := Get(fields[..|fields| - 1], key);
      assert forall j :: 0 <= j < |fields| - 1 ==> fields[..|fields| - 1][j] == fields[j];
      r
  }

  /** The object the replacer is written to store in place of a `Date`. */
  function DateTag(iso: string): Json {
    JObj([Field("__type", JStr("Date")), Field("iso", JStr(iso))])
  }

  /** No `Date` anywhere in the tree. */
  predicate NoDates(v: Json) {
    match v
    case JDate(_) => false
    case JArr(items) => forall k :: 0 <= k < |items| ==> NoDates(items[k])
    case JObj(fields) => forall k :: 0 <= k < |fields| ==> NoDates(fields[k].value)
    case _ => true
  }

  // ---------------------------------------------------------------- serializer

  /** `Date.prototype.toJSON`: a valid date becomes its ISO string; no other value has one. */
  function ToJson(v: Json): Json {
    if v.JDate? then JStr(v.iso) else v
  }

  /** The replacer of `customSerializer` as written. */
  function Replacer(v: Json): (r: Json)
    ensures !r.JDate?
    ensures v.JDate? ==> r.JObj? && Get(r.fields, "__type") == Some(JStr("Date")) && Get(r.fields, "iso") == Some(JStr(v.iso))
    ensures !v.JDate? ==> r == v
  {
    if v.JDate? then TagMembers(v.iso); DateTag(v.iso) else v
  }

  /** The value written for a property: `toJSON` first, then the replacer, which passes it through. */
  function SerializeProperty(v: Json): (r: Json)
    ensures r == ToJson(v)
    ensures !r.JDate?
  {
    Replacer(ToJson(v))
  }

  /** `customSerializer`: each value is transformed top-down, then its members. */
  function Serialize(v: Json): (r: Json)
    decreases v
    ensures NoDates(r)
    ensures NoDates(v) ==> r == v
  {
    match SerializeProperty(v)
    case JArr(items) =>
      JArr(seq(|items|, k requires 0 <= k < |items| => Serialize(items[k])))
    case JObj(fields) =>
      JObj(seq(|fields|, k requires 0 <= k < |fields| => Field(fields[k].key, Serialize(fields[k].value))))
    case w => w
  }

  /** The replacer's `Date` branch is dead: it never changes what it is given. */
  lemma ReplacerNeverFires(v: Json)
    ensures Replacer(ToJson(v)) == ToJson(v)
  {
  }

  // ---------------------------------------------------------------- deserializer

  /** The reviver's test: an object with `__type === 'Date'` and a non-empty string `iso`. */
  predicate Revivable(v: Json) {
    v.JObj? && Get(v.fields, "__type") == Some(JStr("Date"))
    && match Get(v.fields, "iso")
       case Some(JStr(s)) => s != ""
       case _ => false
  }

  /** The reviver of `customDeserializer`: a tagged object becomes `new Date(iso)`. */
  function Reviver(v: Json): (r: Json)
    ensures !Revivable(v) ==> r == v
    ensures Revivable(v) ==> r.JDate? && r.iso != "" && Get(v.fields, "iso") == Some(JStr(r.iso))
  {
    if Revivable(v) then JDate(Get(v.fields, "iso").value.s) else v
  }

  /** No node of the tree passes the reviver's test. */
  predicate NoRevivable(v: Json) {
    !Revivable(v)
    && match v
       case JArr(items) => forall k :: 0 <= k < |items| ==> NoRevivable(items[k])
       case JObj(fields) => forall k :: 0 <= k < |fields| ==> NoRevivable(fields[k].value)
       case _ => true
  }

  /** `customDeserializer` over a parsed tree: members are revived first, then the value. */
  function Deserialize(v: Json): (r: Json)
    decreases v
    ensures v.JArr? ==> r.JArr? && |r.items| == |v.items|
    ensures v.JObj? && !r.JDate? ==>
      (r.JObj? && |r.fields| == |v.fields| && forall k :: 0 <= k < |r.fields| ==> r.fields[k].key == v.fields[k].key)
    ensures r.JDate? ==> v.JDate? || v.JObj?
    ensures !v.JArr? && !v.JObj? ==> r == v
  {
    match v
    case JArr(items) =>
      Reviver(JArr(seq(|items|, k requires 0 <= k < |items| => Deserialize(items[k]))))
    case JObj(fields) =>
      Reviver(JObj(seq(|fields|, k requires 0 <= k < |fields| => Field(fields[k].key, Deserialize(fields[k].value)))))
    case _ => Reviver(v)
  }

  /** A tree in which no node passes the reviver's test is returned unchanged. */
  lemma {:induction false} DeserializeUntagged(v: Json)
    requires NoRevivable(v)
    ensures Deserialize(v) == v
    decreases v
  {
    match v
    case JArr(items) =>
      forall k | 0 <= k < |items|
        ensures Deserialize(items[k]) == items[k]
      {
        DeserializeUntagged(items[k]);
      }
      assert seq(|items|, k requires 0 <= k < |items| => Deserialize(items[k])) == items;
    case JObj(fields) =>
      forall k | 0 <= k < |fields|
        ensures Deserialize(fields[k].value) == fields[k].value
      {
        DeserializeUntagged(fields[k].value);
      }
      assert seq(|fields|, k requires 0 <= k < |fields| => Field(fields[k].key, Deserialize(fields[k].value))) == fields;
    case _ =>
  }

  /** The reviver changes exactly the tagged objects with a non-empty `iso`, into that date. */
  lemma ReviverChangesOnlyTags(v: Json)
    ensures Reviver(v) != v <==> Revivable(v)
    ensures Revivable(v) ==> Reviver(v) == JDate(Get(v.fields, "iso").value.s)
  {
  }

  /** The two members of a tag, as the reviver reads them. */
  lemma TagMembers(iso: string)
    ensures Get(DateTag(iso).fields, "__type") == Some(JStr("Date"))
    ensures Get(DateTag(iso).fields, "iso") == Some(JStr(iso))
  {
    var fields := DateTag(iso).fields;
    assert |"__type"| != |"iso"|;
    assert fields[..1] == [Field("__type", JStr("Date"))] && fields[..1][..0] == [];
  }

  /** A tag's string members revive to themselves, so only the tag itself meets the reviver. */
  lemma DeserializeTag(iso: string)
    ensures Deserialize(DateTag(iso)) == Reviver(DateTag(iso))
  {
    var fields := DateTag(iso).fields;
    assert Deserialize(fields[0].value) == fields[0].value;
    assert Deserialize(fields[1].value) == fields[1].value;
    assert seq(|fields|, k requires 0 <= k < |fields| => Field(fields[k].key, Deserialize(fields[k].value))) == fields;
  }

  /** A tag whose `iso` is '' is falsy in the reviver's test and stays an object. */
  lemma EmptyIsoKept()
    ensures Deserialize(DateTag("")) == DateTag("")
  {
    TagMembers("");
    DeserializeTag("");
  }

  /** A well-formed tag deserializes to the date it names. */
  lemma TagRevives(iso: string)
    requires iso != ""
    ensures Deserialize(DateTag(iso)) == JDate(iso)
  {
    TagMembers(iso);
    DeserializeTag(iso);
  }

  // ---------------------------------------------------------------- round trips

  /** Trees with neither dates nor tagged objects come back unchanged. */
  lemma RoundTrip(v: Json)
    requires NoDates(v) && NoRevivable(v)
    ensures Deserialize(Serialize(v)) == v
  {
    DeserializeUntagged(v);
  }

  /** As written, a date comes back as its ISO string, not as a date. */
  lemma DateNotRestored(iso: string)
    ensures Deserialize(Serialize(JDate(iso))) == JStr(iso)
    ensures Deserialize(Serialize(JDate(iso))) != JDate(iso)
  {
  }

  // ---------------------------------------------------------------- the serializer as intended

  /**
   * The serializer the replacer was written for: it looks at the value held
   * before `toJSON` ran (as `this[key] instanceof Date` would), so a date is
   * stored as its tag; the tag's members are strings and are written as they are.
   */
  function SerializeIntended(v: Json): (r: Json)
    decreases v
    ensures NoDates(r)
    ensures NoDates(v) ==> r == Serialize(v)
  {
    match v
    case JDate(iso) => DateTag(iso)
    case JArr(items) =>
      JArr(seq(|items|, k requires 0 <= k < |items| => SerializeIntended(items[k])))
    case JObj(fields) =>
      JObj(seq(|fields|, k requires 0 <= k < |fields| => Field(fields[k].key, SerializeIntended(fields[k].value))))
    case _ => v
  }

  /** Every date in the tree has a non-empty ISO string, as every valid date does. */
  predicate DatesHaveIso(v: Json) {
    match v
    case JDate(iso) => iso != ""
    case JArr(items) => forall k :: 0 <= k < |items| ==> DatesHaveIso(items[k])
    case JObj(fields) => forall k :: 0 <= k < |fields| ==> DatesHaveIso(fields[k].value)
    case _ => true
  }

  /** With the intended serializer every tree without tagged objects round-trips, dates included. */
  lemma {:induction false} IntendedRoundTrip(v: Json)
    requires NoRevivable(v) && DatesHaveIso(v)
    ensures Deserialize(SerializeIntended(v)) == v
    decreases v
  {
    match v
    case JDate(iso) =>
      TagRevives(iso);
    case JArr(items) =>
      var s := seq(|items|, k requires 0 <= k < |items| => SerializeIntended(items[k]));
      forall k | 0 <= k < |items|
        ensures Deserialize(s[k]) == items[k]
      {
        IntendedRoundTrip(items[k]);
      }
      assert seq(|s|, k requires 0 <= k < |s| => Deserialize(s[k])) == items;
    case JObj(fields) =>
      var s := seq(|fields|, k requires 0 <= k < |fields| => Field(fields[k].key, SerializeIntended(fields[k].value)));
      forall k | 0 <= k < |fields|
        ensures Deserialize(s[k].value) == fields[k].value
      {
        IntendedRoundTrip(fields[k].value);
      }
      assert seq(|s|, k requires 0 <= k < |s| => Field(s[k].key, Deserialize(s[k].value))) == fields;
    case _ =>
  }
}
