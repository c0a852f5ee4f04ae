/** The per-notification transform: copy every field of the upstream record,
    then set `fullName` and `description` from the type table, falling back
    to fixed texts when the record's type code has no entry. Converting the
    type code to a table key can throw, which fails the record. */
module Enrichment {
  import opened Wrappers
  import opened Json
  import opened TypeDetails
  import opened ArrayMap

  const MessageTypeField := "messageType"
  const FullNameField := "fullName"
  const DescriptionField := "description"
  const UnknownFullName := "Unknown Type"
  const UnknownDescription := "No description available."

  /** The record's `messageType` throws when it is converted to a key. */
  predicate MessageTypeThrows(n: Object) {
    MessageTypeField in n && KeyThrows(n[MessageTypeField])
  }

  /** The key the table is indexed with: the record's `messageType` converted
      to a property key, or "undefined" when the record has no such field;
      `None` when the conversion throws. */
  function MessageTypeKey(n: Object): (k: Option<string>)
    ensures k.None? <==> MessageTypeThrows(n)
    ensures MessageTypeField in n && n[MessageTypeField].JStr? ==> k == Some(n[MessageTypeField].s)
    ensures MessageTypeField !in n ==> k.Some? && k.value !in KnownCodes
  {
    if MessageTypeField in n then ToPropertyKey(n[MessageTypeField]) else Some("undefined")
  }

  predicate IsKnown(n: Object) {
    MessageTypeKey(n).Some? && MessageTypeKey(n).value in KnownCodes
  }

  /** JavaScript `v || fallback` where `v` is a string or `undefined` (`None`):
      both `undefined` and the empty string are falsy. */
  function OrElse(v: Option<string>, fallback: string): string {
    if v.Some? && v.value != "" then v.value else fallback
  }

  /** One record through the `map` callback: look the type code up (which
      throws if the code cannot be converted to a key), spread the record,
      then set the two enrichment fields, replacing any the record already
      had. */
  function EnrichRecord(n: Object): (r: Option<Object>)
    ensures r.None? <==> MessageTypeThrows(n)
    ensures r.Some? ==> r.value.Keys == n.Keys + {FullNameField, DescriptionField}
    ensures r.Some? ==>
      forall k :: k in n && k != FullNameField && k != DescriptionField ==> r.value[k] == n[k]
    ensures IsKnown(n) ==>
      && r.Some?
      && r.value[FullNameField] == JStr(Table[MessageTypeKey(n).value].fullName)
      && r.value[DescriptionField] == JStr(Table[MessageTypeKey(n).value].description)
    ensures r.Some? && !IsKnown(n) ==>
      && r.value[FullNameField] == JStr(UnknownFullName)
      && r.value[DescriptionField] == JStr(UnknownDescription)
  {
    match MessageTypeKey(n)
    case None => None
    case Some(code) => Some(n + Annotation(code))
  }

  /** The two fields written after the spread, for a converted type code. */
  function Annotation(code: string): Object {
    // `messageTypeDetails[...] || {}`: a missing entry reads every field as undefined
    var details := Lookup(code);
    var fullName := OrElse(if details.Some? then Some(details.value.fullName) else None, UnknownFullName);
    var description := OrElse(if details.Some? then Some(details.value.description) else None, UnknownDescription);
    map[FullNameField := JStr(fullName), DescriptionField := JStr(description)]
  }

  /** No table entry uses the fallback texts, so a record is enriched with
      "Unknown Type" exactly when its type code is not in the table, and
      likewise for the fallback description. */
  lemma UnknownExactlyWhenNotInTable(n: Object)
    requires !MessageTypeThrows(n)
    ensures EnrichRecord(n).value[FullNameField] == JStr(UnknownFullName) <==> !IsKnown(n)
    ensures EnrichRecord(n).value[DescriptionField] == JStr(UnknownDescription) <==> !IsKnown(n)
  {
  }

  /** A record whose `messageType` is a known code gets exactly that code's
      table entry. */
  lemma KnownCodeEnrichment(n: Object, code: string)
    requires MessageTypeField in n && n[MessageTypeField] == JStr(code)
    requires code in KnownCodes
    ensures EnrichRecord(n).Some?
    ensures EnrichRecord(n).value[FullNameField] == JStr(Table[code].fullName)
    ensures EnrichRecord(n).value[DescriptionField] == JStr(Table[code].description)
  {
  }

  /** A `messageType` that is absent, `null`, a boolean, a number, an object,
      or an array of any length but one never names a table entry; when its
      conversion does not throw, the record gets the fallback texts. */
  lemma NonStringTypeIsUnknown(n: Object)
    requires MessageTypeField in n ==>
      var t := n[MessageTypeField];
      t.JNull? || t.JBool? || t.JNum? || t.JObj? || (t.JArr? && |t.items| != 1)
    ensures !IsKnown(n)
    ensures !MessageTypeThrows(n) ==>
      && EnrichRecord(n).Some?
      && EnrichRecord(n).value[FullNameField] == JStr(UnknownFullName)
      && EnrichRecord(n).value[DescriptionField] == JStr(UnknownDescription)
  {
    var k := MessageTypeKey(n);
    if MessageTypeField in n && k.Some? {
      var t := n[MessageTypeField];
      if k.value in KnownCodes {
        KnownCodeShape(k.value);
      }
      if t.JNum? {
        var text := IntToString(t.n);
        assert text[0] == '-' || IsDigit(text[0]);
        assert k.value == text;
      } else if t.JArr? && |t.items| == 0 {
        assert ElementText(t) == JoinItems([]) == Some("");
      }
    }
  }

  /** A code wrapped in a one-element array names the same entry as the bare
      code, because the array is joined into a string before the lookup. */
  lemma SingletonArrayTypeActsAsCode(n: Object, code: string)
    requires MessageTypeField in n && n[MessageTypeField] == JArr([JStr(code)])
    ensures IsKnown(n) <==> code in KnownCodes
    ensures code in KnownCodes ==>
      && EnrichRecord(n).Some?
      && EnrichRecord(n).value[FullNameField] == JStr(Table[code].fullName)
      && EnrichRecord(n).value[DescriptionField] == JStr(Table[code].description)
  {
    SingletonArrayKey(JStr(code));
  }

  /** Unwrapping a one-element `messageType` array: the record is looked up
      under the key its element gives (the empty string for `null`), so it
      throws, is known and is enriched exactly as the record holding the bare
      element. Applied repeatedly, nested arrays such as `[["FLR"]]` name
      their innermost code. */
  lemma SingletonArrayTypeActsAsElement(n: Object, e: Value)
    requires MessageTypeField in n && n[MessageTypeField] == JArr([e])
    ensures MessageTypeKey(n) == if e.JNull? then Some("") else MessageTypeKey(n[MessageTypeField := e])
    ensures !e.JNull? ==>
      && (MessageTypeThrows(n) <==> MessageTypeThrows(n[MessageTypeField := e]))
      && (IsKnown(n) <==> IsKnown(n[MessageTypeField := e]))
    ensures !e.JNull? && EnrichRecord(n).Some? ==>
      && EnrichRecord(n[MessageTypeField := e]).Some?
      && EnrichRecord(n).value[FullNameField] == EnrichRecord(n[MessageTypeField := e]).value[FullNameField]
      && EnrichRecord(n).value[DescriptionField] == EnrichRecord(n[MessageTypeField := e]).value[DescriptionField]
  {
    SingletonArrayKey(e);
  }

  /** A doubly wrapped code, `[["FLR"]]`, still names the solar flare entry. */
  lemma NestedArrayTypeExample(n: Object)
    requires MessageTypeField in n && n[MessageTypeField] == JArr([JArr([JStr("FLR")])])
    ensures IsKnown(n)
    ensures EnrichRecord(n).Some?
    ensures EnrichRecord(n).value[FullNameField] == JStr("Solar Flare")
  {
    var inner := n[MessageTypeField := JArr([JStr("FLR")])];
    SingletonArrayTypeActsAsElement(n, JArr([JStr("FLR")]));
    SingletonArrayTypeActsAsCode(inner, "FLR");
  }

  /** The record `{"messageType": "FLR", "messageID": "x"}` gains the solar
      flare name and description and keeps its own two fields. */
  lemma FlareRecordExample()
    ensures EnrichRecord(map[MessageTypeField := JStr("FLR"), "messageID" := JStr("x")]) == Some(map[
      MessageTypeField := JStr("FLR"),
      "messageID" := JStr("x"),
      FullNameField := JStr("Solar Flare"),
      DescriptionField := JStr("An intense burst of radiation from the sun.")])
  {
    var record := map[MessageTypeField := JStr("FLR"), "messageID" := JStr("x")];
    assert MessageTypeKey(record) == Some("FLR");
    var e := EnrichRecord(record).value;
    assert e == record + map[
      FullNameField := JStr("Solar Flare"),
      DescriptionField := JStr("An intense burst of radiation from the sun.")];
    assert e == map[
      MessageTypeField := JStr("FLR"),
      "messageID" := JStr("x"),
      FullNameField := JStr("Solar Flare"),
      DescriptionField := JStr("An intense burst of radiation from the sun.")];
  }

  /** A `messageType` object with its own `toString` field, alone or inside
      an array, makes the callback throw. */
  lemma ToStringFieldTypeThrows(n: Object, inner: Object)
    requires "toString" in inner
    requires MessageTypeField in n
    requires n[MessageTypeField] == JObj(inner) || n[MessageTypeField] == JArr([JObj(inner)])
    ensures EnrichRecord(n) == None
  {
    if n[MessageTypeField].JArr? {
      assert KeyThrows(n[MessageTypeField].items[0]);
    }
  }

  /** Whatever `fullName` and `description` a record carried beforehand has
      no influence on the result: both are overwritten. */
  lemma PriorEnrichmentFieldsOverwritten(n: Object, name: Value, description: Value)
    ensures EnrichRecord(n[FullNameField := name][DescriptionField := description]) == EnrichRecord(n)
  {
    var m := n[FullNameField := name][DescriptionField := description];
    assert MessageTypeKey(m) == MessageTypeKey(n);
    if !MessageTypeThrows(n) {
      var added := Annotation(MessageTypeKey(n).value);
      assert m + added == n + added;
    }
  }

  /** Removing the two enrichment fields from the output gives back the input
      with those fields removed: the transform only adds. */
  lemma StripEnrichmentRestoresRecord(n: Object)
    requires !MessageTypeThrows(n)
    ensures EnrichRecord(n).value - {FullNameField, DescriptionField} == n - {FullNameField, DescriptionField}
    ensures FullNameField !in n && DescriptionField !in n ==>
      EnrichRecord(n).value - {FullNameField, DescriptionField} == n
  {
  }

  /** Enriching twice is the same as enriching once: the type code is left
      untouched, so the second pass recomputes the same two fields. */
  lemma EnrichRecordIdempotent(n: Object)
    requires !MessageTypeThrows(n)
    ensures EnrichRecord(EnrichRecord(n).value) == EnrichRecord(n)
  {
    var r := EnrichRecord(n).value;
    assert MessageTypeKey(r) == MessageTypeKey(n);
    var added := Annotation(MessageTypeKey(n).value);
    assert r + added == r;
  }

  /** `data.map(...)` over records: it fails if some record's type code
      throws, and otherwise gives one output per input, in the same order. */
  function EnrichAll(ns: seq<Object>): (r: Option<seq<Object>>)
    ensures r.None? <==> exists i :: 0 <= i < |ns| && MessageTypeThrows(ns[i])
    ensures r.Some? ==> |r.value| == |ns|
    ensures r.Some? ==> forall i :: 0 <= i < |ns| ==> EnrichRecord(ns[i]) == Some(r.value[i])
  {
    MapOrFail(EnrichRecord, ns)
  }

  /** Enriching a concatenation enriches each part: an element's output
      depends on that element alone, not on its neighbours. */
  lemma EnrichAllDistributes(a: seq<Object>, b: seq<Object>)
    ensures EnrichAll(a + b) ==
      if EnrichAll(a).Some? && EnrichAll(b).Some?
      then Some(EnrichAll(a).value + EnrichAll(b).value)
      else None
  {
    MapOrFailDistributes(EnrichRecord, a, b);
  }

  /** A one-element array is enriched exactly as its element is. */
  lemma EnrichAllSingleton(n: Object)
    ensures EnrichAll([n]) == if EnrichRecord(n).Some? then Some([EnrichRecord(n).value]) else None
  {
    var r := EnrichAll([n]);
    assert [n][0] == n;
    if r.Some? {
      assert r.value == [r.value[0]];
    }
  }

  lemma EnrichAllIdempotent(ns: seq<Object>)
    requires EnrichAll(ns).Some?
    ensures EnrichAll(EnrichAll(ns).value) == EnrichAll(ns)
  {
    var once := EnrichAll(ns).value;
    forall i | 0 <= i < |ns|
      ensures EnrichRecord(once[i]) == Some(once[i])
    {
      EnrichRecordIdempotent(ns[i]);
    }
    var twice := EnrichAll(once);
    assert twice.Some?;
    assert twice.value == once;
  }

  /** Reading `messageType` from this upstream element throws: it is `null`,
      or an object whose type code cannot be converted to a key. */
  predicate ElementThrows(v: Value) {
    v.JNull? || (v.JObj? && MessageTypeThrows(v.fields))
  }

  /** One element of the upstream array through the callback. Any element
      other than `null` is spread into a record; only an object can carry a
      `messageType`. */
  function EnrichElement(v: Value): (r: Option<Object>)
    ensures r.None? <==> ElementThrows(v)
    ensures v.JObj? ==> r == EnrichRecord(v.fields)
  {
    if v.JNull? then None else EnrichRecord(Spread(v))
  }

  /** The whole `data.map(...)` over parsed upstream elements: it fails if
      some element throws, and otherwise yields one enriched record per
      element, in order. */
  function EnrichElements(vs: seq<Value>): (r: Option<seq<Object>>)
    ensures r.None? <==> exists i :: 0 <= i < |vs| && ElementThrows(vs[i])
    ensures r.Some? ==> |r.value| == |vs|
    ensures r.Some? ==> forall i :: 0 <= i < |vs| ==> EnrichRecord(Spread(vs[i])) == Some(r.value[i])
  {
    MapOrFail(EnrichElement, vs)
  }

  /** On an array of objects the element-level transform is the record-level
      one, failures included. */
  lemma {:induction false} EnrichElementsOfObjects(vs: seq<Value>, ns: seq<Object>)
    requires |vs| == |ns|
    requires forall i :: 0 <= i < |vs| ==> vs[i] == JObj(ns[i])
    ensures EnrichElements(vs) == EnrichAll(ns)
    decreases |vs|
  {
    if |vs| > 0 {
      assert EnrichElement(vs[0]) == EnrichRecord(ns[0]);
      EnrichElementsOfObjects(vs[1..], ns[1..]);
      assert MapOrFail(EnrichElement, vs[1..]) == MapOrFail(EnrichRecord, ns[1..]);
    }
  }
}
