/** JSON values as the service receives them from the upstream endpoint, and
    the two pieces of JavaScript semantics that the enrichment step relies on:
    the string a value becomes when it is used as a property key, and the own
    enumerable properties that object spread copies out of a value. */
module Json {
  import opened Wrappers

  /** A parsed JSON value. Numbers are modelled as integers. */
  datatype Value =
    | JNull
    | JBool(b: bool)
    | JNum(n: int)
    | JStr(s: string)
    | JArr(items: seq<Value>)
    | JObj(fields: map<string, Value>)

  /** A plain object: its own enumerable properties, by name. */
  type Object = map<string, Value>

  predicate IsDigit(c: char) {
    '0' <= c <= '9'
  }

  function DigitChar(d: nat): (c: char)
    requires d < 10
    ensures IsDigit(c)
    ensures c as int - '0' as int == d
  {
    (d + '0' as int) as char
  }

  /** Decimal text of a natural number, without leading zeros. */
  function NatToString(n: nat): (r: string)
    ensures 1 <= |r|
    ensures forall i :: 0 <= i < |r| ==> IsDigit(r[i])
    ensures r[0] == '0' <==> n == 0
    ensures r[0] == '0' ==> r == "0"
    decreases n
  {
    if n < 10 then [DigitChar(n)] else NatToString(n / 10) + [DigitChar(n % 10)]
  }

  function DigitValue(c: char): nat
    requires IsDigit(c)
  {
    c as int - '0' as int
  }

  /** Reads decimal digits back into a number. */
  function ParseNat(s: string): nat
    requires forall i :: 0 <= i < |s| ==> IsDigit(s[i])
  {
    if |s| == 0 then 0 else ParseNat(s[..|s| - 1]) * 10 + DigitValue(s[|s| - 1])
  }

  lemma {:induction false} ParseNatToString(n: nat)
    ensures ParseNat(NatToString(n)) == n
    decreases n
  {
    if n >= 10 {
      var s := NatToString(n);
      assert s[..|s| - 1] == NatToString(n / 10);
      ParseNatToString(n / 10);
    }
  }

  /** Distinct indexes have distinct decimal names, so an index-keyed map is
      well defined. */
  lemma NatToStringInjective()
    ensures forall i: nat, j: nat :: NatToString(i) == NatToString(j) ==> i == j
  {
    forall i: nat, j: nat | NatToString(i) == NatToString(j)
      ensures i == j
    {
      ParseNatToString(i);
      ParseNatToString(j);
    }
  }

  /** JavaScript's text for an integer-valued number. */
  function IntToString(n: int): (r: string)
    ensures 1 <= |r|
    ensures r[0] == '-' || IsDigit(r[0])
  {
    if n < 0 then "-" + NatToString(-n) else NatToString(n)
  }

  /** Converting `v` to a string throws a TypeError. Parsed JSON carries no
      callable methods, so an object with its own `toString` field has no
      usable `toString`, and its inherited `valueOf` returns the object
      itself rather than a primitive. An array throws when one of its
      elements does, during the join. */
  predicate KeyThrows(v: Value)
    decreases v
  {
    match v
    case JObj(fields) => "toString" in fields
    case JArr(items) => exists i :: 0 <= i < |items| && KeyThrows(items[i])
    case _ => false
  }

  /** The property key a value becomes when it is used to index an object
      (JavaScript's ToString), or `None` when that conversion throws. Arrays
      join their elements with commas. */
  function ToPropertyKey(v: Value): (r: Option<string>)
    ensures r.None? <==> KeyThrows(v)
    ensures v.JStr? ==> r == Some(v.s)
    ensures v.JArr? && 2 <= |v.items| && r.Some? ==> ',' in r.value
    decreases v, 1
  {
    if v.JNull? then Some("null") else ElementText(v)
  }

  /** A one-element array names the same property as its element does
      (unless that element is `null`, which joins to the empty string). */
  lemma SingletonArrayKey(e: Value)
    ensures ToPropertyKey(JArr([e])) == (if e.JNull? then Some("") else ToPropertyKey(e))
  {
    assert JoinItems([e]) == ElementText(e);
  }

  /** The text of a value inside an array join: `null` contributes nothing. */
  function ElementText(v: Value): (r: Option<string>)
    ensures r.None? <==> KeyThrows(v)
    decreases v, 0
  {
    match v
    case JNull => Some("")
    case JBool(b) => Some(if b then "true" else "false")
    case JNum(n) => Some(IntToString(n))
    case JStr(s) => Some(s)
    case JArr(items) => JoinItems(items)
    case JObj(fields) => if "toString" in fields then None else Some("[object Object]")
  }

  /** `Array.prototype.join(",")` over already-parsed values; it throws as
      soon as one element's conversion does. */
  function JoinItems(items: seq<Value>): (r: Option<string>)
    ensures r.None? <==> exists i :: 0 <= i < |items| && KeyThrows(items[i])
    ensures 2 <= |items| && r.Some? ==> ',' in r.value
    decreases items
  {
    if |items| == 0 then Some("")
    else if |items| == 1 then ElementText(items[0])
    else
      var front := JoinItems(items[..|items| - 1]);
      var last := ElementText(items[|items| - 1]);
      if front.None? || last.None? then None else Some(front.value + "," + last.value)
  }

  /** The object obtained by indexing each element of `xs` by its decimal
      position, as spreading a string or an array does. */
  function IndexMap<T>(xs: seq<T>): (m: map<string, T>)
    ensures forall i :: 0 <= i < |xs| ==> NatToString(i) in m && m[NatToString(i)] == xs[i]
    ensures forall k :: k in m ==> exists i :: 0 <= i < |xs| && k == NatToString(i)
  {
    NatToStringInjective();
    map i | 0 <= i < |xs| :: NatToString(i) := xs[i]
  }

  /** The properties `{...v}` copies: an object's own fields, the indexed
      characters of a string, the indexed elements of an array, and nothing
      for a number or a boolean. (`null` never reaches a spread here: reading
      `messageType` from it throws first.) */
  function Spread(v: Value): (o: Object)
    ensures v.JObj? ==> o == v.fields
    ensures v.JNull? || v.JBool? || v.JNum? ==> o == map[]
    ensures v.JStr? ==> forall i :: 0 <= i < |v.s| ==> NatToString(i) in o && o[NatToString(i)] == JStr([v.s[i]])
    ensures v.JStr? ==> forall k :: k in o ==> exists i :: 0 <= i < |v.s| && k == NatToString(i)
    ensures v.JArr? ==> forall i :: 0 <= i < |v.items| ==> NatToString(i) in o && o[NatToString(i)] == v.items[i]
    ensures v.JArr? ==> forall k :: k in o ==> exists i :: 0 <= i < |v.items| && k == NatToString(i)
    ensures !v.JObj? ==> forall k :: k in o ==> 1 <= |k| && IsDigit(k[0])
  {
    match v
    case JObj(fields) => fields
    case JStr(s) => IndexMap(seq(|s|, i requires 0 <= i < |s| => JStr([s[i]])))
    case JArr(items) => IndexMap(items)
    case _ => map[]
  }
}
