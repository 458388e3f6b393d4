/**
 * The group counts of `calcStats` as written: `utmSources` and
 * `utmCampaigns` start as object literals `{}`, which inherit the
 * properties of `Object.prototype`, and each lead does
 * `counts[k] = (counts[k] || 0) + 1`. For a key that names an inherited
 * property the read does not give `undefined`, so the count goes wrong.
 * The rest of the model counts with `Stats.CountBy`, a plain mapping.
 */
module ObjectCounts {
  import opened Js
  import opened Normalizer
  import opened Stats

  /** The value an own property of the counting object holds. */
  datatype Prop = Number(n: int) | Text(s: string)

  /** The names a plain object `{}` inherits from `Object.prototype`. */
  const InheritedNames: set<string> := {
    "constructor", "__proto__", "toString", "toLocaleString", "valueOf",
    "hasOwnProperty", "isPrototypeOf", "propertyIsEnumerable",
    "__defineGetter__", "__defineSetter__", "__lookupGetter__", "__lookupSetter__"
  }

  /** `String(f)` for the inherited method `k`; `constructor` is the function `Object`. */
  function NativeSource(k: string): string {
    "function " + (if k == "constructor" then "Object" else k) + "() { [native code] }"
  }

  /**
   * `o[k] = (o[k] || 0) + 1` on an object literal. An own number grows by
   * one; an own string gets "1" appended; an inherited method reads as a
   * function, which `+ 1` turns into its source text followed by "1", stored
   * as a new own property; `__proto__` reads as `Object.prototype`, and its
   * setter ignores the resulting string, so nothing is stored.
   */
  function Increment(o: map<string, Prop>, k: string): (o': map<string, Prop>)
    ensures k in o' <==> k in o || k != "__proto__"
    ensures k in o && o[k].Number? ==> o'[k] == Number(o[k].n + 1)
    ensures forall x :: x != k ==> (x in o' <==> x in o) && (x in o ==> o'[x] == o[x])
  {
    if k in o then
      match o[k]
      case Number(n) => o[k := Number(n + 1)]
      case Text(s) => o[k := if s == "" then Number(1) else Text(s + "1")]
    else if k == "__proto__" then o
    else if k in InheritedNames then o[k := Text(NativeSource(k) + "1")]
    else o[k := Number(1)]
  }

  /** The `forEach` over the keys, as written, starting from `{}`: every key gets an own property, except `__proto__`. */
  function ObjectCountBy(keys: seq<string>): (o: map<string, Prop>)
    ensures forall k :: k in o <==> k in keys && k != "__proto__"
  {
    if keys == [] then map[]
    else Increment(ObjectCountBy(keys[..|keys| - 1]), keys[|keys| - 1])
  }

  /** `o` holds, as a number, the count of every key of `keys` and nothing else: the plain tally. */
  ghost predicate NumbersTally(o: map<string, Prop>, keys: seq<string>) {
    && (forall k :: k in o <==> k in keys)
    && (forall k :: k in o ==> o[k] == Number(multiset(keys)[k]))
  }

  /** Away from the inherited names the object counts exactly what the plain mapping counts. */
  lemma {:induction false} AsWrittenAgreesOffPrototype(keys: seq<string>)
    requires forall i :: 0 <= i < |keys| ==> keys[i] !in InheritedNames
    ensures NumbersTally(ObjectCountBy(keys), keys)
  {
    if keys != [] {
      var init, last := keys[..|keys| - 1], keys[|keys| - 1];
      AsWrittenAgreesOffPrototype(init);
      assert keys == init + [last];
      TallyStep(ObjectCountBy(init), init, last);
    }
  }

  /** An increment on a key that is not inherited counts one more occurrence of it, as a number. */
  lemma TallyStep(o: map<string, Prop>, keys: seq<string>, k: string)
    requires NumbersTally(o, keys) && k !in InheritedNames
    ensures NumbersTally(Increment(o, k), keys + [k])
  {
    assert "__proto__" in InheritedNames;
    var o' := if k in o then o[k := Number(o[k].n + 1)] else o[k := Number(1)];
    assert Increment(o, k) == o';
    assert multiset(keys + [k]) == multiset(keys) + multiset{k};
  }

  /**
   * A lead whose source is "constructor" is not counted as 1: the count
   * becomes the text "function Object() { [native code] }1".
   */
  lemma ConstructorKeyCountsText()
    ensures ObjectCountBy(["constructor"]) == map["constructor" := Text("function Object() { [native code] }1")]
  {
    var k := "constructor";
    assert [k][..0] == [];
    assert ObjectCountBy([k]) == Increment(map[], k);
    assert k in InheritedNames && k != "__proto__";
    assert NativeSource(k) + "1" == "function Object() { [native code] }1";
  }

  /** A lead whose source is "__proto__" is counted nowhere: one completed lead, no count at all. */
  lemma ProtoKeyIsLost()
    ensures ObjectCountBy(["__proto__"]) == map[]
  {
    assert ["__proto__"][..0] == [];
  }

  /** The webhook lets such a key in: a payload with `utm_source` "constructor" becomes a lead whose source key is "constructor". */
  lemma ConstructorSourceFromWebhook(p: Payload, now: int)
    requires Get(p, "utm_source") == Str("constructor")
    ensures SourceKey(Normalize(p, now)) == "constructor"
  {
    UtmSourceDrivesSource(p, now);
  }
}
