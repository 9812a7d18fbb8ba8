/**
 * JSON-like values as the backend manipulates them.  An object is an ordered sequence of
 * key/value pairs: the order stands for the order in which `Object.keys` lists the keys, and
 * it fixes the order of the paths and steps the planner emits.  Values never hold `null`;
 * numbers are integers.
 */
module Json {
  import opened Wrappers

  datatype Json =
    | JStr(str: string)
    | JNum(num: int)
    | JBool(flag: bool)
    | JArr(items: seq<Json>)
    | JObj(fields: seq<(string, Json)>)

  /** The keys of an association list, in order. */
  function Keys(entries: seq<(string, Json)>): seq<string>
  {
    seq(|entries|, i requires 0 <= i < |entries| => entries[i].0)
  }

  /** The value stored under `k` (the first occurrence, as a property lookup finds it). */
  function Get(entries: seq<(string, Json)>, k: string): (r: Option<Json>)
    ensures r.Some? <==> k in Keys(entries)
    ensures r.Some? ==> exists i :: 0 <= i < |entries| && entries[i] == (k, r.value)
  {
    if entries == [] then None
    else
      KeysCons(entries);
      if entries[0].0 == k then Some(entries[0].1)
      else
        var r := Get(entries[1..], k);
        if r.Some? then
          var i :| 0 <= i < |entries| - 1 && entries[1..][i] == (k, r.value);
          assert entries[i + 1] == (k, r.value);
          r
        else r
  }

  lemma KeysCons(entries: seq<(string, Json)>)
    requires entries != []
    ensures Keys(entries) == [entries[0].0] + Keys(entries[1..])
  {
  }

  /** No key occurs twice, as in every JavaScript object. */
  predicate DistinctKeys(entries: seq<(string, Json)>)
  {
    forall i, j :: 0 <= i < j < |entries| ==> entries[i].0 != entries[j].0
  }

  /** In an object, the lookup of a key finds the value stored with it. */
  lemma {:induction false} GetDistinct(entries: seq<(string, Json)>, i: int)
    requires DistinctKeys(entries) && 0 <= i < |entries|
    ensures Get(entries, entries[i].0) == Some(entries[i].1)
  {
    if i > 0 {
      assert entries[0].0 != entries[i].0;
      assert entries[1..][i - 1] == entries[i];
      GetDistinct(entries[1..], i - 1);
    }
  }

  lemma KeysSnoc(entries: seq<(string, Json)>, e: (string, Json))
    ensures Keys(entries + [e]) == Keys(entries) + [e.0]
  {
  }

  /** Appending an entry leaves the earlier keys' values as they were. */
  lemma {:induction false} GetSnoc(entries: seq<(string, Json)>, e: (string, Json), k: string)
    ensures Get(entries + [e], k) ==
            if k in Keys(entries) then Get(entries, k) else if e.0 == k then Some(e.1) else None
  {
    if entries == [] {
      assert [] + [e] == [e];
    } else {
      assert (entries + [e])[1..] == entries[1..] + [e];
      KeysCons(entries);
      GetSnoc(entries[1..], e, k);
    }
  }

  lemma DistinctSnoc(entries: seq<(string, Json)>, e: (string, Json))
    ensures DistinctKeys(entries + [e]) <==> DistinctKeys(entries) && e.0 !in Keys(entries)
  {
    var r := entries + [e];
    if DistinctKeys(r) {
      assert forall i, j :: 0 <= i < j < |entries| ==> entries[i] == r[i] && entries[j] == r[j];
      assert forall i :: 0 <= i < |entries| ==> Keys(entries)[i] == r[i].0 != r[|entries|].0 == e.0;
    }
    if DistinctKeys(entries) && e.0 !in Keys(entries) {
      forall i, j | 0 <= i < j < |r| ensures r[i].0 != r[j].0 {
        if j < |entries| {
          assert r[i] == entries[i] && r[j] == entries[j];
        } else {
          assert r[i].0 == Keys(entries)[i];
        }
      }
    }
  }

  /** Decimal rendering of a natural number, as JavaScript renders array indices. */
  function NatToString(n: nat): (s: string)
    ensures |s| > 0
    decreases n
  {
    var d := ['0', '1', '2', '3', '4', '5', '6', '7', '8', '9'][n % 10];
    if n < 10 then [d] else NatToString(n / 10) + [d]
  }

  /** Decimal rendering of an integer, as `${n}` renders a number. */
  function IntToString(n: int): string
  {
    if n < 0 then "-" + NatToString(-n) else NatToString(n)
  }

  /**
   * `Object.entries(v)`: an object lists its fields; an array and a string list their
   * indices; a number or a boolean has no own keys.
   */
  function Entries(v: Json): (es: seq<(string, Json)>)
    ensures v.JObj? ==> es == v.fields
    ensures v.JNum? || v.JBool? ==> es == []
  {
    match v
    case JObj(fs) => fs
    case JArr(items) => seq(|items|, i requires 0 <= i < |items| => (NatToString(i), items[i]))
    case JStr(s) => seq(|s|, i requires 0 <= i < |s| => (NatToString(i), JStr([s[i]])))
    case _ => []
  }

  /** Every object taken from `Entries(v)` is smaller than `v` (a string's entries are strings). */
  lemma EntryValueSmaller(v: Json, i: int)
    requires 0 <= i < |Entries(v)|
    requires Entries(v)[i].1.JObj?
    ensures Entries(v)[i].1 < v
  {
    match v
    case JObj(fs) => assert fs[i] in fs;
    case JArr(items) => assert items[i] in items;
    case JStr(s) =>
    case _ =>
  }

  /** An object found under key `k` of `Entries(v)` is smaller than `v`. */
  lemma GetEntrySmaller(v: Json, k: string)
    requires k in Keys(Entries(v))
    requires Get(Entries(v), k).value.JObj?
    ensures Get(Entries(v), k).value < v
  {
    var es := Entries(v);
    var i :| 0 <= i < |es| && es[i] == (k, Get(es, k).value);
    EntryValueSmaller(v, i);
  }

  /**
   * `v.name` for a property name that is not an array index nor `length`: only an object
   * has such a property.
   */
  function Prop(v: Json, name: string): (r: Option<Json>)
    ensures r.Some? ==> v.JObj?
  {
    if v.JObj? then Get(v.fields, name) else None
  }

  /** `v?.name`: the property of a value that may itself be absent. */
  function PropOf(v: Option<Json>, name: string): Option<Json>
  {
    if v.Some? then Prop(v.value, name) else None
  }

  /** JavaScript truthiness; `undefined` is `None`. */
  predicate Truthy(v: Option<Json>)
  {
    match v
    case None => false
    case Some(JStr(s)) => s != ""
    case Some(JNum(n)) => n != 0
    case Some(JBool(b)) => b
    case Some(_) => true
  }

  /** Join rendered strings with a separator, as `Array.prototype.join`. */
  function Join(parts: seq<string>, sep: string): string
  {
    if parts == [] then "" else if |parts| == 1 then parts[0] else parts[0] + sep + Join(parts[1..], sep)
  }

  /** `${v}`: the string a template literal (or a property key) makes of a value. */
  function Text(v: Option<Json>): string
  {
    match v
    case None => "undefined"
    case Some(j) => TextOf(j)
  }

  function TextOf(j: Json): string
  {
    match j
    case JStr(s) => s
    case JNum(n) => IntToString(n)
    case JBool(b) => if b then "true" else "false"
    case JArr(items) => Join(seq(|items|, i requires 0 <= i < |items| => TextOf(items[i])), ",")
    case JObj(_) => "[object Object]"
  }

  /** `{ ...obj, name: v }` on an object that already has the key `name`: the value is replaced in place. */
  function SetField(entries: seq<(string, Json)>, name: string, v: Json): (r: seq<(string, Json)>)
    ensures Keys(r) == Keys(entries)
    ensures forall i :: 0 <= i < |entries| ==>
              r[i] == if entries[i].0 == name then (name, v) else entries[i]
  {
    if entries == [] then []
    else [if entries[0].0 == name then (name, v) else entries[0]] + SetField(entries[1..], name, v)
  }

  lemma {:induction false} GetSetField(entries: seq<(string, Json)>, name: string, v: Json, k: string)
    ensures Get(SetField(entries, name, v), k) ==
            if k == name && k in Keys(entries) then Some(v) else Get(entries, k)
  {
    if entries != [] {
      GetSetField(entries[1..], name, v, k);
    }
  }
}
