/** Values that travel as JSON between the worker, the journal and the API, with
    the two notions of truth the tools apply to them. */
module Values {

  datatype Option<+T> = None | Some(value: T)

  /** The `phase` field of a worker's phase post. */
  datatype PhaseName = ToEnrolling | ToPrepared | ToActivating | ToVerifying | ToVerifyRecovery

  /** A parsed JSON document. Objects keep the order of their entries, because the
      Python code iterates them in that order; numbers are integers. */
  datatype Json =
    | Null
    | Bool(b: bool)
    | Number(n: int)
    | Str(s: string)
    | Arr(items: seq<Json>)
    | Obj(entries: seq<(string, Json)>)

  /** `bool(value)` in Python. */
  predicate PyTruthy(j: Json) {
    match j
    case Null => false
    case Bool(b) => b
    case Number(n) => n != 0
    case Str(s) => s != ""
    case Arr(items) => items != []
    case Obj(entries) => entries != []
  }

  /** `Boolean(value)` in JavaScript: empty arrays and objects count as true. */
  predicate JsTruthy(j: Json) {
    match j
    case Null => false
    case Bool(b) => b
    case Number(n) => n != 0
    case Str(s) => s != ""
    case Arr(_) => true
    case Obj(_) => true
  }

  /** `a === b` in JavaScript for two values read from different documents: arrays
      and objects are distinct references. */
  predicate JsStrictEqual(a: Json, b: Json) {
    a == b && !a.Arr? && !a.Obj?
  }

  predicate Has(entries: seq<(string, Json)>, key: string) {
    exists i :: 0 <= i < |entries| && entries[i].0 == key
  }

  /** `dict.get(key)`: the value at `key`, or null. */
  function Get(entries: seq<(string, Json)>, key: string): Json {
    if entries == [] then Null
    else if entries[0].0 == key then entries[0].1
    else Get(entries[1..], key)
  }

  /** Python's `a or b`. */
  function Or(a: Json, b: Json): Json {
    if PyTruthy(a) then a else b
  }

  /** The two notions of truth differ on empty arrays and objects alone. */
  lemma TruthsDiffer(j: Json)
    ensures JsTruthy(j) <==> PyTruthy(j) || j == Arr([]) || j == Obj([])
    ensures PyTruthy(j) <==> j !in {Null, Bool(false), Number(0), Str(""), Arr([]), Obj([])}
  {
  }

  /** The first entry with the key counts. */
  lemma {:induction false} GetIsFirst(entries: seq<(string, Json)>, key: string)
    ensures !Has(entries, key) ==> Get(entries, key) == Null
    ensures Has(entries, key) ==>
              exists i :: 0 <= i < |entries| && entries[i] == (key, Get(entries, key)) && forall j :: 0 <= j < i ==> entries[j].0 != key
  {
    if entries != [] && entries[0].0 != key {
      GetIsFirst(entries[1..], key);
      if Has(entries, key) {
        var i :| 0 <= i < |entries| && entries[i].0 == key;
        assert entries[1..][i - 1].0 == key;
        var k :| 0 <= k < |entries[1..]| && entries[1..][k] == (key, Get(entries[1..], key))
                 && forall j :: 0 <= j < k ==> entries[1..][j].0 != key;
        assert entries[k + 1] == (key, Get(entries, key));
        forall j | 0 <= j < k + 1 ensures entries[j].0 != key {
          assert j > 0 ==> entries[j] == entries[1..][j - 1];
        }
      } else {
        forall i | 0 <= i < |entries[1..]| ensures entries[1..][i].0 != key {
          assert entries[1..][i] == entries[i + 1];
        }
      }
    } else if entries != [] {
      assert entries[0] == (key, Get(entries, key));
    }
  }

  lemma NoElement<T>(s: set<T>)
    requires forall x :: x !in s
    ensures s == {}
  {
  }

  lemma SomeElement<T>(s: set<T>) returns (x: T)
    requires s != {}
    ensures x in s
  {
    if forall y :: y !in s {
      NoElement(s);
    }
    x :| x in s;
  }

  lemma Position<T>(s: seq<T>, x: T) returns (i: nat)
    requires x in s
    ensures i < |s| && s[i] == x
  {
    i := 0;
    while s[i] != x
      invariant i < |s| && x in s[i..]
      decreases |s| - i
    {
      assert s[i..] == [s[i]] + s[i + 1..];
      i := i + 1;
    }
  }
}
