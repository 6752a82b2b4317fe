/** The Terraform ResourceData a handler works on: the resource ID and a map from attribute
    key to value. Reads go through getters that, like `d.Get(k).(T)` on a declared attribute,
    give the Go zero value for an attribute that is not set. */
module State {
  import opened Results

  datatype Value =
    | Text(s: string)
    | Flag(b: bool)
    | Number(n: int)
    | ListOf(items: seq<Value>)
    | SetOf(items: seq<Value>)   // a schema.Set, in the order its List() yields

  type Fields = map<string, Value>

  function GetString(m: Fields, k: string): string {
    if k in m && m[k].Text? then m[k].s else ""
  }

  function GetBool(m: Fields, k: string): bool {
    if k in m && m[k].Flag? then m[k].b else false
  }

  function GetInt(m: Fields, k: string): int {
    if k in m && m[k].Number? then m[k].n else 0
  }

  /** The string elements of a list of values, in order. */
  function StringsOf(items: seq<Value>): (r: seq<string>)
    ensures |r| <= |items|
    ensures forall x :: x in r <==> Text(x) in items
  {
    if items == [] then []
    else (if items[0].Text? then [items[0].s] else []) + StringsOf(items[1..])
  }

  /** A list-of-strings attribute (the schema declares every element a string). */
  function GetStrings(m: Fields, k: string): seq<string> {
    if k in m && m[k].ListOf? then StringsOf(m[k].items) else []
  }

  /** The fields after `d.Set(k, v)` for each pair in order (a later pair wins). */
  function Assign(m: Fields, pairs: seq<(string, Value)>): Fields
    decreases |pairs|
  {
    if pairs == [] then m
    else Assign(m, pairs[..|pairs| - 1])[pairs[|pairs| - 1].0 := pairs[|pairs| - 1].1]
  }

  /** The value the last pair with key `k` writes, if any. */
  function LastWrite(pairs: seq<(string, Value)>, k: string): Option<Value>
    decreases |pairs|
  {
    if pairs == [] then None
    else if pairs[|pairs| - 1].0 == k then Some(pairs[|pairs| - 1].1)
    else LastWrite(pairs[..|pairs| - 1], k)
  }

  /** The last write of `k` is the pair at index `i` when no later pair writes `k`. */
  lemma {:induction false} LastWriteAt(pairs: seq<(string, Value)>, k: string, i: nat)
    requires i < |pairs| && pairs[i].0 == k
    requires forall j :: i < j < |pairs| ==> pairs[j].0 != k
    ensures LastWrite(pairs, k) == Some(pairs[i].1)
    decreases |pairs|
  {
    if i < |pairs| - 1 {
      LastWriteAt(pairs[..|pairs| - 1], k, i);
    }
  }

  /** A key no pair writes has no last write. */
  lemma {:induction false} LastWriteNone(pairs: seq<(string, Value)>, k: string)
    requires forall j :: 0 <= j < |pairs| ==> pairs[j].0 != k
    ensures LastWrite(pairs, k) == None
    decreases |pairs|
  {
    if pairs != [] {
      LastWriteNone(pairs[..|pairs| - 1], k);
    }
  }

  /** Setting attributes one after another: a written key holds its last written value;
      every other key keeps its old value. */
  lemma {:induction false} AssignAt(m: Fields, pairs: seq<(string, Value)>, k: string)
    ensures LastWrite(pairs, k).Some? ==> k in Assign(m, pairs) && Assign(m, pairs)[k] == LastWrite(pairs, k).value
    ensures LastWrite(pairs, k).None? ==> (k in Assign(m, pairs) <==> k in m)
    ensures LastWrite(pairs, k).None? && k in m ==> Assign(m, pairs)[k] == m[k]
    decreases |pairs|
  {
    if pairs != [] {
      AssignAt(m, pairs[..|pairs| - 1], k);
    }
  }

  /** What a handler does with a failed fetch of its resource when it follows the usual
      convention: a 404 means the resource is gone, so the ID is cleared and the handler
      succeeds; any other failure is returned with the ID kept. The attributes stay as they
      were either way. */
  predicate GoneOrFailed<T>(r: Reply<T>, out: Outcome, id0: string, f0: Fields, newId: string, newFields: Fields) {
    && r.Fail?
    && newFields == f0
    && (r.status == 404 ==> out == Done && newId == "")
    && (r.status != 404 ==> out == Error(r.msg) && newId == id0)
  }

  class ResourceData {
    var id: string
    var fields: Fields
    /** d.IsNewResource(): the handler runs as part of a create. */
    const isNew: bool

    constructor (id: string, fields: Fields, isNew: bool)
      ensures this.id == id && this.fields == fields && this.isNew == isNew
    {
      this.id := id;
      this.fields := fields;
      this.isNew := isNew;
    }

    /** d.SetId(v); the empty ID tells the framework the resource is gone. */
    method SetId(v: string)
      modifies this
      ensures id == v && fields == old(fields)
    {
      id := v;
    }

    /** d.Set(k, v) for each pair, in order. */
    method SetAll(pairs: seq<(string, Value)>)
      modifies this
      ensures id == old(id) && fields == Assign(old(fields), pairs)
    {
      var i := 0;
      while i < |pairs|
        invariant 0 <= i <= |pairs|
        invariant id == old(id) && fields == Assign(old(fields), pairs[..i])
      {
        assert pairs[..i + 1][..i] == pairs[..i];
        fields := fields[pairs[i].0 := pairs[i].1];
        i := i + 1;
      }
      assert pairs[..i] == pairs;
    }
  }
}
