/**
 * JSON documents as Python's json module gives them back, and the subscript
 * reads and writes (`d["k"]`, `l[0]`, `d["k"][0]["m"] = v`) the bridge applies
 * to them. Objects are association lists: a Python dict keeps its keys in
 * insertion order, and assigning to a key it already has keeps that key's place.
 */
module Json {
  import opened Wrappers

  datatype Json =
    | JNull
    | JBool(b: bool)
    | JInt(i: int)
    | JFloat(f: real)
    | JString(s: string)
    | JArray(items: seq<Json>)
    | JObject(members: seq<(string, Json)>)

  /** One subscript: a dict key or a list position. */
  datatype Step = Key(name: string) | Index(position: nat)

  /** The keys of an object, in order. */
  function Keys(members: seq<(string, Json)>): (ks: seq<string>)
    ensures |ks| == |members|
    ensures forall i | 0 <= i < |members| :: ks[i] == members[i].0
  {
    if members == [] then [] else [members[0].0] + Keys(members[1..])
  }

  /** `d[k]` on a dict: the value of the first member named k, None for a KeyError. */
  function Lookup(members: seq<(string, Json)>, k: string): Option<Json>
  {
    if members == [] then None
    else if members[0].0 == k then Some(members[0].1)
    else Lookup(members[1..], k)
  }

  lemma KeysPrefix(members: seq<(string, Json)>, n: int)
    requires 1 <= n <= |members|
    ensures Keys(members[..n]) == [members[0].0] + Keys(members[1..][..n - 1])
  {
    assert members[..n][1..] == members[1..][..n - 1];
  }

  /** A lookup finds a value exactly for the keys the object has, and then the value of the first member with that key. */
  lemma {:induction false} LookupFinds(members: seq<(string, Json)>, k: string)
    ensures Lookup(members, k).Some? <==> k in Keys(members)
    ensures Lookup(members, k).Some? ==>
              exists i | 0 <= i < |members| :: members[i] == (k, Lookup(members, k).value) && k !in Keys(members[..i])
  {
    if members != [] && members[0].0 != k {
      LookupFinds(members[1..], k);
      if Lookup(members, k).Some? {
        var v := Lookup(members, k).value;
        var i :| 0 <= i < |members[1..]| && members[1..][i] == (k, v) && k !in Keys(members[1..][..i]);
        KeysPrefix(members, i + 1);
        assert members[i + 1] == (k, v);
      }
    } else if members != [] {
      assert members[..0] == [];
    }
  }

  /** `d[k] = v` on a dict: overwrites the member named k in its place, or appends a new one. */
  function Put(members: seq<(string, Json)>, k: string, v: Json): (r: seq<(string, Json)>)
    ensures Lookup(r, k) == Some(v)
    ensures forall k' | k' != k :: Lookup(r, k') == Lookup(members, k')
    ensures Keys(r) == if k in Keys(members) then Keys(members) else Keys(members) + [k]
  {
    if members == [] then [(k, v)]
    else if members[0].0 == k then
      var r := [(k, v)] + members[1..];
      assert r[1..] == members[1..];
      r
    else
      var rest := Put(members[1..], k, v);
      var r := [members[0]] + rest;
      assert r[1..] == rest;
      r
  }

  /**
   * `j[s]` as an expression: a dict's value for a key, a list's item or a
   * string's one-character string at a position; None where Python raises
   * KeyError, IndexError or TypeError.
   */
  function Get(j: Json, s: Step): Option<Json>
  {
    match s
    case Key(k) => if j.JObject? then Lookup(j.members, k) else None
    case Index(n) =>
      if j.JArray? && n < |j.items| then Some(j.items[n])
      else if j.JString? && n < |j.s| then Some(JString([j.s[n]]))
      else None
  }

  /**
   * `j[s] = v` as a statement on a container: a dict takes any string key, a
   * list only a position it already has. JSON object keys are strings, so a
   * list position used on a dict is refused here (the bridge never writes one).
   */
  function Set(j: Json, s: Step, v: Json): (r: Option<Json>)
    ensures r.Some? <==> (s.Key? && j.JObject?) || (s.Index? && j.JArray? && s.position < |j.items|)
    ensures r.Some? ==> r.value.JObject? == j.JObject? && r.value.JArray? == j.JArray?
    ensures r.Some? ==> Get(r.value, s) == Some(v)
    ensures r.Some? ==> forall t | t != s :: Get(r.value, t) == Get(j, t)
  {
    match s
    case Key(k) => if j.JObject? then Some(JObject(Put(j.members, k, v))) else None
    case Index(n) => if j.JArray? && n < |j.items| then Some(JArray(j.items[n := v])) else None
  }

  /** `j[p0][p1]...[pn]` as an expression. */
  function GetPath(j: Json, p: seq<Step>): Option<Json>
    decreases |p|
  {
    if p == [] then Some(j)
    else match Get(j, p[0])
      case None => None
      case Some(child) => GetPath(child, p[1..])
  }

  /**
   * `j[p0][p1]...[pn] = v` as a statement: every step but the last reads, the
   * last one writes into the container the reads reached. The containers are
   * mutated in place, so each enclosing container now holds the updated child.
   * The empty path stands for rebinding the whole document.
   */
  function SetPath(j: Json, p: seq<Step>, v: Json): Option<Json>
    decreases |p|
  {
    if p == [] then Some(v)
    else if |p| == 1 then Set(j, p[0], v)
    else match Get(j, p[0])
      case None => None
      case Some(child) =>
        match SetPath(child, p[1..], v)
        case None => None
        case Some(updated) => Set(j, p[0], updated)
  }

  /** Two paths lead to unrelated places: they part at some step after a common prefix. */
  ghost predicate Apart(p: seq<Step>, q: seq<Step>)
  {
    exists i :: 0 <= i < |p| && i < |q| && p[..i] == q[..i] && p[i] != q[i]
  }

  /** A path assignment succeeds exactly when the path up to its last step can be read and the last step can be written there. */
  lemma {:induction false} SetPathDefined(j: Json, p: seq<Step>, s: Step, v: Json)
    ensures SetPath(j, p + [s], v).Some? <==> GetPath(j, p).Some? && Set(GetPath(j, p).value, s, v).Some?
    decreases |p|
  {
    if p == [] {
      assert p + [s] == [s];
    } else {
      assert (p + [s])[0] == p[0];
      assert (p + [s])[1..] == p[1..] + [s];
      match Get(j, p[0])
      case None =>
      case Some(child) =>
        SetPathDefined(child, p[1..], s, v);
    }
  }

  /** Paths that part after a common first step still part once that step is dropped. */
  lemma ApartTail(p: seq<Step>, q: seq<Step>, i: int)
    requires 0 < i < |p| && i < |q| && p[..i] == q[..i] && p[i] != q[i]
    ensures p[0] == q[0] && Apart(p[1..], q[1..])
  {
    assert p[0] == p[..i][0] && q[0] == q[..i][0];
    assert p[1..][..i - 1] == p[..i][1..];
    assert q[1..][..i - 1] == q[..i][1..];
    assert p[1..][i - 1] != q[1..][i - 1];
  }

  /** After a successful path assignment, reading the same path gives the written value. */
  lemma {:induction false} GetAfterSetPath(j: Json, p: seq<Step>, v: Json)
    requires SetPath(j, p, v).Some?
    ensures GetPath(SetPath(j, p, v).value, p) == Some(v)
    decreases |p|
  {
    if |p| > 1 {
      var child := Get(j, p[0]).value;
      var updated := SetPath(child, p[1..], v).value;
      GetAfterSetPath(child, p[1..], v);
      assert Get(SetPath(j, p, v).value, p[0]) == Some(updated);
    }
  }

  /** A path assignment leaves every place apart from its path as it was. */
  lemma {:induction false} SetPathFrame(j: Json, p: seq<Step>, v: Json, q: seq<Step>)
    requires SetPath(j, p, v).Some?
    requires Apart(p, q)
    ensures GetPath(SetPath(j, p, v).value, q) == GetPath(j, q)
    decreases |p|
  {
    var i :| 0 <= i < |p| && i < |q| && p[..i] == q[..i] && p[i] != q[i];
    var j' := SetPath(j, p, v).value;
    if i == 0 {
      if |p| == 1 {
        assert Get(j', q[0]) == Get(j, q[0]);
      } else {
        var updated := SetPath(Get(j, p[0]).value, p[1..], v).value;
        assert j' == Set(j, p[0], updated).value;
        assert Get(j', q[0]) == Get(j, q[0]);
      }
    } else {
      ApartTail(p, q, i);
      var child := Get(j, p[0]).value;
      var updated := SetPath(child, p[1..], v).value;
      assert Get(j', q[0]) == Some(updated);
      SetPathFrame(child, p[1..], v, q[1..]);
    }
  }

  /**
   * A JSON document loaded freshly from a template file, which the handlers
   * edit in place before serialising it.
   */
  class JsonDocument {
    var root: Json

    constructor (loaded: Json)
      ensures root == loaded
    {
      root := loaded;
    }

    /**
     * The subscript assignment `doc[p0]...[pn] = v`. When a read on the way
     * raises, or the last container cannot take the write, nothing changes
     * and the caller sees the exception as `ok == false`.
     */
    method Assign(path: seq<Step>, v: Json) returns (ok: bool)
      requires path != []
      modifies this
      ensures ok <==> SetPath(old(root), path, v).Some?
      ensures ok ==> root == SetPath(old(root), path, v).value && GetPath(root, path) == Some(v)
      ensures !ok ==> root == old(root)
    {
      var written := SetPath(root, path, v);
      if written.Some? {
        GetAfterSetPath(root, path, v);
        root := written.value;
        ok := true;
      } else {
        ok := false;
      }
    }
  }
}
