/**
 * JSON values as the projector builds them before encoding. An object is an
 * insertion-ordered list of (key, value) pairs, as a PHP array is: writing an
 * existing key replaces its value in the key's original slot, writing a new key
 * appends it. Key order survives into the encoded document.
 */
module JsonValue {
  import opened Wrappers

  datatype Json =
    | JNull
    | JString(str: string)
    | JInt(num: int)
    | JReal(val: real)
    | JArray(elems: seq<Json>)
    | JObject(fields: Fields)

  type Fields = seq<(string, Json)>

  function Keys(o: Fields): seq<string> {
    if o == [] then [] else [o[0].0] + Keys(o[1..])
  }

  lemma {:induction false} KeysAppend(a: Fields, b: Fields)
    ensures Keys(a + b) == Keys(a) + Keys(b)
  {
    if a == [] {
      assert a + b == b;
    } else {
      assert (a + b)[0] == a[0];
      assert (a + b)[1..] == a[1..] + b;
      KeysAppend(a[1..], b);
    }
  }

  lemma {:induction false} KeysAt(o: Fields)
    ensures |Keys(o)| == |o|
    ensures forall i :: 0 <= i < |o| ==> Keys(o)[i] == o[i].0
  {
    if o != [] {
      KeysAt(o[1..]);
    }
  }

  predicate UniqueKeys(o: Fields) {
    forall i, j :: 0 <= i < j < |o| ==> o[i].0 != o[j].0
  }

  /** The value stored under k: PHP's $o[k], None when the key is absent. */
  function Get(o: Fields, k: string): Option<Json> {
    if o == [] then None
    else if o[0].0 == k then Some(o[0].1)
    else Get(o[1..], k)
  }

  lemma {:induction false} GetPresent(o: Fields, k: string)
    ensures Get(o, k).Some? <==> k in Keys(o)
  {
    if o != [] {
      GetPresent(o[1..], k);
    }
  }

  /** In an object without repeated keys, a stored pair is what Get finds. */
  lemma {:induction false} GetMember(o: Fields, k: string, v: Json)
    requires UniqueKeys(o) && (k, v) in o
    ensures Get(o, k) == Some(v)
  {
    var i :| 0 <= i < |o| && o[i] == (k, v);
    if i != 0 {
      assert o[0].0 != k;
      assert o[1..][i - 1] == (k, v);
      GetMember(o[1..], k, v);
    }
  }

  /** The assignment $o[k] = v. */
  function Put(o: Fields, k: string, v: Json): Fields {
    if o == [] then [(k, v)]
    else if o[0].0 == k then [(k, v)] + o[1..]
    else [o[0]] + Put(o[1..], k, v)
  }

  /** After $o[k] = v, reading k gives v. */
  lemma {:induction false} PutGet(o: Fields, k: string, v: Json)
    ensures Get(Put(o, k, v), k) == Some(v)
  {
    if o != [] && o[0].0 != k {
      assert Put(o, k, v)[1..] == Put(o[1..], k, v);
      PutGet(o[1..], k, v);
    }
  }

  /** $o[k] = v leaves every other key's value as it was. */
  lemma {:induction false} PutGetOther(o: Fields, k: string, v: Json, k': string)
    requires k' != k
    ensures Get(Put(o, k, v), k') == Get(o, k')
  {
    if o != [] && o[0].0 != k {
      assert Put(o, k, v)[1..] == Put(o[1..], k, v);
      PutGetOther(o[1..], k, v, k');
    } else if o != [] {
      assert Put(o, k, v)[1..] == o[1..];
    }
  }

  /** $o[k] = v keeps the key order, appending k only when it is new. */
  lemma {:induction false} PutKeys(o: Fields, k: string, v: Json)
    ensures Keys(Put(o, k, v)) == if k in Keys(o) then Keys(o) else Keys(o) + [k]
  {
    if o != [] {
      if o[0].0 == k {
        assert Put(o, k, v)[1..] == o[1..];
      } else {
        assert Put(o, k, v)[1..] == Put(o[1..], k, v);
        PutKeys(o[1..], k, v);
      }
    }
  }

  /** A sequence of assignments $o[k1] = v1; $o[k2] = v2; ... performed in order. */
  function PutAll(o: Fields, ups: Fields): Fields
    decreases |ups|
  {
    if ups == [] then o
    else
      var n := |ups| - 1;
      Put(PutAll(o, ups[..n]), ups[n].0, ups[n].1)
  }

  lemma PutAllSnoc(o: Fields, ups: Fields, k: string, v: Json)
    ensures PutAll(o, ups + [(k, v)]) == Put(PutAll(o, ups), k, v)
  {
    assert (ups + [(k, v)])[..|ups|] == ups;
  }

  lemma {:induction false} PutAllAppend(o: Fields, a: Fields, b: Fields)
    ensures PutAll(o, a + b) == PutAll(PutAll(o, a), b)
    decreases |b|
  {
    if b == [] {
      assert a + b == a;
    } else {
      var n := |b| - 1;
      assert (a + b)[..|a| + n] == a + b[..n];
      assert (a + b)[|a| + n] == b[n];
      PutAllAppend(o, a, b[..n]);
    }
  }

  /** Assigning a key the object does not hold appends it at the end. */
  lemma {:induction false} PutFresh(o: Fields, k: string, v: Json)
    requires k !in Keys(o)
    ensures Put(o, k, v) == o + [(k, v)]
  {
    if o != [] {
      PutFresh(o[1..], k, v);
    }
  }

  /** Assigning a key the object holds rewrites it in its original slot. */
  lemma {:induction false} PutInSlot(a: Fields, k: string, w: Json, b: Fields, v: Json)
    requires k !in Keys(a)
    ensures Put(a + [(k, w)] + b, k, v) == a + [(k, v)] + b
  {
    if a == [] {
      assert ([(k, w)] + b)[1..] == b;
    } else {
      assert (a + [(k, w)] + b)[1..] == a[1..] + [(k, w)] + b;
      PutInSlot(a[1..], k, w, b, v);
    }
  }

  /** Assignments of distinct new keys append them in the order performed. */
  lemma {:induction false} PutAllFresh(o: Fields, ups: Fields)
    requires UniqueKeys(o + ups)
    ensures PutAll(o, ups) == o + ups
    decreases |ups|
  {
    if ups != [] {
      var n := |ups| - 1;
      assert (o + ups)[..|o| + n] == o + ups[..n];
      PutAllFresh(o, ups[..n]);
      var p := o + ups[..n];
      KeysAt(p);
      assert ups[n].0 !in Keys(p) by {
        forall i | 0 <= i < |p| ensures p[i].0 != ups[n].0 {
          assert p[i] == (o + ups)[i] && ups[n] == (o + ups)[|o| + n];
        }
      }
      PutFresh(p, ups[n].0, ups[n].1);
      assert p + [ups[n]] == o + ups;
    }
  }

  lemma {:induction false} GetAppend(a: Fields, b: Fields, k: string)
    ensures Get(a + b, k) == if k in Keys(a) then Get(a, k) else Get(b, k)
  {
    if a == [] {
      assert a + b == b;
    } else {
      assert (a + b)[0] == a[0];
      assert (a + b)[1..] == a[1..] + b;
      GetAppend(a[1..], b, k);
    }
  }

  /** A key no pair carries is absent. */
  lemma {:induction false} GetAbsent(o: Fields, k: string)
    requires forall p :: p in o ==> p.0 != k
    ensures Get(o, k) == None
  {
    if o != [] {
      assert o[0] in o;
      assert forall p :: p in o[1..] ==> p in o;
      GetAbsent(o[1..], k);
    }
  }

  /** A run of assignments that never names k leaves k's value as it was. */
  lemma {:induction false} PutAllGetOther(o: Fields, ups: Fields, k: string)
    requires forall i :: 0 <= i < |ups| ==> ups[i].0 != k
    ensures Get(PutAll(o, ups), k) == Get(o, k)
    decreases |ups|
  {
    if ups != [] {
      var n := |ups| - 1;
      PutAllGetOther(o, ups[..n], k);
      PutGetOther(PutAll(o, ups[..n]), ups[n].0, ups[n].1, k);
    }
  }
}
