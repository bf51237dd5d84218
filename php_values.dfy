/**
 * The PHP value semantics the projector relies on: block attributes as a string
 * dictionary, the `??` and empty() tests, trim(), explode(), array_filter() with
 * its preserved keys, and how an array becomes a JSON array or a JSON object.
 */
module Php {
  import opened Wrappers
  import opened Decimal
  import opened JsonValue

  /** A block's attributes: attribute name to its string value. */
  type Attrs = map<string, string>

  /** The strings PHP treats as false: "" and "0". */
  predicate Falsy(s: string) {
    s == "" || s == "0"
  }

  /** empty($attrs[key]): the key is absent or holds a falsy string. */
  predicate Empty(a: Attrs, key: string) {
    key !in a || Falsy(a[key])
  }

  /** $attrs[key] ?? default: only an absent key falls back. */
  function Coalesce(a: Attrs, key: string, default: string): string {
    if key in a then a[key] else default
  }

  /** empty() applied to a slot of a JSON-bound array. */
  predicate JsonEmpty(v: Option<Json>) {
    match v
    case None => true
    case Some(j) =>
      match j
      case JNull => true
      case JString(s) => Falsy(s)
      case JInt(n) => n == 0
      case JReal(r) => r == 0.0
      case JArray(e) => e == []
      case JObject(f) => f == []
  }

  /**
   * is_numeric on a string: an optional sign, then digits and at most one
   * '.', with at least one digit.
   */
  predicate IsNumeric(s: string)
    ensures IsNumeric(s) <==> NumericText(if HasSign(s) then s[1..] else s)
  {
    UnsignedDecimalText(Unsigned(s));
    IsDecimal(s)
  }

  /** (float) of a numeric string: negative only under a leading minus sign. */
  function ToFloat(s: string): (v: real)
    requires IsNumeric(s)
    ensures s[0] == '-' ==> v <= 0.0
    ensures s[0] != '-' ==> v >= 0.0
  {
    DecimalSign(s);
    DecimalValue(s)
  }

  /** (float) reads the digits with the point removed and scales them back by the number of fraction digits. */
  lemma ToFloatScaled(s: string)
    requires IsNumeric(s)
    ensures var t := Unsigned(s);
      ScaledBy(ToFloat(s), Pow10(|Fraction(t)|), Sign(s) * DigitsValue(LeadingDigits(t) + Fraction(t)))
  {
    DecimalScaled(s);
  }

  /** (int) of a numeric string: the value truncated toward zero. */
  function ToInt(s: string): (n: int)
    requires IsNumeric(s)
    ensures ToFloat(s) >= 0.0 ==> n as real <= ToFloat(s) < n as real + 1.0
    ensures ToFloat(s) < 0.0 ==> n as real - 1.0 < ToFloat(s) <= n as real
    ensures n > 0 <==> ToFloat(s) >= 1.0
  {
    IntegerPartTruncates(s);
    IntegerPart(s)
  }

  /** The characters trim() strips by default: space, tab, LF, CR, NUL, vertical tab. */
  predicate IsTrimChar(c: char) {
    c == ' ' || c == '\t' || c == '\n' || c == '\r' || c == '\0' || c == '\U{0B}'
  }

  /** ltrim(): drops the strippable characters at the start, and only those. */
  function TrimLeft(s: string): (r: string)
    ensures |r| <= |s| && r == s[|s| - |r|..]
    ensures forall k :: 0 <= k < |s| - |r| ==> IsTrimChar(s[k])
    ensures r != [] ==> !IsTrimChar(r[0])
  {
    if s != [] && IsTrimChar(s[0]) then
      var r := TrimLeft(s[1..]);
      assert forall k :: 1 <= k < |s| - |r| ==> s[k] == s[1..][k - 1];
      r
    else s
  }

  /** rtrim(): drops the strippable characters at the end, and only those. */
  function TrimRight(s: string): (r: string)
    ensures |r| <= |s| && r == s[..|r|]
    ensures forall k :: |r| <= k < |s| ==> IsTrimChar(s[k])
    ensures r != [] ==> !IsTrimChar(r[|r| - 1])
  {
    if s != [] && IsTrimChar(s[|s| - 1]) then
      var r := TrimRight(s[..|s| - 1]);
      assert forall k :: |r| <= k < |s| - 1 ==> s[k] == s[..|s| - 1][k];
      r
    else s
  }

  /** r is the slice of s at i, and everything of s around it is strippable. */
  predicate TrimmedAt(s: string, r: string, i: int) {
    && 0 <= i <= |s| - |r| && r == s[i..i + |r|]
    && (forall k :: 0 <= k < i ==> IsTrimChar(s[k]))
    && (forall k :: i + |r| <= k < |s| ==> IsTrimChar(s[k]))
  }

  /**
   * trim(): the slice s[i..j] left once every strippable character before i
   * and from j on is removed; the slice neither starts nor ends with one.
   */
  function Trim(s: string): (r: string)
    ensures exists i :: TrimmedAt(s, r, i)
    ensures r != [] ==> !IsTrimChar(r[0]) && !IsTrimChar(r[|r| - 1])
  {
    TrimSlice(s);
    TrimRight(TrimLeft(s))
  }

  lemma TrimSlice(s: string)
    ensures TrimmedAt(s, TrimRight(TrimLeft(s)), |s| - |TrimLeft(s)|)
  {
    var l := TrimLeft(s);
    var r := TrimRight(l);
    var i := |s| - |l|;
    assert r == s[i..i + |r|];
    assert 0 <= i <= |s| - |r|;
    assert forall k :: 0 <= k < i ==> IsTrimChar(s[k]);
    forall k | i + |r| <= k < |s|
      ensures IsTrimChar(s[k])
    {
      assert s[k] == l[k - i];
    }
    assert TrimmedAt(s, r, i);
  }

  /** explode(sep, s): the pieces between separators; never an empty list. */
  function Explode(s: string, sep: char): (pieces: seq<string>)
    ensures |pieces| >= 1
    ensures forall i :: 0 <= i < |pieces| ==> sep !in pieces[i]
  {
    if s == [] then [""]
    else
      var rest := Explode(s[1..], sep);
      if s[0] == sep then [""] + rest
      else [[s[0]] + rest[0]] + rest[1..]
  }

  /** implode(sep, pieces), the inverse of explode. */
  function Implode(pieces: seq<string>, sep: char): string
    requires |pieces| >= 1
  {
    if |pieces| == 1 then pieces[0] else pieces[0] + [sep] + Implode(pieces[1..], sep)
  }

  /** Joining the pieces of explode() gives back the original string. */
  lemma {:induction false} ImplodeExplode(s: string, sep: char)
    ensures Implode(Explode(s, sep), sep) == s
  {
    if s != [] {
      var rest := Explode(s[1..], sep);
      ImplodeExplode(s[1..], sep);
      if s[0] == sep {
        assert ([""] + rest)[1..] == rest;
      } else {
        var p := [[s[0]] + rest[0]] + rest[1..];
        if |rest| > 1 {
          assert p[1..] == rest[1..];
        }
      }
    }
  }

  /** Splitting a join of separator-free pieces gives back the pieces. */
  lemma {:induction false} ExplodeImplode(pieces: seq<string>, sep: char)
    requires |pieces| >= 1
    requires forall i :: 0 <= i < |pieces| ==> sep !in pieces[i]
    ensures Explode(Implode(pieces, sep), sep) == pieces
    decreases |pieces|, |pieces[0]|
  {
    var p0 := pieces[0];
    if p0 == [] {
      if |pieces| > 1 {
        var tail := Implode(pieces[1..], sep);
        assert Implode(pieces, sep) == [sep] + tail;
        assert ([sep] + tail)[1..] == tail;
        ExplodeImplode(pieces[1..], sep);
        assert [""] + pieces[1..] == pieces;
      }
    } else {
      var shorter := [p0[1..]] + pieces[1..];
      assert shorter[1..] == pieces[1..];
      assert forall i :: 1 <= i < |shorter| ==> shorter[i] == pieces[i];
      assert sep !in p0[1..];
      ExplodeImplode(shorter, sep);
      var s := Implode(pieces, sep);
      assert s == [p0[0]] + Implode(shorter, sep);
      assert s[1..] == Implode(shorter, sep);
      assert p0[0] != sep by {
        assert p0[0] in p0;
      }
      assert [p0[0]] + p0[1..] == p0;
      assert [p0] + pieces[1..] == pieces;
    }
  }

  /**
   * array_filter() without a callback on a list: the falsy entries are dropped
   * and every survivor keeps its original integer key.
   */
  function FilterFalsy(pieces: seq<string>): (kept: seq<(nat, string)>)
    ensures forall j :: 0 <= j < |kept| ==> kept[j].0 < |pieces| && kept[j].1 == pieces[kept[j].0] && !Falsy(kept[j].1)
    ensures forall j, l :: 0 <= j < l < |kept| ==> kept[j].0 < kept[l].0
    ensures forall i :: 0 <= i < |pieces| && !Falsy(pieces[i]) ==> (i, pieces[i]) in kept
    decreases |pieces|
  {
    if pieces == [] then []
    else
      var n := |pieces| - 1;
      var front := FilterFalsy(pieces[..n]);
      assert forall i :: 0 <= i < n ==> pieces[..n][i] == pieces[i];
      if Falsy(pieces[n]) then front
      else
        var kept := front + [(n, pieces[n])];
        kept
  }

  /** A PHP array is a list when its keys are 0, 1, 2, ... in order. */
  predicate IsList<T>(entries: seq<(nat, T)>) {
    forall j :: 0 <= j < |entries| ==> entries[j].0 == j
  }

  /** How json_encode() renders an array: a list as a JSON array, anything else as an object keyed by decimal strings. */
  function ArrayToJson(entries: seq<(nat, Json)>): (r: Json)
    ensures r.JArray? <==> IsList(entries)
    ensures r.JArray? || r.JObject?
    ensures r.JArray? ==> |r.elems| == |entries| && forall j :: 0 <= j < |entries| ==> r.elems[j] == entries[j].1
    ensures r.JObject? ==> |r.fields| == |entries|
    ensures r.JObject? ==> forall j :: 0 <= j < |entries| ==>
      AllDigits(r.fields[j].0) && DigitsValue(r.fields[j].0) == entries[j].0 && r.fields[j].1 == entries[j].1
    ensures r.JObject? && (forall j, l :: 0 <= j < l < |entries| ==> entries[j].0 != entries[l].0) ==> UniqueKeys(r.fields)
  {
    if IsList(entries) then JArray(seq(|entries|, j requires 0 <= j < |entries| => entries[j].1))
    else JObject(seq(|entries|, j requires 0 <= j < |entries| => (NatToString(entries[j].0), entries[j].1)))
  }

  /** When no piece is falsy, array_filter keeps every piece under its own index. */
  lemma {:induction false} FilterFalsyKeepsAll(pieces: seq<string>)
    requires forall i :: 0 <= i < |pieces| ==> !Falsy(pieces[i])
    ensures FilterFalsy(pieces) == seq(|pieces|, i requires 0 <= i < |pieces| => (i, pieces[i]))
    decreases |pieces|
  {
    if pieces != [] {
      var n := |pieces| - 1;
      FilterFalsyKeepsAll(pieces[..n]);
    }
  }

  /** When every piece is falsy, array_filter leaves an empty array. */
  lemma {:induction false} FilterFalsyDropsAll(pieces: seq<string>)
    requires forall i :: 0 <= i < |pieces| ==> Falsy(pieces[i])
    ensures FilterFalsy(pieces) == []
    decreases |pieces|
  {
    if pieces != [] {
      var n := |pieces| - 1;
      FilterFalsyDropsAll(pieces[..n]);
    }
  }

  /** No falsy piece comes before a piece array_filter keeps. */
  predicate NoBlankBeforeKept(pieces: seq<string>) {
    forall i, j :: 0 <= i < j < |pieces| && Falsy(pieces[i]) ==> Falsy(pieces[j])
  }

  /** array_filter keeps every piece exactly when none of them is falsy. */
  lemma {:induction false} FilterFalsyCount(pieces: seq<string>)
    ensures |FilterFalsy(pieces)| <= |pieces|
    ensures |FilterFalsy(pieces)| == |pieces| <==> forall i :: 0 <= i < |pieces| ==> !Falsy(pieces[i])
    decreases |pieces|
  {
    if pieces != [] {
      var n := |pieces| - 1;
      var q := pieces[..n];
      FilterFalsyCount(q);
      var front := FilterFalsy(q);
      if Falsy(pieces[n]) {
        assert FilterFalsy(pieces) == front;
      } else {
        assert |FilterFalsy(pieces)| == |front| + 1;
        if forall i :: 0 <= i < |pieces| ==> !Falsy(pieces[i]) {
          assert forall i :: 0 <= i < n ==> !Falsy(q[i]) by {
            assert forall i :: 0 <= i < n ==> q[i] == pieces[i];
          }
        }
        if |front| == n {
          assert forall i :: 0 <= i < n ==> q[i] == pieces[i];
        }
      }
    }
  }

  /**
   * The filtered array is still a list, so json_encode() writes it as an
   * array, exactly when no falsy piece precedes a kept one.
   */
  lemma {:induction false} FilterFalsyIsList(pieces: seq<string>)
    ensures IsList(FilterFalsy(pieces)) <==> NoBlankBeforeKept(pieces)
    decreases |pieces|
  {
    if pieces != [] {
      var n := |pieces| - 1;
      var q, x := pieces[..n], pieces[n];
      assert pieces == q + [x];
      FilterFalsyIsList(q);
      NoBlankSnoc(q, x);
      var front := FilterFalsy(q);
      if Falsy(x) {
        assert FilterFalsy(pieces) == front;
      } else {
        assert FilterFalsy(pieces) == front + [(n, x)];
        AppendIsList(front, n, x);
        FilterFalsyCount(q);
      }
    }
  }

  /** One more piece keeps the order of blanks exactly when the earlier ones did and, if it is kept, none before it is blank. */
  lemma NoBlankSnoc(q: seq<string>, x: string)
    ensures NoBlankBeforeKept(q + [x]) <==>
      NoBlankBeforeKept(q) && (Falsy(x) || forall i :: 0 <= i < |q| ==> !Falsy(q[i]))
  {
    var p := q + [x];
    assert forall i :: 0 <= i < |q| ==> p[i] == q[i];
    assert p[|q|] == x;
  }

  /** An entry appended to a list keeps it a list exactly when its key is the next index. */
  lemma AppendIsList<T>(front: seq<(nat, T)>, n: nat, x: T)
    ensures IsList(front + [(n, x)]) <==> IsList(front) && |front| == n
  {
    var e := front + [(n, x)];
    assert forall j :: 0 <= j < |front| ==> e[j] == front[j];
    assert e[|front|] == (n, x);
  }
}
