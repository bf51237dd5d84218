/**
 * Two computations of the block editor: the position a ranked block shows
 * among its siblings, and the list of validation warnings shown for its
 * fields. The editor reads attribute values with JavaScript's truthiness, in
 * which "" is false but "0" is true, unlike PHP's empty().
 */
module Editor {
  import opened Wrappers
  import opened Decimal
  import opened Php
  import opened Collector
  import opened ItemSpec
  import opened ItemList
  import opened Frontend

  // ---- The sibling position ----

  /** An entry of the parent's block order: a client id and the block name the editor reports for it. */
  datatype Sibling = Sibling(clientId: string, name: string)

  predicate IsRankedSibling(s: Sibling) {
    s.name == RankedBlockName
  }

  /** A ranked sibling with the given client id: the entry the selector stops at. */
  predicate Matches(s: Sibling, clientId: string) {
    IsRankedSibling(s) && s.clientId == clientId
  }

  /** The number of ranked blocks among the siblings. */
  function RankedCount(order: seq<Sibling>): (n: nat)
    ensures n <= |order|
    decreases |order|
  {
    if order == [] then 0
    else
      var last := |order| - 1;
      RankedCount(order[..last]) + (if IsRankedSibling(order[last]) then 1 else 0)
  }

  /** The index of the first sibling the selector stops at, None when there is none. */
  function FirstMatch(order: seq<Sibling>, clientId: string): (r: Option<nat>)
    ensures r.Some? ==> r.value < |order| && Matches(order[r.value], clientId)
    ensures r.Some? ==> forall j :: 0 <= j < r.value ==> !Matches(order[j], clientId)
    ensures r.None? ==> forall j :: 0 <= j < |order| ==> !Matches(order[j], clientId)
    decreases |order|
  {
    if order == [] then None
    else if Matches(order[0], clientId) then Some(0)
    else
      match FirstMatch(order[1..], clientId)
      case Some(k) => Some(k + 1)
      case None => None
  }

  /**
   * The position the editor shows: the number of ranked siblings up to and
   * including the block itself, or the number of all ranked siblings when the
   * block is not among them.
   */
  function Position(order: seq<Sibling>, clientId: string): nat {
    match FirstMatch(order, clientId)
    case Some(k) => RankedCount(order[..k + 1])
    case None => RankedCount(order)
  }

  /** The position selector of the edit component: a loop over the block order that returns early at the block. */
  method EditorPosition(order: seq<Sibling>, clientId: string) returns (pos: nat)
    ensures pos == Position(order, clientId)
  {
    pos := 0;
    var i := 0;
    while i < |order|
      invariant 0 <= i <= |order|
      invariant pos == RankedCount(order[..i])
      invariant forall j :: 0 <= j < i ==> !Matches(order[j], clientId)
    {
      var id := order[i];
      assert order[..i + 1][..i] == order[..i];
      if IsRankedSibling(id) {
        pos := pos + 1;
        if id.clientId == clientId {
          return;
        }
      }
      i := i + 1;
    }
    assert order[..i] == order;
  }

  /** A found block shows a position from 1 up to the number of ranked siblings. */
  lemma {:induction false} PositionBounds(order: seq<Sibling>, clientId: string)
    ensures FirstMatch(order, clientId).Some? ==> 1 <= Position(order, clientId) <= RankedCount(order)
    ensures FirstMatch(order, clientId).None? ==> Position(order, clientId) == RankedCount(order)
  {
    match FirstMatch(order, clientId)
    case Some(k) =>
      assert order[..k + 1][..k] == order[..k];
      RankedCountPrefix(order, k + 1);
    case None =>
  }

  /** A prefix never holds more ranked blocks than the whole order. */
  lemma {:induction false} RankedCountPrefix(order: seq<Sibling>, n: nat)
    requires n <= |order|
    ensures RankedCount(order[..n]) <= RankedCount(order)
    decreases |order|
  {
    if n < |order| {
      var last := |order| - 1;
      assert order[..last][..n] == order[..n];
      RankedCountPrefix(order[..last], n);
    } else {
      assert order[..n] == order;
    }
  }

  /** The ranked count of a concatenation is the sum of the counts. */
  lemma {:induction false} RankedCountAppend(x: seq<Sibling>, y: seq<Sibling>)
    ensures RankedCount(x + y) == RankedCount(x) + RankedCount(y)
    decreases |y|
  {
    if y == [] {
      assert x + y == x;
    } else {
      var last := |y| - 1;
      assert (x + y)[..|x| + last] == x + y[..last];
      assert (x + y)[|x| + last] == y[last];
      RankedCountAppend(x, y[..last]);
    }
  }

  /** Blocks of other kinds never move a ranked block's position, wherever they are inserted. */
  lemma OtherBlocksIgnored(order: seq<Sibling>, i: nat, s: Sibling, clientId: string)
    requires i <= |order| && !IsRankedSibling(s)
    ensures Position(order[..i] + [s] + order[i..], clientId) == Position(order, clientId)
  {
    var longer := order[..i] + [s] + order[i..];
    FirstMatchInsert(order, i, s, clientId);
    var m := FirstMatch(order, clientId);
    if m.Some? {
      var k := m.value;
      assert Position(order, clientId) == RankedCount(order[..k + 1]);
      if k < i {
        assert Position(longer, clientId) == RankedCount(longer[..k + 1]);
        PrefixBeforeInsert(order, i, s, k + 1);
      } else {
        assert Position(longer, clientId) == RankedCount(longer[..k + 2]);
        RankedCountInsert(order, i, s, k + 1);
      }
    } else {
      assert Position(longer, clientId) == RankedCount(longer);
      RankedCountInsert(order, i, s, |order|);
      assert order[..|order|] == order;
      assert longer[..|order| + 1] == longer;
    }
  }

  /** Up to the insertion point, the longer order is the original one. */
  lemma PrefixBeforeInsert(order: seq<Sibling>, i: nat, s: Sibling, n: nat)
    requires n <= i <= |order|
    ensures (order[..i] + [s] + order[i..])[..n] == order[..n]
  {
    var longer := order[..i] + [s] + order[i..];
    assert forall j :: 0 <= j < n ==> longer[j] == order[..i][j];
  }

  /** Inserting a block of another kind shifts the first match past the insertion point by one. */
  lemma FirstMatchInsert(order: seq<Sibling>, i: nat, s: Sibling, clientId: string)
    requires i <= |order| && !IsRankedSibling(s)
    ensures FirstMatch(order[..i] + [s] + order[i..], clientId) ==
      match FirstMatch(order, clientId)
      case Some(k) => Some(if k < i then k else k + 1)
      case None => None
  {
    var longer := order[..i] + [s] + order[i..];
    match FirstMatch(order, clientId)
    case Some(k) =>
      var k' := if k < i then k else k + 1;
      forall j | 0 <= j < k'
        ensures !Matches(longer[j], clientId)
      {
        InsertedAt(order, i, s, j);
      }
      InsertedAt(order, i, s, k');
      FirstMatchUnique(longer, clientId, k');
    case None =>
      forall j | 0 <= j < |longer|
        ensures !Matches(longer[j], clientId)
      {
        InsertedAt(order, i, s, j);
      }
  }

  /** Where each element of the longer order comes from. */
  lemma InsertedAt(order: seq<Sibling>, i: nat, s: Sibling, j: nat)
    requires i <= |order| && j <= |order|
    ensures (order[..i] + [s] + order[i..])[j] == if j < i then order[j] else if j == i then s else order[j - 1]
  {
  }

  /** A block of another kind adds nothing to the count of any prefix that contains it. */
  lemma RankedCountInsert(order: seq<Sibling>, i: nat, s: Sibling, n: nat)
    requires i <= n <= |order| && !IsRankedSibling(s)
    ensures RankedCount((order[..i] + [s] + order[i..])[..n + 1]) == RankedCount(order[..n])
  {
    assert (order[..i] + [s] + order[i..])[..n + 1] == order[..i] + [s] + order[i..n];
    assert RankedCount([s]) == 0 by {
      assert [s][..0] == [];
    }
    RankedCountAppend(order[..i], [s]);
    RankedCountAppend(order[..i] + [s], order[i..n]);
    RankedCountAppend(order[..i], order[i..n]);
    assert order[..i] + order[i..n] == order[..n];
  }

  /** The first match is the earliest matching index. */
  lemma FirstMatchUnique(order: seq<Sibling>, clientId: string, k: nat)
    requires k < |order| && Matches(order[k], clientId)
    requires forall j :: 0 <= j < k ==> !Matches(order[j], clientId)
    ensures FirstMatch(order, clientId) == Some(k)
  {
  }

  // ---- JavaScript number parsing ----

  /** The white space parseFloat() and Number() skip (the Unicode space separators beyond these are not modelled). */
  predicate IsJsSpace(c: char) {
    c == ' ' || c == '\t' || c == '\n' || c == '\r' || c == '\U{0B}' || c == '\U{0C}'
    || c == '\U{A0}' || c == '\U{FEFF}' || c == '\U{2028}' || c == '\U{2029}'
  }

  function JsTrimStart(s: string): (r: string)
    ensures |r| <= |s| && r == s[|s| - |r|..]
    ensures forall k :: 0 <= k < |s| - |r| ==> IsJsSpace(s[k])
    ensures r != [] ==> !IsJsSpace(r[0])
  {
    if s != [] && IsJsSpace(s[0]) then
      var r := JsTrimStart(s[1..]);
      assert forall k :: 1 <= k < |s| - |r| ==> s[k] == s[1..][k - 1];
      r
    else s
  }

  function JsTrimEnd(s: string): (r: string)
    ensures |r| <= |s| && r == s[..|r|]
    ensures forall k :: |r| <= k < |s| ==> IsJsSpace(s[k])
    ensures r != [] ==> !IsJsSpace(r[|r| - 1])
  {
    if s != [] && IsJsSpace(s[|s| - 1]) then
      var r := JsTrimEnd(s[..|s| - 1]);
      assert forall k :: |r| <= k < |s| - 1 ==> s[k] == s[..|s| - 1][k];
      r
    else s
  }

  /** The longest prefix of an unsigned string shaped like digits, then '.' and digits. */
  function UnsignedPrefix(u: string): string {
    var ip := LeadingDigits(u);
    var rest := u[|ip|..];
    ip + (if rest != [] && rest[0] == '.' then ['.'] + LeadingDigits(rest[1..]) else [])
  }

  /** The longest prefix shaped like a decimal: an optional sign, digits, then '.' and digits. */
  function DecimalPrefix(t: string): string {
    if HasSign(t) then [t[0]] + UnsignedPrefix(t[1..]) else UnsignedPrefix(t)
  }

  /** A character a decimal may hold: a sign, a digit or the point. */
  predicate IsNumberChar(c: char) {
    IsDigit(c) || c == '.' || c == '+' || c == '-'
  }

  /**
   * parseFloat(s): the value of the longest decimal prefix after leading white
   * space; None stands for NaN. A decimal reads as PHP reads it, and a blank
   * string or one whose first visible character cannot start a number is NaN.
   */
  function JsParseFloat(s: string): (r: Option<real>)
    ensures IsDecimal(s) ==> r == Some(DecimalValue(s))
    ensures (forall k :: 0 <= k < |s| ==> IsJsSpace(s[k])) ==> r.None?
    ensures var t := JsTrimStart(s); t != [] && !IsNumberChar(t[0]) ==> r.None?
  {
    var p := DecimalPrefix(JsTrimStart(s));
    NoNumberStart(s);
    var r := if IsDecimal(p) then Some(DecimalValue(p)) else None;
    if IsDecimal(s) then
      DecimalUnspaced(s);
      DecimalPrefixOfDecimal(s);
      r
    else r
  }

  /**
   * Number(s): a blank string is 0, a decimal its value, and a string holding
   * any visible character a decimal cannot hold is NaN (None).
   */
  function JsNumber(s: string): (r: Option<real>)
    ensures (forall k :: 0 <= k < |s| ==> IsJsSpace(s[k])) ==> r == Some(0.0)
    ensures IsDecimal(s) ==> r == Some(DecimalValue(s))
    ensures (exists k :: 0 <= k < |s| && !IsJsSpace(s[k]) && !IsNumberChar(s[k])) ==> r.None?
  {
    var t := JsTrimEnd(JsTrimStart(s));
    StrayCharNotDecimal(s);
    var r := if t == [] then Some(0.0) else if IsDecimal(t) then Some(DecimalValue(t)) else None;
    if IsDecimal(s) then
      DecimalUnspaced(s);
      assert t == s && s != [];
      r
    else r
  }

  /** Nothing shaped like a number is read from a blank string or one whose first visible character cannot start one. */
  lemma NoNumberStart(s: string)
    ensures var t := JsTrimStart(s);
      (t == [] || !IsNumberChar(t[0])) ==> DecimalPrefix(t) == [] && !IsDecimal([])
    ensures (forall k :: 0 <= k < |s| ==> IsJsSpace(s[k])) ==> JsTrimStart(s) == []
  {
    var t := JsTrimStart(s);
    if t != [] {
      assert t[0] == s[|s| - |t|];
    }
  }

  /** A decimal neither starts nor ends with white space. */
  lemma DecimalUnspaced(s: string)
    requires IsDecimal(s)
    ensures JsTrimStart(s) == s && JsTrimEnd(s) == s
  {
    var u := Unsigned(s);
    UnsignedDecimalText(u);
    assert u != [];
    assert IsNumberChar(s[0]) by {
      if !HasSign(s) {
        assert s[0] == u[0];
      }
    }
    assert IsNumberChar(s[|s| - 1]) by {
      assert s[|s| - 1] == u[|u| - 1];
    }
    NumberCharNotSpace(s[0]);
    NumberCharNotSpace(s[|s| - 1]);
  }

  lemma NumberCharNotSpace(c: char)
    requires IsNumberChar(c)
    ensures !IsJsSpace(c)
  {
  }

  /** A visible character a decimal cannot hold stays in the trimmed string and spoils it. */
  lemma StrayCharNotDecimal(s: string)
    ensures (exists k :: 0 <= k < |s| && !IsJsSpace(s[k]) && !IsNumberChar(s[k])) ==> !IsDecimal(JsTrimEnd(JsTrimStart(s)))
  {
    if exists k :: 0 <= k < |s| && !IsJsSpace(s[k]) && !IsNumberChar(s[k]) {
      var k :| 0 <= k < |s| && !IsJsSpace(s[k]) && !IsNumberChar(s[k]);
      StrayCharAt(s, k);
    }
  }

  lemma StrayCharAt(s: string, k: nat)
    requires k < |s| && !IsJsSpace(s[k]) && !IsNumberChar(s[k])
    ensures !IsDecimal(JsTrimEnd(JsTrimStart(s)))
  {
    var l := JsTrimStart(s);
    var t := JsTrimEnd(l);
    var a := |s| - |l|;
    assert a <= k < a + |t|;
    assert t[k - a] == s[k];
    var u := Unsigned(t);
    UnsignedDecimalText(u);
    if HasSign(t) {
      assert u[k - a - 1] == t[k - a];
    } else {
      assert u[k - a] == t[k - a];
    }
  }

  /** Number.isInteger: a finite number with no fractional part. */
  predicate JsIsInteger(x: Option<real>) {
    x.Some? && IsWhole(x.value)
  }

  /** Number.isInteger(Number(s)) for a decimal s: true exactly when every fraction digit is '0'. */
  lemma JsIsIntegerOfDecimal(s: string)
    requires IsDecimal(s)
    ensures JsIsInteger(JsNumber(s)) <==> forall i :: 0 <= i < |Fraction(Unsigned(s))| ==> Fraction(Unsigned(s))[i] == '0'
  {
    var t := Unsigned(s);
    var w, fr := DigitsValue(LeadingDigits(t)), FractionValue(Fraction(t));
    FractionZero(Fraction(t));
    var x := DecimalValue(s);
    WholeIff(x, Sign(s), w, fr);
    assert JsNumber(s) == Some(x);
  }

  lemma DecimalPrefixOfDecimal(s: string)
    requires IsDecimal(s)
    ensures DecimalPrefix(s) == s
  {
    UnsignedPrefixOfDecimal(Unsigned(s));
    if HasSign(s) {
      assert [s[0]] + s[1..] == s;
    }
  }

  lemma UnsignedPrefixOfDecimal(u: string)
    requires IsUnsignedDecimal(u)
    ensures UnsignedPrefix(u) == u
  {
    var ip := LeadingDigits(u);
    var rest := u[|ip|..];
    if rest != [] {
      LeadingDigitsOfDigits(rest[1..]);
      assert ['.'] + rest[1..] == rest;
    }
    assert ip + rest == u;
  }

  // ---- Validation warnings ----

  datatype Warning = TitleRequired | InvalidUrl | RatingOutOfRange | InvalidReviewCount | InvalidPrice

  /** The text each warning shows. */
  function Message(w: Warning): string {
    match w
    case TitleRequired => "Title is required."
    case InvalidUrl => "URL must be a valid address starting with http:// or https://."
    case RatingOutOfRange => "Rating value must be between 0 and 5."
    case InvalidReviewCount => "Review count must be a positive integer."
    case InvalidPrice => "Price must be a valid number."
  }

  /** The texts the warnings list shows, in order. */
  function Shown(ws: seq<Warning>): (texts: seq<string>)
    ensures |texts| == |ws|
    ensures forall i :: 0 <= i < |ws| ==> texts[i] == Message(ws[i])
  {
    seq(|ws|, i requires 0 <= i < |ws| => Message(ws[i]))
  }

  /** No two warnings share a text, so the text shown names the check that failed. */
  lemma MessageIdentifies(v: Warning, w: Warning)
    ensures Message(v) == Message(w) <==> v == w
  {
    assert |Message(v)| == MessageLength(v) && |Message(w)| == MessageLength(w);
  }

  /** The length of each warning's text; no two are alike. */
  function MessageLength(w: Warning): (n: nat)
    ensures |Message(w)| == n
  {
    match w
    case TitleRequired => 18
    case InvalidUrl => 62
    case RatingOutOfRange => 37
    case InvalidReviewCount => 40
    case InvalidPrice => 29
  }

  /** A text is shown exactly when its warning is in the list. */
  lemma ShownListed(ws: seq<Warning>, k: Warning)
    ensures Message(k) in Shown(ws) <==> k in ws
  {
    if Message(k) in Shown(ws) {
      var i :| 0 <= i < |ws| && Shown(ws)[i] == Message(k);
      MessageIdentifies(ws[i], k);
    }
  }

  /** The place of each warning in the list. */
  function Rank(w: Warning): nat {
    match w
    case TitleRequired => 0
    case InvalidUrl => 1
    case RatingOutOfRange => 2
    case InvalidReviewCount => 3
    case InvalidPrice => 4
  }

  /** JavaScript truthiness of a string attribute (an unset attribute reads as ""). */
  predicate Truthy(s: string) {
    s != ""
  }

  /** The characters '.' does not match in a JavaScript regular expression. */
  predicate IsLineTerminator(c: char) {
    c == '\n' || c == '\r' || c == '\U{2028}' || c == '\U{2029}'
  }

  /**
   * /^https?:\/\/.+/: the scheme, then at least one character that is not a
   * line terminator, so a bare scheme never matches.
   */
  predicate UrlMatches(url: string)
    ensures UrlMatches(url) ==> |url| >= 8 && url[..4] == "http"
  {
    (|url| > 7 && url[..7] == "http://" && !IsLineTerminator(url[7]))
    || (|url| > 8 && url[..8] == "https://" && !IsLineTerminator(url[8]))
  }

  /** The pattern has no end anchor: whatever follows an accepted address, spaces included, is accepted too. */
  lemma UrlMatchesExtend(url: string, more: string)
    requires UrlMatches(url)
    ensures UrlMatches(url + more)
  {
    var u := url + more;
    if |url| > 7 && url[..7] == "http://" && !IsLineTerminator(url[7]) {
      assert u[..7] == url[..7] && u[7] == url[7];
    } else {
      assert u[..8] == url[..8] && u[8] == url[8];
    }
  }

  /** The field values the warnings look at. */
  datatype EditorFields = EditorFields(title: string, url: string, ratingValue: string, reviewCount: string, price: string)

  /** When each warning is raised. A NaN rating compares false both ways and so raises none. */
  predicate Raised(w: Warning, f: EditorFields) {
    match w
    case TitleRequired => !Truthy(f.title)
    case InvalidUrl => Truthy(f.url) && !UrlMatches(f.url)
    case RatingOutOfRange =>
      Truthy(f.ratingValue)
      && var v := JsParseFloat(f.ratingValue); v.Some? && (v.value < 0.0 || v.value > 5.0)
    case InvalidReviewCount =>
      Truthy(f.reviewCount)
      && var n := JsNumber(f.reviewCount); !JsIsInteger(n) || n.value < 0.0
    case InvalidPrice => Truthy(f.price) && JsParseFloat(f.price).None?
  }

  /** The warnings computation: one push per failed check, in a fixed order. */
  method Warnings(f: EditorFields) returns (w: seq<Warning>)
    ensures forall k :: k in w <==> Raised(k, f)
    ensures forall i, j :: 0 <= i < j < |w| ==> Rank(w[i]) < Rank(w[j])
    ensures forall k :: Message(k) in Shown(w) <==> Raised(k, f)
  {
    w := [];
    if !Truthy(f.title) {
      w := w + [TitleRequired];
    }
    RaisedBelowStep(f, 1, TitleRequired);
    assert w == RaisedBelow(f, 1);
    if Truthy(f.url) && !UrlMatches(f.url) {
      w := w + [InvalidUrl];
    }
    RaisedBelowStep(f, 2, InvalidUrl);
    assert w == RaisedBelow(f, 2);
    if Truthy(f.ratingValue) {
      var v := JsParseFloat(f.ratingValue);
      if v.Some? && (v.value < 0.0 || v.value > 5.0) {
        w := w + [RatingOutOfRange];
      }
    }
    RaisedBelowStep(f, 3, RatingOutOfRange);
    assert w == RaisedBelow(f, 3);
    if Truthy(f.reviewCount) {
      var n := JsNumber(f.reviewCount);
      if !JsIsInteger(n) || n.value < 0.0 {
        w := w + [InvalidReviewCount];
      }
    }
    RaisedBelowStep(f, 4, InvalidReviewCount);
    assert w == RaisedBelow(f, 4);
    if Truthy(f.price) && JsParseFloat(f.price).None? {
      w := w + [InvalidPrice];
    }
    RaisedBelowStep(f, 5, InvalidPrice);
    assert w == RaisedBelow(f, 5);
    AllRaisedListed(f, w);
    forall k {
      ShownListed(w, k);
    }
  }

  lemma AllRaisedListed(f: EditorFields, w: seq<Warning>)
    requires w == RaisedBelow(f, 5)
    ensures forall k :: k in w <==> Raised(k, f)
    ensures forall i, j :: 0 <= i < j < |w| ==> Rank(w[i]) < Rank(w[j])
  {
    RaisedBelowListed(f, 5);
  }

  /** The warning of each rank. */
  function OfRank(n: nat): (w: Warning)
    requires n < 5
    ensures Rank(w) == n
  {
    if n == 0 then TitleRequired
    else if n == 1 then InvalidUrl
    else if n == 2 then RatingOutOfRange
    else if n == 3 then InvalidReviewCount
    else InvalidPrice
  }

  /** The raised warnings of rank below m, in rank order. */
  function RaisedBelow(f: EditorFields, m: nat): seq<Warning>
    requires m <= 5
  {
    if m == 0 then []
    else RaisedBelow(f, m - 1) + (if Raised(OfRank(m - 1), f) then [OfRank(m - 1)] else [])
  }

  lemma RaisedBelowStep(f: EditorFields, m: nat, x: Warning)
    requires 0 < m <= 5 && Rank(x) == m - 1
    ensures RaisedBelow(f, m) == RaisedBelow(f, m - 1) + (if Raised(x, f) then [x] else [])
  {
    assert OfRank(m - 1) == x;
  }

  /** RaisedBelow lists, in rank order, exactly the raised warnings of rank below m. */
  lemma {:induction false} RaisedBelowListed(f: EditorFields, m: nat)
    requires m <= 5
    ensures forall k :: k in RaisedBelow(f, m) <==> Raised(k, f) && Rank(k) < m
    ensures forall i, j :: 0 <= i < j < |RaisedBelow(f, m)| ==> Rank(RaisedBelow(f, m)[i]) < Rank(RaisedBelow(f, m)[j])
  {
    if m > 0 {
      RaisedBelowListed(f, m - 1);
      forall k | Rank(k) == m - 1
        ensures k == OfRank(m - 1)
      {
  }
    }
  }

  /** No field that is left empty raises anything but the title warning. */
  lemma EmptyFieldsQuiet(f: EditorFields)
    ensures f.url == "" ==> !Raised(InvalidUrl, f)
    ensures f.ratingValue == "" ==> !Raised(RatingOutOfRange, f)
    ensures f.reviewCount == "" ==> !Raised(InvalidReviewCount, f)
    ensures f.price == "" ==> !Raised(InvalidPrice, f)
    ensures Raised(TitleRequired, f) <==> f.title == ""
  {
  }

  /**
   * For a numeric rating the editor and the structured data agree: the editor
   * warns exactly when the schema leaves ratingValue out.
   */
  lemma RatingWarningMatchesSchema(a: Attrs, f: EditorFields)
    requires f.ratingValue == RawRating(a) && IsNumeric(RawRating(a))
    ensures Raised(RatingOutOfRange, f) <==> !RatingValueAccepted(a)
  {
  }

  /** A price the schema turns into an offer never raises the price warning. */
  lemma OfferedPriceQuiet(a: Attrs, f: EditorFields)
    requires "price" in a && f.price == a["price"] && HasValidPrice(a)
    ensures !Raised(InvalidPrice, f)
  {
  }

  /**
   * The title "0" is where the two sides part: the editor, reading it as a
   * true JavaScript string, raises no warning, but PHP's empty() drops the
   * record: it is left out of the structured data and its block renders
   * nothing.
   */
  lemma ZeroTitleSilentlyDropped(records: seq<Attrs>, i: nat, f: EditorFields, p: int)
    requires i < |records| && "title" in records[i] && records[i]["title"] == "0"
    requires f.title == records[i]["title"]
    ensures !Raised(TitleRequired, f)
    ensures !Emitted(records[i]) && RenderOf(records[i], p).Skipped?
    ensures i !in Survivors(records)
  {
  }
}
