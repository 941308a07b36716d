// The canonical text behind the ledger's input hash (packages/ai/src/input-hash.ts). Strings are
// sequences of UTF-16 code units, as JavaScript compares and prints them.
module CanonicalJson {
  import opened Wrappers
  import opened Tables
  import opened Ledger

  type Unit = u: nat | u < 0x10000

  type Text = seq<Unit>

  const QUOTE: Unit := 34
  const COMMA: Unit := 44
  const COLON: Unit := 58
  const OPEN_ARRAY: Unit := 91
  const BACKSLASH: Unit := 92
  const CLOSE_ARRAY: Unit := 93
  const OPEN_OBJECT: Unit := 123
  const CLOSE_OBJECT: Unit := 125

  const NULL_TEXT: Text := [110, 117, 108, 108]
  const TRUE_TEXT: Text := [116, 114, 117, 101]
  const FALSE_TEXT: Text := [102, 97, 108, 115, 101]

  /**
   * What a caller can pass: JSON values, `undefined`, and the numbers JSON has no text for. A
   * finite number is the text JavaScript prints for it.
   */
  datatype Json =
    | Null
    | Undefined
    | NonFinite
    | Bool(truth: bool)
    | Number(digits: Text)
    | String(text: Text)
    | Array(items: seq<Json>)
    | Object(members: seq<Member>)

  datatype Member = Member(key: Text, value: Json)

  predicate NumberUnit(u: Unit) { 48 <= u <= 57 || u in {43, 45, 46, 69, 101} }

  /** A property name occurs once in an object, and a number's text is a number's. */
  predicate WellFormed(v: Json) {
    match v
    case Number(digits) =>
      digits != [] && (digits[0] == 45 || 48 <= digits[0] <= 57) && forall u | u in digits :: NumberUnit(u)
    case Array(items) => forall i | 0 <= i < |items| :: WellFormed(items[i])
    case Object(members) =>
      (forall i | 0 <= i < |members| :: WellFormed(members[i].value)) &&
      (forall i, j | 0 <= i < j < |members| :: members[i].key != members[j].key)
    case _ => true
  }

  // ----- strings -----

  predicate High(u: Unit) { 0xD800 <= u < 0xDC00 }

  predicate Low(u: Unit) { 0xDC00 <= u < 0xE000 }

  function Hex(n: nat): Unit
    requires n < 16
  {
    if n < 10 then 48 + n else 87 + n
  }

  /** `\uXXXX`. */
  function Escape(u: Unit): Text {
    [BACKSLASH, 117, Hex(u / 16 / 16 / 16), Hex(u / 16 / 16 % 16), Hex(u / 16 % 16), Hex(u % 16)]
  }

  /** One code unit that is not half of a pair. */
  function Escaped(u: Unit): Text {
    if u == QUOTE || u == BACKSLASH then [BACKSLASH, u]
    else if u == 8 then [BACKSLASH, 98]
    else if u == 9 then [BACKSLASH, 116]
    else if u == 10 then [BACKSLASH, 110]
    else if u == 12 then [BACKSLASH, 102]
    else if u == 13 then [BACKSLASH, 114]
    else if u < 32 || High(u) || Low(u) then Escape(u)
    else [u]
  }

  predicate Paired(s: Text) { |s| >= 2 && High(s[0]) && Low(s[1]) }

  /** The inside of `JSON.stringify` of a string: pairs as they are, lone surrogates escaped. */
  function Inside(s: Text): Text {
    if s == [] then []
    else if Paired(s) then s[..2] + Inside(s[2..])
    else Escaped(s[0]) + Inside(s[1..])
  }

  function Quoted(s: Text): Text { [QUOTE] + Inside(s) + [QUOTE] }

  lemma HexIsInjective(m: nat, n: nat)
    requires m < 16 && n < 16 && Hex(m) == Hex(n)
    ensures m == n
  {
  }

  lemma EscapeIsInjective(u: Unit, v: Unit)
    requires Escape(u) == Escape(v)
    ensures u == v
  {
    var a, b := Escape(u), Escape(v);
    assert a[2] == b[2] && a[3] == b[3] && a[4] == b[4] && a[5] == b[5];
    HexIsInjective(u / 16 / 16 / 16, v / 16 / 16 / 16);
    HexIsInjective(u / 16 / 16 % 16, v / 16 / 16 % 16);
    HexIsInjective(u / 16 % 16, v / 16 % 16);
    HexIsInjective(u % 16, v % 16);
  }

  /** No unit's escape begins another's. */
  lemma EscapesPartOnce(u: Unit, v: Unit, s: Text, t: Text)
    requires Escaped(u) + s == Escaped(v) + t
    ensures u == v && s == t
  {
    var a, b := Escaped(u), Escaped(v);
    assert (a + s)[0] == a[0] && (b + t)[0] == b[0];
    if |a| > 1 && |b| > 1 {
      assert (a + s)[1] == a[1] && (b + t)[1] == b[1];
      assert |a| == |b|;
      assert a == (a + s)[..|a|] && b == (b + t)[..|b|];
      if |a| == 6 { EscapeIsInjective(u, v); }
    }
    assert s == (a + s)[|a|..] && t == (b + t)[|b|..];
  }

  lemma PairUnfolds(a: Text, s: Text)
    requires Paired(a)
    ensures Inside(a) + [QUOTE] + s == a[..2] + (Inside(a[2..]) + [QUOTE] + s)
  {
  }

  lemma SamePairing(a: Text, b: Text, s: Text, t: Text)
    requires Inside(a) + [QUOTE] + s == Inside(b) + [QUOTE] + t && a != [] && b != []
    ensures Paired(a) <==> Paired(b)
  {
    var x, y := Inside(a) + [QUOTE] + s, Inside(b) + [QUOTE] + t;
    InsideStart(a);
    InsideStart(b);
    assert x[0] == Inside(a)[0] && y[0] == Inside(b)[0];
  }

  /** A pair stands where the other string has the same pair. */
  lemma PairsPartOnce(a: Text, b: Text, s: Text, t: Text)
    requires Inside(a) + [QUOTE] + s == Inside(b) + [QUOTE] + t && Paired(a) && Paired(b)
    ensures a[..2] == b[..2] && Inside(a[2..]) + [QUOTE] + s == Inside(b[2..]) + [QUOTE] + t
  {
    PairUnfolds(a, s);
    PairUnfolds(b, t);
    var x, y := Inside(a[2..]) + [QUOTE] + s, Inside(b[2..]) + [QUOTE] + t;
    assert a[..2] == (a[..2] + x)[..2] && b[..2] == (b[..2] + y)[..2];
    assert x == (a[..2] + x)[2..] && y == (b[..2] + y)[2..];
  }

  lemma EmptyEnds(b: Text, s: Text, t: Text)
    requires [QUOTE] + s == Inside(b) + [QUOTE] + t
    ensures b == [] && s == t
  {
    var x, y := [QUOTE] + s, Inside(b) + [QUOTE] + t;
    var inside := Inside(b);
    assert y[0] == if inside == [] then QUOTE else inside[0];
    InsideStart(b);
    assert y == [QUOTE] + t && s == x[1..] && t == y[1..];
  }

  lemma UnitUnfolds(a: Text, s: Text)
    requires a != [] && !Paired(a)
    ensures Inside(a) + [QUOTE] + s == Escaped(a[0]) + (Inside(a[1..]) + [QUOTE] + s)
  {
  }

  /** One unit that stands alone stands for the same unit in the other string. */
  lemma UnitsPartOnce(a: Text, b: Text, s: Text, t: Text)
    requires Inside(a) + [QUOTE] + s == Inside(b) + [QUOTE] + t && a != [] && b != [] && !Paired(a) && !Paired(b)
    ensures a[0] == b[0] && Inside(a[1..]) + [QUOTE] + s == Inside(b[1..]) + [QUOTE] + t
  {
    var r, q := Inside(a[1..]) + [QUOTE] + s, Inside(b[1..]) + [QUOTE] + t;
    UnitUnfolds(a, s);
    UnitUnfolds(b, t);
    EscapesPartOnce(a[0], b[0], r, q);
  }

  /** A quoted string ends itself: the text after it, and the string, can be told from the text alone. */
  lemma {:induction false} InsidesPartOnce(a: Text, b: Text, s: Text, t: Text)
    requires Inside(a) + [QUOTE] + s == Inside(b) + [QUOTE] + t
    ensures a == b && s == t
    decreases |a|
  {
    if a == [] {
      assert Inside(a) + [QUOTE] + s == [QUOTE] + s;
      EmptyEnds(b, s, t);
    } else if b == [] {
      assert Inside(b) + [QUOTE] + t == [QUOTE] + t;
      EmptyEnds(a, t, s);
    } else {
      SamePairing(a, b, s, t);
      if Paired(a) {
        PairsPartOnce(a, b, s, t);
        InsidesPartOnce(a[2..], b[2..], s, t);
        assert a == a[..2] + a[2..] && b == b[..2] + b[2..];
      } else {
        UnitsPartOnce(a, b, s, t);
        InsidesPartOnce(a[1..], b[1..], s, t);
        assert a == [a[0]] + a[1..] && b == [b[0]] + b[1..];
      }
    }
  }

  /** The inside of a string starts with a quote never, and with a surrogate for a pair only. */
  lemma InsideStart(a: Text)
    ensures a != [] ==> Inside(a) != [] && Inside(a)[0] != QUOTE && (High(Inside(a)[0]) <==> Paired(a))
  {
  }

  lemma QuotesPartOnce(a: Text, b: Text, s: Text, t: Text)
    requires Quoted(a) + s == Quoted(b) + t
    ensures a == b && s == t
  {
    var x, y := Quoted(a) + s, Quoted(b) + t;
    assert x[1..] == Inside(a) + [QUOTE] + s && y[1..] == Inside(b) + [QUOTE] + t;
    InsidesPartOnce(a, b, s, t);
  }

  // ----- key order -----

  /** JavaScript's `<` on strings: by code unit, a prefix first. */
  predicate Less(a: Text, b: Text) {
    b != [] && (a == [] || a[0] < b[0] || (a[0] == b[0] && Less(a[1..], b[1..])))
  }

  lemma {:induction false} LessIsTotal(a: Text, b: Text)
    ensures a == b || Less(a, b) || Less(b, a)
    ensures !(Less(a, b) && Less(b, a)) && !(a == b && Less(a, b))
    decreases |a|
  {
    if a != [] && b != [] && a[0] == b[0] {
      LessIsTotal(a[1..], b[1..]);
      assert a == [a[0]] + a[1..] && b == [b[0]] + b[1..];
    }
  }

  lemma {:induction false} LessIsTransitive(a: Text, b: Text, c: Text)
    requires Less(a, b) && Less(b, c)
    ensures Less(a, c)
    decreases |a|
  {
    if a != [] && a[0] == b[0] && b[0] == c[0] { LessIsTransitive(a[1..], b[1..], c[1..]); }
  }

  // ----- the text -----

  /** A member as it is printed. */
  datatype Entry = Entry(key: Text, value: Text)

  /** `.filter(([, member]) => member !== undefined)`. */
  function Entries(members: seq<Member>, texts: seq<Text>): (es: seq<Entry>)
    requires |texts| == |members|
    ensures forall e :: e in es <==> exists i :: 0 <= i < |members| && !members[i].value.Undefined? && e == Entry(members[i].key, texts[i])
  {
    if members == [] then []
    else
      var n := |members| - 1;
      Entries(members[..n], texts[..n]) + if members[n].value.Undefined? then [] else [Entry(members[n].key, texts[n])]
  }

  function Insert(e: Entry, sorted: seq<Entry>): (r: seq<Entry>)
    ensures forall x :: x in r <==> x == e || x in sorted
  {
    if sorted == [] then [e]
    else
      assert sorted == [sorted[0]] + sorted[1..];
      if Less(e.key, sorted[0].key) then [e] + sorted else [sorted[0]] + Insert(e, sorted[1..])
  }

  /** `.sort(…)` by key. */
  function SortByKey(es: seq<Entry>): (r: seq<Entry>)
    ensures forall x :: x in r <==> x in es
  {
    if es == [] then []
    else
      assert es == [es[0]] + es[1..];
      Insert(es[0], SortByKey(es[1..]))
  }

  function JoinTexts(texts: seq<Text>): Text {
    if texts == [] then [] else if |texts| == 1 then texts[0] else texts[0] + [COMMA] + JoinTexts(texts[1..])
  }

  function EntryText(e: Entry): Text { Quoted(e.key) + [COLON] + e.value }

  function EntryTexts(es: seq<Entry>): (ts: seq<Text>)
    ensures |ts| == |es| && forall i | 0 <= i < |es| :: ts[i] == EntryText(es[i])
  {
    seq(|es|, i requires 0 <= i < |es| => EntryText(es[i]))
  }

  /** `canonicalJson`. */
  function Canonical(v: Json): Text {
    match v
    case Null => NULL_TEXT
    case Undefined => NULL_TEXT
    case NonFinite => NULL_TEXT
    case Bool(truth) => if truth then TRUE_TEXT else FALSE_TEXT
    case Number(digits) => digits
    case String(text) => Quoted(text)
    case Array(items) =>
      [OPEN_ARRAY] + JoinTexts(seq(|items|, i requires 0 <= i < |items| => Canonical(items[i]))) + [CLOSE_ARRAY]
    case Object(members) =>
      var texts := seq(|members|, i requires 0 <= i < |members| => Canonical(members[i].value));
      [OPEN_OBJECT] + JoinTexts(EntryTexts(SortByKey(Entries(members, texts)))) + [CLOSE_OBJECT]
  }

  // ----- equal values -----

  predicate Nullish(v: Json) { v.Null? || v.Undefined? || v.NonFinite? }

  /** The member a key names, unless it is undefined. */
  predicate Names(o: Json, key: Text, i: nat)
    requires o.Object?
  {
    i < |o.members| && o.members[i].key == key && !o.members[i].value.Undefined?
  }

  /** Equal as JSON: what prints as null is null, and the members of an object have no order. */
  ghost predicate Alike(v: Json, w: Json)
    decreases v
  {
    match v
    case Bool(truth) => w == v
    case Number(digits) => w == v
    case String(text) => w == v
    case Array(items) =>
      w.Array? && |w.items| == |items| && forall i | 0 <= i < |items| :: Alike(items[i], w.items[i])
    case Object(members) =>
      w.Object? &&
      (forall i {:trigger members[i]} | 0 <= i < |members| && !members[i].value.Undefined? ::
         exists j: nat {:trigger Names(w, members[i].key, j)} :: Names(w, members[i].key, j) && Alike(members[i].value, w.members[j].value)) &&
      (forall j {:trigger w.members[j]} | 0 <= j < |w.members| && !w.members[j].value.Undefined? ::
         exists i: nat {:trigger Names(v, w.members[j].key, i)} :: Names(v, w.members[j].key, i))
    case _ => Nullish(w)
  }

  // ----- the text tells the value -----

  /** What can follow a value inside a canonical text. */
  predicate Ends(s: Text) { s == [] || s[0] in {COMMA, CLOSE_ARRAY, CLOSE_OBJECT} }

  datatype Kind = NullKind | TrueKind | FalseKind | NumberKind | StringKind | ArrayKind | ObjectKind

  function KindOf(v: Json): Kind {
    match v
    case Bool(truth) => if truth then TrueKind else FalseKind
    case Number(_) => NumberKind
    case String(_) => StringKind
    case Array(_) => ArrayKind
    case Object(_) => ObjectKind
    case _ => NullKind
  }

  function FirstUnit(kind: Kind): Unit {
    match kind
    case NullKind => 110
    case TrueKind => 116
    case FalseKind => 102
    case NumberKind => 48
    case StringKind => QUOTE
    case ArrayKind => OPEN_ARRAY
    case ObjectKind => OPEN_OBJECT
  }

  /** A value's first unit tells its kind, and cannot follow a value. */
  lemma StartsItsKind(v: Json)
    requires WellFormed(v)
    ensures var first := Canonical(v);
            first != [] && first[0] !in {COMMA, CLOSE_ARRAY, CLOSE_OBJECT} &&
            if v.Number? then first[0] == 45 || 48 <= first[0] <= 57 else first[0] == FirstUnit(KindOf(v))
  {
  }

  lemma SameKind(v: Json, w: Json, s: Text, t: Text)
    requires WellFormed(v) && WellFormed(w) && Canonical(v) + s == Canonical(w) + t
    ensures KindOf(v) == KindOf(w)
  {
    StartsItsKind(v);
    StartsItsKind(w);
    assert (Canonical(v) + s)[0] == Canonical(v)[0] && (Canonical(w) + t)[0] == Canonical(w)[0];
  }

  lemma LongerDigits(a: Text, b: Text, s: Text, t: Text)
    requires (forall u | u in b :: NumberUnit(u)) && Ends(s) && |a| < |b|
    ensures a + s != b + t
  {
    assert b[|a|] in b && (b + t)[|a|] == b[|a|];
    if s != [] { assert (a + s)[|a|] == s[0]; }
  }

  /** Digits run up to what ends them. */
  lemma NumbersPartOnce(a: Text, b: Text, s: Text, t: Text)
    requires (forall u | u in a :: NumberUnit(u)) && (forall u | u in b :: NumberUnit(u))
    requires Ends(s) && Ends(t) && a + s == b + t
    ensures a == b && s == t
  {
    if |a| < |b| { LongerDigits(a, b, s, t); }
    if |b| < |a| { LongerDigits(b, a, t, s); }
    assert a == (a + s)[..|a|] && b == (b + t)[..|b|] && s == (a + s)[|a|..] && t == (b + t)[|b|..];
  }

  function ItemTexts(items: seq<Json>): seq<Text> {
    seq(|items|, i requires 0 <= i < |items| => Canonical(items[i]))
  }

  function ValueTexts(members: seq<Member>): seq<Text> {
    seq(|members|, i requires 0 <= i < |members| => Canonical(members[i].value))
  }

  /** An object's members as they are printed. */
  function Printed(v: Json): seq<Entry>
    requires v.Object?
  {
    SortByKey(Entries(v.members, ValueTexts(v.members)))
  }

  lemma CanonicalUnfolds(v: Json)
    ensures v.Array? ==> Canonical(v) == [OPEN_ARRAY] + JoinTexts(ItemTexts(v.items)) + [CLOSE_ARRAY]
    ensures v.Object? ==> Canonical(v) == [OPEN_OBJECT] + JoinTexts(EntryTexts(Printed(v))) + [CLOSE_OBJECT]
  {
    if v.Array? {
      assert ItemTexts(v.items) == seq(|v.items|, i requires 0 <= i < |v.items| => Canonical(v.items[i]));
    }
    if v.Object? {
      assert ValueTexts(v.members) == seq(|v.members|, i requires 0 <= i < |v.members| => Canonical(v.members[i].value));
    }
  }

  /** Every printed entry is a defined member's, and the other way round. */
  ghost function MemberAt(v: Json, k: nat): (i: nat)
    requires v.Object? && k < |Printed(v)|
    ensures Names(v, Printed(v)[k].key, i) && Printed(v)[k].value == Canonical(v.members[i].value)
  {
    assert Printed(v)[k] in Entries(v.members, ValueTexts(v.members));
    var i :| 0 <= i < |v.members| && !v.members[i].value.Undefined? &&
             Printed(v)[k] == Entry(v.members[i].key, ValueTexts(v.members)[i]);
    i
  }

  lemma MemberIsPrinted(v: Json, i: nat) returns (k: nat)
    requires v.Object? && i < |v.members| && !v.members[i].value.Undefined?
    ensures k < |Printed(v)| && Printed(v)[k] == Entry(v.members[i].key, Canonical(v.members[i].value))
  {
    var e := Entry(v.members[i].key, ValueTexts(v.members)[i]);
    assert e in Entries(v.members, ValueTexts(v.members));
    assert e in Printed(v);
    k :| 0 <= k < |Printed(v)| && Printed(v)[k] == e;
  }

  /** The rest of a list from one place on, with its closing bracket. */
  function Tail(texts: seq<Text>, k: nat, close: Unit, s: Text): Text
    requires k <= |texts|
    decreases |texts| - k
  {
    if k == |texts| then [close] + s else [COMMA] + texts[k] + Tail(texts, k + 1, close, s)
  }

  lemma {:induction false} JoinIsTail(texts: seq<Text>, close: Unit, s: Text)
    requires texts != []
    ensures JoinTexts(texts) + [close] + s == texts[0] + Tail(texts, 1, close, s)
    decreases |texts|
  {
    if |texts| > 1 {
      var rest := texts[1..];
      JoinIsTail(rest, close, s);
      TailShifts(texts, 1, close, s);
      assert JoinTexts(texts) + [close] + s == texts[0] + [COMMA] + (JoinTexts(rest) + [close] + s);
    }
  }

  lemma {:induction false} TailShifts(texts: seq<Text>, k: nat, close: Unit, s: Text)
    requires 1 <= k <= |texts|
    ensures Tail(texts, k, close, s) == Tail(texts[1..], k - 1, close, s)
    decreases |texts| - k
  {
    if k < |texts| { TailShifts(texts, k + 1, close, s); }
  }

  /** A list with at least one text in it, and what follows its brackets. */
  lemma ListOpens(open: Unit, texts: seq<Text>, close: Unit, s: Text)
    ensures var whole := [open] + JoinTexts(texts) + [close] + s;
            whole[1..] == if texts == [] then [close] + s else texts[0] + Tail(texts, 1, close, s)
  {
    var whole := [open] + JoinTexts(texts) + [close] + s;
    assert whole[1..] == JoinTexts(texts) + [close] + s;
    if texts != [] { JoinIsTail(texts, close, s); }
  }

  lemma TailEnds(texts: seq<Text>, k: nat, close: Unit, s: Text)
    requires k <= |texts| && close in {CLOSE_ARRAY, CLOSE_OBJECT}
    ensures Ends(Tail(texts, k, close, s)) && Tail(texts, k, close, s)[0] == if k == |texts| then close else COMMA
    ensures k < |texts| ==> Tail(texts, k, close, s)[1..] == texts[k] + Tail(texts, k + 1, close, s)
    ensures k == |texts| ==> Tail(texts, k, close, s)[1..] == s
  {
  }

  /** One text, followed by anything a value can be followed by, is one value's. */
  lemma {:induction false} TellsApart(v: Json, w: Json, s: Text, t: Text)
    requires WellFormed(v) && WellFormed(w) && Ends(s) && Ends(t)
    requires Canonical(v) + s == Canonical(w) + t
    ensures Alike(v, w) && s == t
    decreases v, 2
  {
    SameKind(v, w, s, t);
    CanonicalUnfolds(v);
    CanonicalUnfolds(w);
    match v
    case Number(digits) => NumbersPartOnce(digits, w.digits, s, t);
    case String(text) => QuotesPartOnce(text, w.text, s, t);
    case Array(_) => ArraysTellApart(v, w, s, t);
    case Object(_) => ObjectsTellApart(v, w, s, t);
    case _ =>
      assert Canonical(v) == Canonical(w);
      assert s == (Canonical(v) + s)[|Canonical(v)|..];
  }

  lemma {:induction false} ArraysTellApart(v: Json, w: Json, s: Text, t: Text)
    requires v.Array? && w.Array? && WellFormed(v) && WellFormed(w)
    requires [OPEN_ARRAY] + JoinTexts(ItemTexts(v.items)) + [CLOSE_ARRAY] + s ==
             [OPEN_ARRAY] + JoinTexts(ItemTexts(w.items)) + [CLOSE_ARRAY] + t
    ensures Alike(v, w) && s == t
    decreases v, 1
  {
    var xs, ys := ItemTexts(v.items), ItemTexts(w.items);
    ListOpens(OPEN_ARRAY, xs, CLOSE_ARRAY, s);
    ListOpens(OPEN_ARRAY, ys, CLOSE_ARRAY, t);
    ItemsTellApart(v, w, 0, s, t);
  }

  /** The items from one place on, after the comma or bracket before them. */
  function From(texts: seq<Text>, k: nat, close: Unit, s: Text): Text
    requires k <= |texts|
  {
    if k == |texts| then [close] + s else texts[k] + Tail(texts, k + 1, close, s)
  }

  /** Where the texts after a value agree, both lists end or both go on. */
  lemma TailsAgree(xs: seq<Text>, ys: seq<Text>, k: nat, close: Unit, s: Text, t: Text)
    requires k <= |xs| && k <= |ys| && close in {CLOSE_ARRAY, CLOSE_OBJECT}
    requires Tail(xs, k, close, s) == Tail(ys, k, close, t)
    ensures (k == |xs| <==> k == |ys|) && From(xs, k, close, s) == From(ys, k, close, t)
  {
    TailEnds(xs, k, close, s);
    TailEnds(ys, k, close, t);
    var x, y := Tail(xs, k, close, s), Tail(ys, k, close, t);
    assert x[1..] == y[1..];
  }

  lemma {:induction false} ItemsTellApart(v: Json, w: Json, k: nat, s: Text, t: Text)
    requires v.Array? && w.Array? && WellFormed(v) && WellFormed(w) && k <= |v.items| && k <= |w.items|
    requires From(ItemTexts(v.items), k, CLOSE_ARRAY, s) == From(ItemTexts(w.items), k, CLOSE_ARRAY, t)
    requires k > 0 ==> (k == |v.items| <==> k == |w.items|)
    ensures |v.items| == |w.items| && s == t && forall i | k <= i < |v.items| :: Alike(v.items[i], w.items[i])
    decreases v, 0, |v.items| - k
  {
    var xs, ys := ItemTexts(v.items), ItemTexts(w.items);
    if k < |v.items| { StartsItsKind(v.items[k]); }
    if k < |w.items| { StartsItsKind(w.items[k]); }
    if k == |v.items| || k == |w.items| {
      var x, y := From(xs, k, CLOSE_ARRAY, s), From(ys, k, CLOSE_ARRAY, t);
      assert x[0] == y[0];
      assert x[1..] == y[1..];
    } else {
      var rest, others := Tail(xs, k + 1, CLOSE_ARRAY, s), Tail(ys, k + 1, CLOSE_ARRAY, t);
      TailEnds(xs, k + 1, CLOSE_ARRAY, s);
      TailEnds(ys, k + 1, CLOSE_ARRAY, t);
      TellsApart(v.items[k], w.items[k], rest, others);
      TailsAgree(xs, ys, k + 1, CLOSE_ARRAY, s, t);
      ItemsTellApart(v, w, k + 1, s, t);
    }
  }

  lemma {:induction false} ObjectsTellApart(v: Json, w: Json, s: Text, t: Text)
    requires v.Object? && w.Object? && WellFormed(v) && WellFormed(w)
    requires [OPEN_OBJECT] + JoinTexts(EntryTexts(Printed(v))) + [CLOSE_OBJECT] + s ==
             [OPEN_OBJECT] + JoinTexts(EntryTexts(Printed(w))) + [CLOSE_OBJECT] + t
    ensures Alike(v, w) && s == t
    decreases v, 1
  {
    var es, fs := EntryTexts(Printed(v)), EntryTexts(Printed(w));
    ListOpens(OPEN_OBJECT, es, CLOSE_OBJECT, s);
    ListOpens(OPEN_OBJECT, fs, CLOSE_OBJECT, t);
    EntriesTellApart(v, w, 0, s, t);
    MatchedIsAlike(v, w);
  }

  /** Two printed entries stand for alike members. */
  ghost predicate Matched(v: Json, w: Json, k: nat)
    requires v.Object? && w.Object? && k < |Printed(v)| && k < |Printed(w)|
  {
    Printed(v)[k].key == Printed(w)[k].key &&
    Alike(v.members[MemberAt(v, k)].value, w.members[MemberAt(w, k)].value)
  }

  lemma FromStarts(es: seq<Entry>, k: nat, s: Text)
    requires k <= |es|
    ensures var x := From(EntryTexts(es), k, CLOSE_OBJECT, s);
            x != [] && x[0] == (if k < |es| then QUOTE else CLOSE_OBJECT) && (k == |es| ==> x[1..] == s)
  {
    if k < |es| { assert EntryText(es[k])[0] == QUOTE; }
  }

  lemma EntriesEnd(es: seq<Entry>, fs: seq<Entry>, k: nat, s: Text, t: Text)
    requires k <= |es| && k <= |fs| && (k == |es| || k == |fs|)
    requires From(EntryTexts(es), k, CLOSE_OBJECT, s) == From(EntryTexts(fs), k, CLOSE_OBJECT, t)
    ensures k == |es| == |fs| && s == t
  {
    var x, y := From(EntryTexts(es), k, CLOSE_OBJECT, s), From(EntryTexts(fs), k, CLOSE_OBJECT, t);
    FromStarts(es, k, s);
    FromStarts(fs, k, t);
    assert x[0] == y[0] && x[1..] == y[1..];
  }

  /** The entries at one place start the same text, and what follows each can follow a value. */
  lemma EntriesOpen(es: seq<Entry>, fs: seq<Entry>, k: nat, s: Text, t: Text)
    requires k < |es| && k < |fs| && From(EntryTexts(es), k, CLOSE_OBJECT, s) == From(EntryTexts(fs), k, CLOSE_OBJECT, t)
    ensures var rest, others := Tail(EntryTexts(es), k + 1, CLOSE_OBJECT, s), Tail(EntryTexts(fs), k + 1, CLOSE_OBJECT, t);
            EntryText(es[k]) + rest == EntryText(fs[k]) + others && Ends(rest) && Ends(others)
  {
    TailEnds(EntryTexts(es), k + 1, CLOSE_OBJECT, s);
    TailEnds(EntryTexts(fs), k + 1, CLOSE_OBJECT, t);
  }

  /** From one place on, the printed entries stand for alike members. */
  ghost predicate MatchedFrom(v: Json, w: Json, k: nat)
    requires v.Object? && w.Object? && k <= |Printed(v)| == |Printed(w)|
    decreases |Printed(v)| - k
  {
    k == |Printed(v)| || (Matched(v, w, k) && MatchedFrom(v, w, k + 1))
  }

  lemma {:induction false} MatchedAt(v: Json, w: Json, k: nat, i: nat)
    requires v.Object? && w.Object? && k <= i < |Printed(v)| == |Printed(w)| && MatchedFrom(v, w, k)
    ensures Matched(v, w, i)
    decreases i - k
  {
    if k < i { MatchedAt(v, w, k + 1, i); }
  }

  lemma {:induction false} EntriesTellApart(v: Json, w: Json, k: nat, s: Text, t: Text)
    requires v.Object? && w.Object? && WellFormed(v) && WellFormed(w) && k <= |Printed(v)| && k <= |Printed(w)|
    requires From(EntryTexts(Printed(v)), k, CLOSE_OBJECT, s) == From(EntryTexts(Printed(w)), k, CLOSE_OBJECT, t)
    requires k > 0 ==> (k == |Printed(v)| <==> k == |Printed(w)|)
    ensures |Printed(v)| == |Printed(w)| && s == t && MatchedFrom(v, w, k)
    decreases v, 0, |Printed(v)| - k
  {
    var es, fs := Printed(v), Printed(w);
    if k == |es| || k == |fs| {
      EntriesEnd(es, fs, k, s, t);
    } else {
      EntriesOpen(es, fs, k, s, t);
      EntryTellsApart(v, w, k, Tail(EntryTexts(es), k + 1, CLOSE_OBJECT, s), Tail(EntryTexts(fs), k + 1, CLOSE_OBJECT, t));
      TailsAgree(EntryTexts(es), EntryTexts(fs), k + 1, CLOSE_OBJECT, s, t);
      EntriesTellApart(v, w, k + 1, s, t);
    }
  }

  lemma KeysPartOnce(e: Entry, f: Entry, rest: Text, others: Text)
    requires EntryText(e) + rest == EntryText(f) + others
    ensures e.key == f.key && e.value + rest == f.value + others
  {
    var a, b := [COLON] + e.value + rest, [COLON] + f.value + others;
    assert EntryText(e) + rest == Quoted(e.key) + a && EntryText(f) + others == Quoted(f.key) + b;
    QuotesPartOnce(e.key, f.key, a, b);
    assert e.value + rest == a[1..] && f.value + others == b[1..];
  }

  lemma NamedOnce(v: Json, key: Text, i: nat, j: nat)
    requires v.Object? && WellFormed(v) && Names(v, key, i) && Names(v, key, j)
    ensures i == j
  {
  }

  lemma {:induction false} EntryTellsApart(v: Json, w: Json, k: nat, rest: Text, others: Text)
    requires v.Object? && w.Object? && WellFormed(v) && WellFormed(w) && k < |Printed(v)| && k < |Printed(w)|
    requires Ends(rest) && Ends(others)
    requires EntryText(Printed(v)[k]) + rest == EntryText(Printed(w)[k]) + others
    ensures Matched(v, w, k) && rest == others
    decreases v, 0, 0
  {
    KeysPartOnce(Printed(v)[k], Printed(w)[k], rest, others);
    TellsApart(v.members[MemberAt(v, k)].value, w.members[MemberAt(w, k)].value, rest, others);
  }

  lemma MatchedIsAlike(v: Json, w: Json)
    requires v.Object? && w.Object? && WellFormed(v) && |Printed(v)| == |Printed(w)| && MatchedFrom(v, w, 0)
    ensures Alike(v, w)
  {
    forall i | 0 <= i < |v.members| && !v.members[i].value.Undefined?
      ensures exists j: nat {:trigger Names(w, v.members[i].key, j)} ::
                Names(w, v.members[i].key, j) && Alike(v.members[i].value, w.members[j].value)
    {
      var k := MemberIsPrinted(v, i);
      MatchedAt(v, w, 0, k);
      NamedOnce(v, v.members[i].key, i, MemberAt(v, k));
      assert Names(w, v.members[i].key, MemberAt(w, k));
    }
    forall j | 0 <= j < |w.members| && !w.members[j].value.Undefined?
      ensures exists i: nat {:trigger Names(v, w.members[j].key, i)} :: Names(v, w.members[j].key, i)
    {
      var k := MemberIsPrinted(w, j);
      MatchedAt(v, w, 0, k);
      assert Names(v, w.members[j].key, MemberAt(v, k));
    }
  }

  // ----- alike values print alike -----

  predicate Ascending(es: seq<Entry>) { forall i, j | 0 <= i < j < |es| :: Less(es[i].key, es[j].key) }

  predicate KeysDiffer(es: seq<Entry>) { forall i, j | 0 <= i < j < |es| :: es[i].key != es[j].key }

  lemma {:induction false} InsertAscends(e: Entry, sorted: seq<Entry>)
    requires Ascending(sorted) && forall x | x in sorted :: x.key != e.key
    ensures Ascending(Insert(e, sorted))
    decreases |sorted|
  {
    if sorted != [] {
      var r, tail := Insert(e, sorted), sorted[1..];
      assert sorted == [sorted[0]] + tail;
      if Less(e.key, sorted[0].key) {
        forall j | 0 < j < |r| ensures Less(r[0].key, r[j].key) {
          if j > 1 { LessIsTransitive(e.key, sorted[0].key, sorted[j - 1].key); }
        }
      } else {
        LessIsTotal(e.key, sorted[0].key);
        assert sorted[0] in sorted;
        InsertAscends(e, tail);
        forall j | 0 < j < |r| ensures Less(r[0].key, r[j].key) {
          assert r[j] == Insert(e, tail)[j - 1] && r[j] in Insert(e, tail);
        }
      }
    }
  }

  lemma {:induction false} SortAscends(es: seq<Entry>)
    requires KeysDiffer(es)
    ensures Ascending(SortByKey(es))
    decreases |es|
  {
    if es != [] {
      var rest := es[1..];
      forall i, j | 0 <= i < j < |rest| ensures rest[i].key != rest[j].key { assert rest[i] == es[i + 1] && rest[j] == es[j + 1]; }
      SortAscends(rest);
      forall x | x in SortByKey(rest) ensures x.key != es[0].key {
        var j :| 0 <= j < |rest| && rest[j] == x;
        assert x == es[j + 1];
      }
      InsertAscends(es[0], SortByKey(rest));
    }
  }

  lemma FirstIsLeast(a: seq<Entry>, e: Entry)
    requires Ascending(a) && e in a
    ensures e == a[0] || Less(a[0].key, e.key)
  {
  }

  lemma SameEmptiness(a: seq<Entry>, b: seq<Entry>)
    requires forall e :: e in a <==> e in b
    ensures |a| == 0 <==> |b| == 0
  {
    if |a| > 0 { assert a[0] in a && a[0] in b; }
    if |b| > 0 { assert b[0] in b && b[0] in a; }
  }

  /** There is one ascending way to list entries. */
  lemma {:induction false} AscendingIsUnique(a: seq<Entry>, b: seq<Entry>)
    requires Ascending(a) && Ascending(b) && forall e :: e in a <==> e in b
    ensures a == b
    decreases |a|
  {
    SameEmptiness(a, b);
    if a != [] {
      assert a[0] in b && b[0] in a;
      FirstIsLeast(a, b[0]);
      FirstIsLeast(b, a[0]);
      LessIsTotal(a[0].key, b[0].key);
      var x, y := a[1..], b[1..];
      assert a == [a[0]] + x && b == [b[0]] + y && a[0] == b[0];
      forall e ensures e in x <==> e in y {
        if e in x { NotAgain(a, e); }
        if e in y { NotAgain(b, e); }
        assert (e in a <==> e == a[0] || e in x) && (e in b <==> e == b[0] || e in y);
      }
      AscendingIsUnique(x, y);
    }
  }

  lemma NotAgain(a: seq<Entry>, e: Entry)
    requires Ascending(a) && a != [] && e in a[1..]
    ensures e != a[0]
  {
    LessIsTotal(a[0].key, e.key);
  }

  lemma {:induction false} EntriesDiffer(members: seq<Member>, texts: seq<Text>)
    requires |texts| == |members| && forall i, j | 0 <= i < j < |members| :: members[i].key != members[j].key
    ensures KeysDiffer(Entries(members, texts))
    decreases |members|
  {
    if members != [] {
      var n := |members| - 1;
      EntriesDiffer(members[..n], texts[..n]);
      forall e | e in Entries(members[..n], texts[..n]) ensures e.key != members[n].key {}
    }
  }

  lemma {:induction false} AlikePrintsAlike(v: Json, w: Json)
    requires WellFormed(v) && WellFormed(w) && Alike(v, w)
    ensures Canonical(v) == Canonical(w)
    decreases v, 1
  {
    CanonicalUnfolds(v);
    CanonicalUnfolds(w);
    match v
    case Array(items) =>
      forall i | 0 <= i < |items| ensures ItemTexts(items)[i] == ItemTexts(w.items)[i] {
        AlikePrintsAlike(items[i], w.items[i]);
      }
      assert ItemTexts(items) == ItemTexts(w.items);
    case Object(members) =>
      EntriesDiffer(members, ValueTexts(members));
      EntriesDiffer(w.members, ValueTexts(w.members));
      SortAscends(Entries(members, ValueTexts(members)));
      SortAscends(Entries(w.members, ValueTexts(w.members)));
      forall e ensures e in Printed(v) <==> e in Printed(w) { SameEntries(v, w, e); }
      AscendingIsUnique(Printed(v), Printed(w));
    case _ =>
  }

  lemma {:induction false} SameEntries(v: Json, w: Json, e: Entry)
    requires v.Object? && w.Object? && WellFormed(v) && WellFormed(w) && Alike(v, w)
    ensures e in Printed(v) <==> e in Printed(w)
    decreases v, 0, 2
  {
    if e in Printed(v) {
      var k :| 0 <= k < |Printed(v)| && Printed(v)[k] == e;
      var n := AlikeEntry(v, w, MemberAt(v, k));
    }
    if e in Printed(w) {
      var k :| 0 <= k < |Printed(w)| && Printed(w)[k] == e;
      var j := MemberAt(w, k);
      var i: nat :| Names(v, w.members[j].key, i);
      var n := AlikeEntry(v, w, i);
      NamedOnce(w, e.key, MemberAt(w, n), j);
      PrintedAt(v, i);
    }
  }

  /** A member's entry is printed by an alike object too. */
  lemma {:induction false} AlikeEntry(v: Json, w: Json, i: nat) returns (n: nat)
    requires v.Object? && w.Object? && WellFormed(v) && WellFormed(w) && Alike(v, w)
    requires i < |v.members| && !v.members[i].value.Undefined?
    ensures n < |Printed(w)| && Printed(w)[n] == Entry(v.members[i].key, Canonical(v.members[i].value))
    decreases v, 0, 1
  {
    var j: nat :| Names(w, v.members[i].key, j) && Alike(v.members[i].value, w.members[j].value);
    AlikePrintsAlike(v.members[i].value, w.members[j].value);
    n := MemberIsPrinted(w, j);
  }

  lemma PrintedAt(v: Json, i: nat)
    requires v.Object? && i < |v.members| && !v.members[i].value.Undefined?
    ensures Entry(v.members[i].key, Canonical(v.members[i].value)) in Printed(v)
  {
    var k := MemberIsPrinted(v, i);
  }

  /** Two inputs print the same text exactly when they are the same JSON, objects unordered. */
  lemma TextTellsTheValue(v: Json, w: Json)
    requires WellFormed(v) && WellFormed(w)
    ensures Canonical(v) == Canonical(w) <==> Alike(v, w)
  {
    if Canonical(v) == Canonical(w) {
      assert Canonical(v) + [] == Canonical(w) + [];
      TellsApart(v, w, [], []);
    }
    if Alike(v, w) { AlikePrintsAlike(v, w); }
  }

  // ----- the ledger's collision check -----

  /** SHA-256, taken not to collide. */
  ghost predicate CollisionFree(hash: Text -> string) {
    forall x, y :: hash(x) == hash(y) ==> x == y
  }

  /** A gate that gets as far as the row refuses it exactly when its key is reused with another input. */
  lemma CollisionFiresExactly(db: Db, a: Attempt, key: string, estimate: nat, period: string,
                              hash: Text -> string, stored: Json, given: Json)
    requires CollisionFree(hash) && WellFormed(stored) && WellFormed(given)
    requires Tables.Fenced(db, a) && !db.paused && period in WithPeriod(db, period)
    requires Slot(a.run, key) in db.calls && db.calls[Slot(a.run, key)].inputHash == hash(Canonical(stored))
    ensures GateAnswer(db, a, CallRequest(key, hash(Canonical(given)), estimate), period) == KeyCollision <==>
            !Alike(stored, given)
  {
    TextTellsTheValue(stored, given);
  }
}
