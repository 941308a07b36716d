// A reader of JSON texts, written from the grammar of RFC 8259 and not from the printer, and what it
// makes of a canonical text: the value that was printed, without what has no text, its members in the
// order JavaScript sorts their keys.
module JsonReading {
  import opened Wrappers
  import opened CanonicalJson

  // ----- strings (RFC 8259, section 7) -----

  function HexValue(u: Unit): Option<nat> {
    if 48 <= u <= 57 then Some(u - 48)
    else if 65 <= u <= 70 then Some(u - 55)
    else if 97 <= u <= 102 then Some(u - 87)
    else None
  }

  function Quad(a: Unit, b: Unit, c: Unit, d: Unit): (r: Option<Unit>)
  {
    if HexValue(a).None? || HexValue(b).None? || HexValue(c).None? || HexValue(d).None? then None
    else
      assert HexValue(a).value < 16 && HexValue(b).value < 16 && HexValue(c).value < 16 && HexValue(d).value < 16;
      Some(4096 * HexValue(a).value + 256 * HexValue(b).value + 16 * HexValue(c).value + HexValue(d).value)
  }

  /** The two-character escapes. */
  function Short(u: Unit): Option<Unit> {
    if u == 34 || u == 92 || u == 47 then Some(u)
    else if u == 98 then Some(8)
    else if u == 102 then Some(12)
    else if u == 110 then Some(10)
    else if u == 114 then Some(13)
    else if u == 116 then Some(9)
    else None
  }

  function Before(u: Unit, read: Option<(Text, Text)>): Option<(Text, Text)> {
    if read.None? then None else Some(([u] + read.value.0, read.value.1))
  }

  /** From inside a string: the string, and what follows its closing quote. */
  function ReadString(t: Text): (r: Option<(Text, Text)>)
    ensures r.Some? ==> |r.value.1| < |t|
    decreases |t|
  {
    if t == [] then None
    else if t[0] == 34 then Some(([], t[1..]))
    else if t[0] == 92 then
      if |t| < 2 then None
      else if t[1] == 117 then
        if |t| < 6 || Quad(t[2], t[3], t[4], t[5]).None? then None
        else Before(Quad(t[2], t[3], t[4], t[5]).value, ReadString(t[6..]))
      else if Short(t[1]).None? then None
      else Before(Short(t[1]).value, ReadString(t[2..]))
    else if t[0] < 32 then None
    else Before(t[0], ReadString(t[1..]))
  }

  // ----- values -----

  /** How far a number's characters run. */
  function NumberEnd(t: Text): (n: nat)
    ensures n <= |t|
    decreases |t|
  {
    if t != [] && (48 <= t[0] <= 57 || t[0] == 43 || t[0] == 45 || t[0] == 46 || t[0] == 69 || t[0] == 101)
    then 1 + NumberEnd(t[1..]) else 0
  }

  function ReadValue(t: Text): (r: Option<(Json, Text)>)
    ensures r.Some? ==> |r.value.1| < |t|
    decreases |t|, 1
  {
    if t == [] then None
    else if t[0] == 34 then
      var read := ReadString(t[1..]);
      if read.None? then None else Some((String(read.value.0), read.value.1))
    else if t[0] == 91 then
      if |t| > 1 && t[1] == 93 then Some((Array([]), t[2..]))
      else
        var read := ReadItems(t[1..]);
        if read.None? then None else Some((Array(read.value.0), read.value.1))
    else if t[0] == 123 then
      if |t| > 1 && t[1] == 125 then Some((Object([]), t[2..]))
      else
        var read := ReadMembers(t[1..]);
        if read.None? then None else Some((Object(read.value.0), read.value.1))
    else if t[0] == 45 || 48 <= t[0] <= 57 then
      assert NumberEnd(t) > 0;
      Some((Number(t[..NumberEnd(t)]), t[NumberEnd(t)..]))
    else if |t| >= 4 && t[..4] == [110, 117, 108, 108] then Some((Null, t[4..]))
    else if |t| >= 4 && t[..4] == [116, 114, 117, 101] then Some((Bool(true), t[4..]))
    else if |t| >= 5 && t[..5] == [102, 97, 108, 115, 101] then Some((Bool(false), t[5..]))
    else None
  }

  function ReadItems(t: Text): (r: Option<(seq<Json>, Text)>)
    ensures r.Some? ==> |r.value.1| < |t|
    decreases |t|, 2
  {
    var first := ReadValue(t);
    if first.None? || first.value.1 == [] then None
    else if first.value.1[0] == 93 then Some(([first.value.0], first.value.1[1..]))
    else if first.value.1[0] != 44 then None
    else
      var rest := ReadItems(first.value.1[1..]);
      if rest.None? then None else Some(([first.value.0] + rest.value.0, rest.value.1))
  }

  function ReadMembers(t: Text): (r: Option<(seq<Member>, Text)>)
    ensures r.Some? ==> |r.value.1| < |t|
    decreases |t|, 2
  {
    if t == [] || t[0] != 34 then None
    else
      var key := ReadString(t[1..]);
      if key.None? || key.value.1 == [] || key.value.1[0] != 58 then None
      else
        var value := ReadValue(key.value.1[1..]);
        if value.None? || value.value.1 == [] then None
        else
          var member := Member(key.value.0, value.value.0);
          if value.value.1[0] == 125 then Some(([member], value.value.1[1..]))
          else if value.value.1[0] != 44 then None
          else
            var rest := ReadMembers(value.value.1[1..]);
            if rest.None? then None else Some(([member] + rest.value.0, rest.value.1))
  }

  // ----- key order, without recursion -----

  /** JavaScript's `<`: a prefix comes first, and otherwise the first unit that differs decides. */
  predicate ComesFirst(a: Text, b: Text) {
    a < b || exists p :: 0 <= p < |a| && p < |b| && a[..p] == b[..p] && a[p] < b[p]
  }

  lemma {:induction false} LessComesFirst(a: Text, b: Text)
    requires Less(a, b)
    ensures ComesFirst(a, b)
    decreases |a|
  {
    if a != [] {
      if a[0] < b[0] {
        assert a[..0] == b[..0];
      } else {
        LessComesFirst(a[1..], b[1..]);
        if a[1..] < b[1..] {
          assert a == [a[0]] + a[1..] && b == [b[0]] + b[1..];
        } else {
          var p :| 0 <= p < |a[1..]| && p < |b[1..]| && a[1..][..p] == b[1..][..p] && a[1..][p] < b[1..][p];
          assert a[..p + 1] == [a[0]] + a[1..][..p] && b[..p + 1] == [b[0]] + b[1..][..p];
          assert a[p + 1] < b[p + 1];
        }
      }
    }
  }

  /** A value a JSON text can say, with the members of its objects in key order. */
  ghost predicate Sorted(v: Json)
    decreases v
  {
    match v
    case Undefined => false
    case NonFinite => false
    case Array(items) => forall i | 0 <= i < |items| :: Sorted(items[i])
    case Object(members) =>
      (forall i | 0 <= i < |members| :: Sorted(members[i].value)) &&
      forall i, j | 0 <= i < j < |members| :: ComesFirst(members[i].key, members[j].key)
    case _ => true
  }

  // ----- strings read back -----

  lemma HexReadsBack(n: nat)
    requires n < 16
    ensures HexValue(Hex(n)) == Some(n)
  {
  }

  lemma EscapeReadsBack(u: Unit)
    ensures var e := Escape(u); Quad(e[2], e[3], e[4], e[5]) == Some(u)
  {
    HexReadsBack(u / 16 / 16 / 16);
    HexReadsBack(u / 16 / 16 % 16);
    HexReadsBack(u / 16 % 16);
    HexReadsBack(u % 16);
  }

  lemma EscapedReadsBack(u: Unit, rest: Text)
    ensures ReadString(Escaped(u) + rest) == Before(u, ReadString(rest))
  {
    var e := Escaped(u);
    var t := e + rest;
    assert t[0] == e[0] && t[|e|..] == rest;
    if |e| > 1 { assert t[1] == e[1]; }
    if |e| == 6 {
      EscapeReadsBack(u);
      assert t[2] == e[2] && t[3] == e[3] && t[4] == e[4] && t[5] == e[5];
    }
  }

  lemma {:induction false} InsideReadsBack(s: Text, rest: Text)
    ensures ReadString(Inside(s) + [QUOTE] + rest) == Some((s, rest))
    decreases |s|
  {
    hide ReadString;
    if s == [] {
      QuoteEnds(rest);
      assert Inside(s) + [QUOTE] + rest == [QUOTE] + rest;
    } else if Paired(s) {
      PairUnfolds(s, rest);
      InsideReadsBack(s[2..], rest);
      PairReadsBack(s[0], s[1], Inside(s[2..]) + [QUOTE] + rest);
      assert s == [s[0]] + ([s[1]] + s[2..]) && s[..2] == [s[0], s[1]];
    } else {
      UnitUnfolds(s, rest);
      InsideReadsBack(s[1..], rest);
      EscapedReadsBack(s[0], Inside(s[1..]) + [QUOTE] + rest);
      assert s == [s[0]] + s[1..];
    }
  }

  lemma QuoteEnds(rest: Text)
    ensures ReadString([QUOTE] + rest) == Some(([], rest))
  {
    assert ([QUOTE] + rest)[1..] == rest;
  }

  lemma PairReadsBack(high: Unit, low: Unit, rest: Text)
    requires High(high) && Low(low)
    ensures ReadString([high, low] + rest) == Before(high, Before(low, ReadString(rest)))
  {
    var t := [high, low] + rest;
    assert t[1..] == [low] + rest && ([low] + rest)[1..] == rest;
  }

  // ----- values read back -----

  lemma {:induction false} NumberEndsThere(digits: Text, rest: Text)
    requires (forall u | u in digits :: NumberUnit(u)) && Ends(rest)
    ensures NumberEnd(digits + rest) == |digits|
    decreases |digits|
  {
    if digits == [] {
      assert digits + rest == rest;
    } else {
      assert digits[0] in digits && (digits + rest)[1..] == digits[1..] + rest;
      NumberEndsThere(digits[1..], rest);
    }
  }

  lemma NumberReadsBack(digits: Text, rest: Text)
    requires WellFormed(Number(digits)) && Ends(rest)
    ensures ReadValue(digits + rest) == Some((Number(digits), rest))
  {
    NumberEndsThere(digits, rest);
    assert (digits + rest)[0] == digits[0];
    assert (digits + rest)[..|digits|] == digits && (digits + rest)[|digits|..] == rest;
  }

  lemma QuotedReadsBack(text: Text, rest: Text)
    ensures ReadValue(Quoted(text) + rest) == Some((String(text), rest))
  {
    hide ReadString;
    InsideReadsBack(text, rest);
    assert (Quoted(text) + rest)[1..] == Inside(text) + [QUOTE] + rest;
  }

  lemma WordReadsBack(v: Json, rest: Text)
    requires v.Null? || v.Undefined? || v.NonFinite? || v.Bool?
    ensures ReadValue(Canonical(v) + rest) == Some((if v.Bool? then v else Null, rest))
  {
    var word := Canonical(v);
    assert (word + rest)[..|word|] == word && (word + rest)[|word|..] == rest;
    assert (word + rest)[0] == word[0] && (word + rest)[1] == word[1];
    if |word| == 5 { assert (word + rest)[..4] == word[..4]; }
  }

  /**
   * The canonical text read back, whatever follows it: a value that is alike, says nothing that has no
   * text, and has its members in key order.
   */
  lemma {:induction false} ReadsBack(v: Json, rest: Text) returns (w: Json)
    requires WellFormed(v) && Ends(rest)
    ensures ReadValue(Canonical(v) + rest) == Some((w, rest)) && Alike(v, w) && Sorted(w)
    decreases v, 2
  {
    hide ReadMembers;
    hide ReadItems;
    match v {
      case Number(digits) =>
        NumberReadsBack(digits, rest);
        w := v;
      case String(text) =>
        QuotedReadsBack(text, rest);
        w := v;
      case Array(_) => w := ArrayReadsBack(v, rest);
      case Object(_) => w := ObjectReadsBack(v, rest);
      case _ =>
        WordReadsBack(v, rest);
        w := if v.Bool? then v else Null;
    }
  }

  lemma {:induction false} ArrayReadsBack(v: Json, rest: Text) returns (w: Json)
    requires v.Array? && WellFormed(v) && Ends(rest)
    ensures ReadValue(Canonical(v) + rest) == Some((w, rest)) && Alike(v, w) && Sorted(w)
    decreases v, 1
  {
    hide ReadMembers;
    hide ReadItems;
    var texts, t := ItemTexts(v.items), Canonical(v) + rest;
    CanonicalUnfolds(v);
    ListOpens(OPEN_ARRAY, texts, CLOSE_ARRAY, rest);
    assert t[0] == OPEN_ARRAY && t[1..] == From(texts, 0, CLOSE_ARRAY, rest);
    if v.items == [] {
      assert t[1] == t[1..][0] && t[2..] == t[1..][1..];
      w := v;
    } else {
      StartsItsKind(v.items[0]);
      assert t[1] == t[1..][0] == Canonical(v.items[0])[0];
      var items := ItemsReadBack(v, 0, rest);
      w := Array(items);
      forall i | 0 <= i < |items| ensures Alike(v.items[i], items[i]) && Sorted(items[i]) { assert ReadAt(v, 0 + i, items[i]); }
    }
  }

  /** The items from one on. */
  lemma {:induction false} ItemsReadBack(v: Json, k: nat, rest: Text) returns (items: seq<Json>)
    requires v.Array? && WellFormed(v) && Ends(rest) && k < |v.items|
    ensures ReadItems(From(ItemTexts(v.items), k, CLOSE_ARRAY, rest)) == Some((items, rest))
    ensures |items| == |v.items| - k && forall i | 0 <= i < |items| :: ReadAt(v, k + i, items[i])
    decreases v, 0, |v.items| - k
  {
    hide ReadMembers;
    hide ReadItems;
    hide ReadValue;
    var texts := ItemTexts(v.items);
    var tail := Tail(texts, k + 1, CLOSE_ARRAY, rest);
    TailEnds(texts, k + 1, CLOSE_ARRAY, rest);
    var first := ReadsBack(v.items[k], tail);
    ItemsUnfold(texts[k] + tail, first, tail);
    if k + 1 == |v.items| {
      items := [first];
    } else {
      var others := ItemsReadBack(v, k + 1, rest);
      items := [first] + others;
      ItemsGoOn(texts[k] + tail, first, tail, others, rest);
      OneMoreItem(v, k, first, others);
    }
  }

  /** What was read for an item. */
  ghost predicate ReadAt(v: Json, k: nat, item: Json)
    requires v.Array? && k < |v.items|
  {
    Alike(v.items[k], item) && Sorted(item)
  }

  lemma OneMoreItem(v: Json, k: nat, first: Json, others: seq<Json>)
    requires v.Array? && k + 1 + |others| <= |v.items| && ReadAt(v, k, first)
    requires forall i | 0 <= i < |others| :: ReadAt(v, k + 1 + i, others[i])
    ensures forall i | 0 <= i < |[first] + others| :: ReadAt(v, k + i, ([first] + others)[i])
  {
    forall i | 0 <= i < |[first] + others| ensures ReadAt(v, k + i, ([first] + others)[i]) {
      if i > 0 { assert ReadAt(v, k + 1 + (i - 1), others[i - 1]); }
    }
  }

  /** What a list comes to, from what was read of its first item and of the rest. */
  function ItemsFrom(value: Json, tail: Text, others: Option<(seq<Json>, Text)>): Option<(seq<Json>, Text)>
    requires tail != []
  {
    if tail[0] == 93 then Some(([value], tail[1..]))
    else if tail[0] != 44 || others.None? then None
    else Some(([value] + others.value.0, others.value.1))
  }

  lemma ItemsUnfold(t: Text, value: Json, tail: Text)
    requires ReadValue(t) == Some((value, tail)) && tail != []
    ensures ReadItems(t) == ItemsFrom(value, tail, ReadItems(tail[1..]))
  {
  }

  lemma ItemsGoOn(t: Text, value: Json, tail: Text, others: seq<Json>, rest: Text)
    requires tail != [] && tail[0] == 44 && ReadItems(t) == ItemsFrom(value, tail, ReadItems(tail[1..]))
    requires ReadItems(tail[1..]) == Some((others, rest))
    ensures ReadItems(t) == Some(([value] + others, rest))
  {
    hide ReadMembers;
    hide ReadItems;
  }

  lemma {:induction false} ObjectReadsBack(v: Json, rest: Text) returns (w: Json)
    requires v.Object? && WellFormed(v) && Ends(rest)
    ensures ReadValue(Canonical(v) + rest) == Some((w, rest)) && Alike(v, w) && Sorted(w)
    decreases v, 1
  {
    hide ReadMembers;
    hide ReadItems;
    var texts, t := EntryTexts(Printed(v)), Canonical(v) + rest;
    CanonicalUnfolds(v);
    ListOpens(OPEN_OBJECT, texts, CLOSE_OBJECT, rest);
    FromStarts(Printed(v), 0, rest);
    assert t[0] == OPEN_OBJECT && t[1..] == From(texts, 0, CLOSE_OBJECT, rest) && t[1] == t[1..][0];
    if Printed(v) == [] {
      assert t[2..] == t[1..][1..];
      w := Object([]);
      ReadIsAlike(v, []);
    } else {
      var members := MembersReadBack(v, 0, rest);
      w := Object(members);
      ReadIsAlike(v, members);
    }
  }

  /** What was read for an entry. */
  ghost predicate ReadFor(v: Json, k: nat, member: Member)
    requires v.Object? && k < |Printed(v)|
  {
    member.key == Printed(v)[k].key && Alike(v.members[MemberAt(v, k)].value, member.value) && Sorted(member.value)
  }

  lemma {:induction false} MembersReadBack(v: Json, k: nat, rest: Text) returns (members: seq<Member>)
    requires v.Object? && WellFormed(v) && Ends(rest) && k < |Printed(v)|
    ensures ReadMembers(From(EntryTexts(Printed(v)), k, CLOSE_OBJECT, rest)) == Some((members, rest))
    ensures |members| == |Printed(v)| - k && forall i | 0 <= i < |members| :: ReadFor(v, k + i, members[i])
    decreases v, 0, |Printed(v)| - k
  {
    hide ReadMembers;
    hide ReadItems;
    var tail := Tail(EntryTexts(Printed(v)), k + 1, CLOSE_OBJECT, rest);
    TailEnds(EntryTexts(Printed(v)), k + 1, CLOSE_OBJECT, rest);
    var value := ReadsBack(v.members[MemberAt(v, k)].value, tail);
    var first := Member(Printed(v)[k].key, value);
    var t := From(EntryTexts(Printed(v)), k, CLOSE_OBJECT, rest);
    EntryReadsBack(Printed(v)[k], value, tail);
    if k + 1 == |Printed(v)| {
      members := [first];
    } else {
      var others := MembersReadBack(v, k + 1, rest);
      members := [first] + others;
      MembersGoOn(t, first, tail, others, rest);
      OneMoreMember(v, k, first, others);
    }
  }

  lemma MembersGoOn(t: Text, first: Member, tail: Text, others: seq<Member>, rest: Text)
    requires tail != [] && tail[0] == 44 && ReadMembers(t) == MembersFrom(first, tail, ReadMembers(tail[1..]))
    requires ReadMembers(tail[1..]) == Some((others, rest))
    ensures ReadMembers(t) == Some(([first] + others, rest))
  {
    hide ReadMembers;
    hide ReadItems;
  }

  lemma OneMoreMember(v: Json, k: nat, first: Member, others: seq<Member>)
    requires v.Object? && k + 1 + |others| <= |Printed(v)| && ReadFor(v, k, first)
    requires forall i | 0 <= i < |others| :: ReadFor(v, k + 1 + i, others[i])
    ensures forall i | 0 <= i < |[first] + others| :: ReadFor(v, k + i, ([first] + others)[i])
  {
    forall i | 0 <= i < |[first] + others| ensures ReadFor(v, k + i, ([first] + others)[i]) {
      if i > 0 { assert ReadFor(v, k + 1 + (i - 1), others[i - 1]); }
    }
  }

  /** What a list of members comes to, from what was read of its first one and of the rest. */
  function MembersFrom(member: Member, tail: Text, others: Option<(seq<Member>, Text)>): Option<(seq<Member>, Text)>
    requires tail != []
  {
    if tail[0] == 125 then Some(([member], tail[1..]))
    else if tail[0] != 44 || others.None? then None
    else Some(([member] + others.value.0, others.value.1))
  }

  lemma MembersUnfold(t: Text, key: Text, after: Text, value: Json, tail: Text)
    requires t != [] && t[0] == 34 && ReadString(t[1..]) == Some((key, after))
    requires after != [] && after[0] == 58 && ReadValue(after[1..]) == Some((value, tail)) && tail != []
    ensures ReadMembers(t) == MembersFrom(Member(key, value), tail, ReadMembers(tail[1..]))
  {
  }

  /** One entry: its key, the colon and its value. */
  lemma EntryOpens(e: Entry, tail: Text)
    ensures var t, after := EntryText(e) + tail, [COLON] + e.value + tail;
            t != [] && t[0] == 34 && ReadString(t[1..]) == Some((e.key, after)) && after[0] == 58 && after[1..] == e.value + tail
  {
    hide ReadString;
    var t, after := EntryText(e) + tail, [COLON] + e.value + tail;
    InsideReadsBack(e.key, after);
    assert t[1..] == Inside(e.key) + [QUOTE] + after;
  }

  lemma EntryReadsBack(e: Entry, value: Json, tail: Text)
    requires ReadValue(e.value + tail) == Some((value, tail)) && tail != []
    ensures ReadMembers(EntryText(e) + tail) == MembersFrom(Member(e.key, value), tail, ReadMembers(tail[1..]))
  {
    hide ReadMembers;
    hide ReadItems;
    EntryOpens(e, tail);
    MembersUnfold(EntryText(e) + tail, e.key, [COLON] + e.value + tail, value, tail);
  }

  lemma ReadIsAlike(v: Json, members: seq<Member>)
    requires v.Object? && WellFormed(v) && |members| == |Printed(v)|
    requires forall i | 0 <= i < |members| :: ReadFor(v, i, members[i])
    ensures Alike(v, Object(members)) && Sorted(Object(members))
  {
    var w := Object(members);
    forall i | 0 <= i < |v.members| && !v.members[i].value.Undefined?
      ensures exists j: nat {:trigger Names(w, v.members[i].key, j)} ::
                Names(w, v.members[i].key, j) && Alike(v.members[i].value, w.members[j].value)
    {
      var k := MemberIsPrinted(v, i);
      assert ReadFor(v, k, members[k]);
      NamedOnce(v, v.members[i].key, i, MemberAt(v, k));
      assert Names(w, v.members[i].key, k);
    }
    forall j | 0 <= j < |w.members| && !w.members[j].value.Undefined?
      ensures exists i: nat {:trigger Names(v, w.members[j].key, i)} :: Names(v, w.members[j].key, i)
    {
      assert ReadFor(v, j, members[j]);
      assert Names(v, w.members[j].key, MemberAt(v, j));
    }
    EntriesDiffer(v.members, ValueTexts(v.members));
    SortAscends(Entries(v.members, ValueTexts(v.members)));
    forall i, j | 0 <= i < j < |members| ensures ComesFirst(members[i].key, members[j].key) {
      assert ReadFor(v, i, members[i]) && ReadFor(v, j, members[j]);
      LessComesFirst(members[i].key, members[j].key);
    }
    forall i | 0 <= i < |members| ensures Sorted(members[i].value) { assert ReadFor(v, i, members[i]); }
  }
}
