/** JSON texts after RFC 8259, as derivation trees with their exact bytes. */
module Json {
  import opened Bytes
  import opened Framing

  const COLON: byte := 58
  const DOT: byte := 46
  const MINUS: byte := 45
  const LOWER_U: byte := 117

  /** A part of a string: an unescaped character (or byte of one), a short escape, or \uXXXX. */
  datatype Unit = Plain(b: byte) | Short(b: byte) | Hex(digits: seq<byte>)

  /** Section 6: an optional minus, an integer, an optional fraction and exponent. */
  datatype Number = Number(minus: bool, whole: seq<byte>, frac: seq<byte>, exp: Exponent)
  datatype Exponent = NoExponent | Exponent(mark: byte, sign: seq<byte>, digits: seq<byte>)

  datatype Value =
    | Null | True | False
    | Num(number: Number)
    | Str(units: seq<Unit>)
    | EmptyArray(space: seq<byte>)
    | Array(items: Items)
    | EmptyObject(space: seq<byte>)
    | Object(members: Members)

  /** A value with the whitespace around it. */
  datatype Text = Text(lead: seq<byte>, value: Value, trail: seq<byte>)
  datatype Items = One(item: Text) | More(item: Text, rest: Items)
  datatype Member = Member(lead: seq<byte>, key: seq<Unit>, mid: seq<byte>, value: Text)
  datatype Members = OneMember(member: Member) | MoreMembers(member: Member, rest: Members)

  // ---------- well-formedness ----------

  predicate Space(s: seq<byte>) {
    forall i :: 0 <= i < |s| ==> s[i] == 32 || s[i] == 9 || s[i] == 10 || s[i] == 13
  }

  predicate Digits(s: seq<byte>) {
    forall i :: 0 <= i < |s| ==> 48 <= s[i] <= 57
  }

  predicate HexDigit(b: byte) {
    48 <= b <= 57 || 65 <= b <= 70 || 97 <= b <= 102
  }

  /** Bytes from 128 up are taken as they come, so texts that are not valid UTF-8 are admitted as well. */
  predicate GoodUnit(u: Unit) {
    match u
    case Plain(b) => b >= 32 && b != QUOTE && b != BACKSLASH
    case Short(b) => b == QUOTE || b == BACKSLASH || b == 47 || b == 98 || b == 102 || b == 110 || b == 114 || b == 116
    case Hex(digits) => |digits| == 4 && forall i :: 0 <= i < 4 ==> HexDigit(digits[i])
  }

  predicate GoodUnits(units: seq<Unit>) {
    forall i :: 0 <= i < |units| ==> GoodUnit(units[i])
  }

  predicate GoodNumber(n: Number) {
    && n.whole != [] && Digits(n.whole) && (|n.whole| > 1 ==> n.whole[0] != 48)
    && Digits(n.frac)
    && (n.exp.Exponent? ==>
          && (n.exp.mark == 101 || n.exp.mark == 69)
          && (n.exp.sign == [] || n.exp.sign == [43] || n.exp.sign == [MINUS])
          && n.exp.digits != [] && Digits(n.exp.digits))
  }

  predicate GoodValue(v: Value) {
    match v
    case Num(n) => GoodNumber(n)
    case Str(units) => GoodUnits(units)
    case EmptyArray(space) => Space(space)
    case Array(items) => GoodItems(items)
    case EmptyObject(space) => Space(space)
    case Object(members) => GoodMembers(members)
    case _ => true
  }

  predicate GoodText(t: Text) {
    Space(t.lead) && GoodValue(t.value) && Space(t.trail)
  }

  predicate GoodItems(items: Items) {
    GoodText(items.item) && (items.More? ==> GoodItems(items.rest))
  }

  predicate GoodMember(m: Member) {
    Space(m.lead) && GoodUnits(m.key) && Space(m.mid) && GoodText(m.value)
  }

  predicate GoodMembers(members: Members) {
    GoodMember(members.member) && (members.MoreMembers? ==> GoodMembers(members.rest))
  }

  // ---------- bytes ----------

  function UnitBytes(u: Unit): seq<byte> {
    match u
    case Plain(b) => [b]
    case Short(b) => [BACKSLASH, b]
    case Hex(digits) => [BACKSLASH, LOWER_U] + digits
  }

  function UnitsBytes(units: seq<Unit>): seq<byte> {
    if units == [] then [] else UnitBytes(units[0]) + UnitsBytes(units[1..])
  }

  function StringBytes(units: seq<Unit>): seq<byte> {
    [QUOTE] + UnitsBytes(units) + [QUOTE]
  }

  function NumberBytes(n: Number): seq<byte> {
    (if n.minus then [MINUS] else [])
    + n.whole
    + (if n.frac == [] then [] else [DOT] + n.frac)
    + (match n.exp
       case NoExponent => []
       case Exponent(mark, sign, digits) => [mark] + sign + digits)
  }

  function ValueBytes(v: Value): seq<byte> {
    match v
    case Null => [110, 117, 108, 108]
    case True => [116, 114, 117, 101]
    case False => [102, 97, 108, 115, 101]
    case Num(n) => NumberBytes(n)
    case Str(units) => StringBytes(units)
    case EmptyArray(space) => [OPEN] + space + [CLOSE]
    case Array(items) => [OPEN] + ItemsBytes(items) + [CLOSE]
    case EmptyObject(space) => [OPEN_BRACE] + space + [CLOSE_BRACE]
    case Object(members) => [OPEN_BRACE] + MembersBytes(members) + [CLOSE_BRACE]
  }

  function TextBytes(t: Text): seq<byte> {
    t.lead + ValueBytes(t.value) + t.trail
  }

  function ItemsBytes(items: Items): seq<byte> {
    match items
    case One(item) => TextBytes(item)
    case More(item, rest) => TextBytes(item) + [COMMA] + ItemsBytes(rest)
  }

  function MemberBytes(m: Member): seq<byte> {
    m.lead + StringBytes(m.key) + m.mid + [COLON] + TextBytes(m.value)
  }

  function MembersBytes(members: Members): seq<byte> {
    match members
    case OneMember(member) => MemberBytes(member)
    case MoreMembers(member, rest) => MemberBytes(member) + [COMMA] + MembersBytes(rest)
  }

  /** The bytes of a message are a JSON text. */
  ghost predicate IsJson(m: Message) {
    exists t :: GoodText(t) && TextBytes(t) == m
  }

  // ---------- JSON as the scanner sees it ----------

  /** Scanned from depth d, t returns to depth d and has no comma at depth d or above. */
  predicate Closed(d: nat, t: Message) {
    Run(Out(d), t) == Out(d) && Quiet(Out(d), t, d)
  }

  /** The same inside one more bracket, where commas of that bracket may occur. */
  predicate Nested(d: nat, t: Message) {
    Run(Out(d + 1), t) == Out(d + 1) && Quiet(Out(d + 1), t, d)
  }

  lemma ClosedConcat(d: nat, a: Message, b: Message)
    requires Closed(d, a) && Closed(d, b)
    ensures Closed(d, a + b)
  {
    RunConcat(Out(d), a, b, d);
  }

  lemma ClosedNested(d: nat, t: Message)
    requires Closed(d + 1, t)
    ensures Nested(d, t)
  {
    QuietBelow(Out(d + 1), t, d);
  }

  lemma OneByte(s: Scan, b: byte, d: nat)
    ensures Run(s, [b]) == Step(s, b)
    ensures Quiet(s, [b], d) <==> !Separates(s, b, d)
  {
    assert [b][1..] == [];
    assert Run(Step(s, b), []) == Step(s, b) && Quiet(Step(s, b), [], d);
  }

  lemma NestedComma(d: nat, a: Message, b: Message)
    requires Nested(d, a) && Nested(d, b)
    ensures Nested(d, a + [COMMA] + b)
  {
    OneByte(Out(d + 1), COMMA, d);
    RunConcat(Out(d + 1), a, [COMMA], d);
    RunConcat(Out(d + 1), a + [COMMA], b, d);
  }

  lemma Bracketed(d: nat, open: byte, t: Message, close: byte)
    requires Nested(d, t)
    requires (open == OPEN && close == CLOSE) || (open == OPEN_BRACE && close == CLOSE_BRACE)
    ensures Closed(d, [open] + t + [close])
  {
    OneByte(Out(d), open, d);
    OneByte(Out(d + 1), close, d);
    RunConcat(Out(d), [open], t, d);
    RunConcat(Out(d), [open] + t, [close], d);
  }

  /** Bytes that mean nothing to the scanner outside strings. */
  predicate Inert(t: Message) {
    forall i :: 0 <= i < |t| ==>
      && t[i] != COMMA && t[i] != QUOTE && t[i] != OPEN && t[i] != CLOSE
      && t[i] != OPEN_BRACE && t[i] != CLOSE_BRACE
  }

  lemma {:induction false} InertClosed(d: nat, t: Message)
    requires Inert(t)
    ensures Closed(d, t)
    decreases |t|
  {
    if t != [] {
      InertClosed(d, t[1..]);
    }
  }

  lemma NumberInert(n: Number)
    requires GoodNumber(n)
    ensures Inert(NumberBytes(n))
  {
  }

  lemma {:induction false} PlainRun(d: nat, t: Message, e: nat)
    requires forall i :: 0 <= i < |t| ==> t[i] != QUOTE && t[i] != BACKSLASH
    ensures Run(In(d), t) == In(d) && Quiet(In(d), t, e)
    decreases |t|
  {
    if t != [] {
      PlainRun(d, t[1..], e);
    }
  }

  lemma UnitRun(d: nat, u: Unit, e: nat)
    requires GoodUnit(u)
    ensures Run(In(d), UnitBytes(u)) == In(d) && Quiet(In(d), UnitBytes(u), e)
  {
    match u
    case Plain(b) =>
      PlainRun(d, [b], e);
    case Short(b) =>
      OneByte(In(d), BACKSLASH, e);
      OneByte(Escaped(d), b, e);
      RunConcat(In(d), [BACKSLASH], [b], e);
      assert UnitBytes(u) == [BACKSLASH] + [b];
    case Hex(digits) =>
      OneByte(In(d), BACKSLASH, e);
      OneByte(Escaped(d), LOWER_U, e);
      RunConcat(In(d), [BACKSLASH], [LOWER_U], e);
      PlainRun(d, digits, e);
      RunConcat(In(d), [BACKSLASH] + [LOWER_U], digits, e);
      assert UnitBytes(u) == [BACKSLASH] + [LOWER_U] + digits;
  }

  lemma {:induction false} UnitsRun(d: nat, units: seq<Unit>, e: nat)
    requires GoodUnits(units)
    ensures Run(In(d), UnitsBytes(units)) == In(d) && Quiet(In(d), UnitsBytes(units), e)
    decreases |units|
  {
    if units != [] {
      UnitRun(d, units[0], e);
      UnitsRun(d, units[1..], e);
      RunConcat(In(d), UnitBytes(units[0]), UnitsBytes(units[1..]), e);
    }
  }

  lemma StringClosed(d: nat, units: seq<Unit>)
    requires GoodUnits(units)
    ensures Closed(d, StringBytes(units))
  {
    UnitsRun(d, units, d);
    OneByte(Out(d), QUOTE, d);
    OneByte(In(d), QUOTE, d);
    RunConcat(Out(d), [QUOTE], UnitsBytes(units), d);
    RunConcat(Out(d), [QUOTE] + UnitsBytes(units), [QUOTE], d);
  }

  lemma {:induction false} ValueClosed(d: nat, v: Value)
    requires GoodValue(v)
    ensures Closed(d, ValueBytes(v))
    decreases v
  {
    match v
    case Num(n) =>
      NumberInert(n);
      InertClosed(d, NumberBytes(n));
    case Str(units) =>
      StringClosed(d, units);
    case EmptyArray(space) =>
      InertClosed(d + 1, space);
      ClosedNested(d, space);
      Bracketed(d, OPEN, space, CLOSE);
    case Array(items) =>
      ItemsNested(d, items);
      Bracketed(d, OPEN, ItemsBytes(items), CLOSE);
    case EmptyObject(space) =>
      InertClosed(d + 1, space);
      ClosedNested(d, space);
      Bracketed(d, OPEN_BRACE, space, CLOSE_BRACE);
    case Object(members) =>
      MembersNested(d, members);
      Bracketed(d, OPEN_BRACE, MembersBytes(members), CLOSE_BRACE);
    case _ =>
      InertClosed(d, ValueBytes(v));
  }

  lemma {:induction false} TextClosed(d: nat, t: Text)
    requires GoodText(t)
    ensures Closed(d, TextBytes(t))
    decreases t
  {
    InertClosed(d, t.lead);
    ValueClosed(d, t.value);
    InertClosed(d, t.trail);
    ClosedConcat(d, t.lead, ValueBytes(t.value));
    ClosedConcat(d, t.lead + ValueBytes(t.value), t.trail);
  }

  lemma {:induction false} ItemsNested(d: nat, items: Items)
    requires GoodItems(items)
    ensures Nested(d, ItemsBytes(items))
    decreases items
  {
    TextClosed(d + 1, items.item);
    ClosedNested(d, TextBytes(items.item));
    if items.More? {
      ItemsNested(d, items.rest);
      NestedComma(d, TextBytes(items.item), ItemsBytes(items.rest));
    }
  }

  lemma {:induction false} MemberClosed(d: nat, m: Member)
    requires GoodMember(m)
    ensures Closed(d, MemberBytes(m))
    decreases m
  {
    InertClosed(d, m.lead);
    StringClosed(d, m.key);
    InertClosed(d, m.mid);
    InertClosed(d, [COLON]);
    TextClosed(d, m.value);
    ClosedConcat(d, m.lead, StringBytes(m.key));
    ClosedConcat(d, m.lead + StringBytes(m.key), m.mid);
    ClosedConcat(d, m.lead + StringBytes(m.key) + m.mid, [COLON]);
    ClosedConcat(d, m.lead + StringBytes(m.key) + m.mid + [COLON], TextBytes(m.value));
  }

  lemma {:induction false} MembersNested(d: nat, members: Members)
    requires GoodMembers(members)
    ensures Nested(d, MembersBytes(members))
    decreases members
  {
    MemberClosed(d + 1, members.member);
    ClosedNested(d, MemberBytes(members.member));
    if members.MoreMembers? {
      MembersNested(d, members.rest);
      NestedComma(d, MemberBytes(members.member), MembersBytes(members.rest));
    }
  }

  // ---------- frames of JSON messages ----------

  lemma {:induction false} JoinIsItems(batch: seq<Message>)
    requires batch != [] && forall i :: 0 <= i < |batch| ==> IsJson(batch[i])
    ensures exists items :: GoodItems(items) && ItemsBytes(items) == Join(batch)
    decreases |batch|
  {
    assert IsJson(batch[0]);
    var t :| GoodText(t) && TextBytes(t) == batch[0];
    if |batch| == 1 {
      assert GoodItems(One(t)) && ItemsBytes(One(t)) == Join(batch);
    } else {
      JoinIsItems(batch[1..]);
      var rest :| GoodItems(rest) && ItemsBytes(rest) == Join(batch[1..]);
      assert GoodItems(More(t, rest)) && ItemsBytes(More(t, rest)) == Join(batch);
    }
  }

  /** A frame of JSON messages is a JSON array, and it gives back exactly its batch. */
  lemma JsonFrame(batch: seq<Message>)
    requires batch != [] && forall i :: 0 <= i < |batch| ==> IsJson(batch[i])
    ensures exists items :: GoodValue(Array(items)) && ValueBytes(Array(items)) == Frame(batch)
    ensures Unframe(Frame(batch)) == batch
  {
    JoinIsItems(batch);
    var items :| GoodItems(items) && ItemsBytes(items) == Join(batch);
    assert GoodValue(Array(items)) && ValueBytes(Array(items)) == Frame(batch);
    forall i | 0 <= i < |batch|
      ensures Quiet(NEUTRAL, batch[i], 0) && Run(NEUTRAL, batch[i]) == NEUTRAL
    {
      assert IsJson(batch[i]);
      var t :| GoodText(t) && TextBytes(t) == batch[i];
      TextClosed(0, t);
    }
    UnframeIff(batch);
  }

  /** A concrete text, {"a":[1,"]"]}, is JSON; its inner bracket and comma do not confuse the scanner. */
  lemma SampleIsJson()
    ensures IsJson([123, 34, 97, 34, 58, 91, 49, 44, 34, 93, 34, 93, 125])
  {
    var member := SampleMember();
    var t := Text([], Object(OneMember(member)), []);
    assert GoodValue(t.value) && GoodText(t);
    assert MembersBytes(OneMember(member)) == MemberBytes(member);
    assert ValueBytes(t.value) == [123] + MemberBytes(member) + [125];
    assert TextBytes(t) == [] + ValueBytes(t.value) + [] == ValueBytes(t.value);
  }

  /** "a":[1,"]"] */
  lemma SampleMember() returns (member: Member)
    ensures GoodMember(member) && MemberBytes(member) == [34, 97, 34, 58, 91, 49, 44, 34, 93, 34, 93]
  {
    var list := SampleList();
    var value := Text([], list, []);
    member := Member([], [Plain(97)], [], value);
    PlainString(97);
    assert TextBytes(value) == ValueBytes(list);
    assert MemberBytes(member) == [34, 97, 34] + [58] + ValueBytes(list);
  }

  lemma PlainString(b: byte)
    ensures StringBytes([Plain(b)]) == [34, b, 34]
  {
    assert [Plain(b)][1..] == [] && UnitsBytes([]) == [];
    assert UnitsBytes([Plain(b)]) == UnitBytes(Plain(b)) == [b];
  }

  /** [1,"]"] */
  lemma SampleList() returns (list: Value)
    ensures GoodValue(list) && ValueBytes(list) == [91, 49, 44, 34, 93, 34, 93]
  {
    var one := Text([], Num(Number(false, [49], [], NoExponent)), []);
    var bracket := Text([], Str([Plain(93)]), []);
    PlainString(93);
    assert GoodText(one) && TextBytes(one) == [49];
    assert GoodText(bracket) && TextBytes(bracket) == [34, 93, 34];
    list := Array(More(one, One(bracket)));
    assert ItemsBytes(More(one, One(bracket))) == [49, 44, 34, 93, 34];
  }

  /** A number may not begin with a zero that is not all of its whole part: 01 is no JSON. */
  lemma LeadingZeroNotJson()
    ensures !IsJson([48, 49])
  {
    forall t | GoodText(t) ensures TextBytes(t) != [48, 49] {
      ZeroFirst(t);
    }
  }

  lemma ZeroFirst(t: Text)
    requires GoodText(t)
    ensures TextBytes(t) != [48, 49]
  {
    var bytes, value := TextBytes(t), ValueBytes(t.value);
    assert bytes == t.lead + value + t.trail;
    assert t.lead != [] ==> bytes[0] == t.lead[0];
    assert t.trail != [] ==> bytes[|bytes| - 1] == t.trail[|t.trail| - 1];
    assert t.lead == [] && t.trail == [] ==> bytes == value;
    if t.value.Num? {
      assert GoodValue(t.value);
      ZeroOrMore(t.value.number);
    } else {
      assert value[0] != 48;
    }
  }

  lemma ZeroOrMore(n: Number)
    requires GoodNumber(n)
    ensures NumberBytes(n) != [48, 49]
  {
    var s := NumberBytes(n);
    assert s[0] == if n.minus then MINUS else n.whole[0];
    if !n.minus && n.whole[0] == 48 {
      assert n.whole == [48];
      assert n.frac != [] ==> s[1] == DOT;
      assert n.frac == [] && n.exp.Exponent? ==> s[1] == n.exp.mark;
    }
  }

  /** Without JSON messages a frame can be ambiguous: one message 1,2 looks like the two messages 1 and 2. */
  lemma AmbiguousFrame()
    ensures Frame([[49, COMMA, 50]]) == Frame([[49], [50]])
  {
    assert Join([[49], [50]]) == [49] + [COMMA] + Join([[50]]);
    assert [[49], [50]][1..] == [[50]];
  }
}
