/** The decimal names under which cell identifiers are published and subscribed to. */
module Decimal {

  /** A 64-bit S2 cell identifier. */
  type CellId = n: int | 0 <= n < 0x1_0000_0000_0000_0000

  const DIGITS: string := "0123456789"

  /** Base ten rendering without leading zeros, as strconv.FormatUint(n, 10) gives it. */
  function Render(n: nat): (s: string)
    ensures |s| >= 1
  {
    if n < 10 then [DIGITS[n]] else Render(n / 10) + [DIGITS[n % 10]]
  }

  /** The number a string of digits denotes; characters that are no digits count as zero. */
  function Value(s: string): nat {
    if s == [] then 0
    else 10 * Value(s[..|s| - 1]) + (if '0' <= s[|s| - 1] <= '9' then (s[|s| - 1] - '0') as int else 0)
  }

  lemma DigitOf(d: nat)
    requires d < 10
    ensures DIGITS[d] == '0' + d as char
  {
  }

  lemma {:induction false} RenderValue(n: nat)
    ensures Value(Render(n)) == n
  {
    if n < 10 {
      DigitOf(n);
    } else {
      RenderValue(n / 10);
      DigitOf(n % 10);
      assert Render(n)[..|Render(n)| - 1] == Render(n / 10);
    }
  }

  /** The rendering is all digits, and begins with a zero for zero alone. */
  lemma {:induction false} RenderDigits(n: nat)
    ensures forall i :: 0 <= i < |Render(n)| ==> '0' <= Render(n)[i] <= '9'
    ensures Render(n)[0] == '0' <==> n == 0
  {
    if n < 10 {
      DigitOf(n);
    } else {
      RenderDigits(n / 10);
      DigitOf(n % 10);
      assert Render(n)[0] == Render(n / 10)[0];
    }
  }

  /** One more digit multiplies by ten. */
  lemma {:induction false} RenderAppend(n: nat, d: nat)
    requires d < 10
    ensures Render(d) == ['0' + d as char]
    ensures n > 0 ==> Render(10 * n + d) == Render(n) + ['0' + d as char]
  {
    DigitOf(d);
    assert n > 0 ==> (10 * n + d) / 10 == n && (10 * n + d) % 10 == d;
  }

  /** Two cells share a channel name exactly when they are the same cell. */
  lemma RenderInjective(a: nat, b: nat)
    ensures Render(a) == Render(b) <==> a == b
  {
    RenderValue(a);
    RenderValue(b);
  }

  /** The channel names of a cell group, in the order of the group. */
  function Names(cells: seq<CellId>): (names: seq<string>)
    ensures |names| == |cells|
    ensures forall i :: 0 <= i < |cells| ==> names[i] == Render(cells[i])
  {
    seq(|cells|, i requires 0 <= i < |cells| => Render(cells[i]))
  }

  /** The set of channels a cell group stands for. */
  function Channels(cells: seq<CellId>): set<string> {
    set name | name in Names(cells)
  }

  /** A cell's channel is among a group's channels exactly when the cell is in the group. */
  lemma NamedIffMember(id: CellId, cells: seq<CellId>)
    ensures Render(id) in Channels(cells) <==> id in cells
  {
    if Render(id) in Channels(cells) {
      var i :| 0 <= i < |cells| && Names(cells)[i] == Render(id);
      RenderInjective(id, cells[i]);
    }
    if id in cells {
      var i :| 0 <= i < |cells| && cells[i] == id;
      assert Names(cells)[i] == Render(id);
    }
  }

  lemma ChannelsAppend(cells: seq<CellId>, last: CellId)
    ensures Channels(cells + [last]) == Channels(cells) + {Render(last)}
  {
    assert Names(cells + [last]) == Names(cells) + [Render(last)];
  }

  function Distinct(cells: seq<CellId>): set<CellId> {
    set id | id in cells
  }

  lemma DistinctAppend(cells: seq<CellId>, last: CellId)
    ensures Distinct(cells + [last]) == Distinct(cells) + {last}
  {
  }

  lemma Grow<T>(s: set<T>, x: T)
    ensures |s + {x}| == |s| + (if x in s then 0 else 1)
  {
    if x in s {
      assert s + {x} == s;
    }
  }

  lemma CountAppend(cells: seq<CellId>, last: CellId)
    requires |Channels(cells)| == |Distinct(cells)|
    ensures |Channels(cells + [last])| == |Distinct(cells + [last])|
  {
    ChannelsAppend(cells, last);
    DistinctAppend(cells, last);
    NamedIffMember(last, cells);
    Grow(Channels(cells), Render(last));
    Grow(Distinct(cells), last);
  }

  /** A group subscribes to as many channels as it has distinct cells. */
  lemma {:induction false} ChannelCount(cells: seq<CellId>)
    ensures |Channels(cells)| == |Distinct(cells)|
    decreases |cells|
  {
    if |cells| > 0 {
      var init, last := cells[..|cells| - 1], cells[|cells| - 1];
      assert cells == init + [last];
      ChannelCount(init);
      CountAppend(init, last);
    } else {
      assert Channels(cells) == {} && Distinct(cells) == {};
    }
  }
}
