/**
 * The benchmark terminal's display: it answers terminal queries found in the child's output and shows
 * the rest, whatever way the output was cut into chunks.
 */
module Display {

  const ESC := "\U{1b}"
  const BEL := "\U{7}"
  const ST := "\U{1b}\\"
  const MAX_PENDING_INPUT := 65_536

  /** Each terminal query and its canned reply. */
  const QUERIES: seq<(string, string)> := [
    (ESC + "[6n", ESC + "[1;1R"),
    (ESC + "[?6n", ESC + "[?1;1R"),
    (ESC + "[c", ESC + "[?1;2c"),
    (ESC + "[0c", ESC + "[?1;2c"),
    (ESC + "[>c", ESC + "[>0;276;0c"),
    (ESC + "[>0c", ESC + "[>0;276;0c"),
    (ESC + "[?u", ESC + "[?0u"),
    (ESC + "[?2026$p", ESC + "[?2026;2$y"),
    (ESC + "[14t", ESC + "[4;640;960t"),
    (ESC + "[16t", ESC + "[6;16;8t"),
    (ESC + "[18t", ESC + "[8;40;120t"),
    (ESC + "]11;?" + BEL, ESC + "]11;rgb:0000/0000/0000" + ST),
    (ESC + "]10;?" + BEL, ESC + "]10;rgb:eeee/eeee/eeee" + ST),
    (ESC + "]11;?" + ST, ESC + "]11;rgb:0000/0000/0000" + ST),
    (ESC + "]10;?" + ST, ESC + "]10;rgb:eeee/eeee/eeee" + ST)
  ]

  /** What the display lets out, one item at a time: a character for the screen, or the answer to a query. */
  datatype Item = Shown(c: char) | Answered(query: nat)

  type Table = seq<(string, string)>

  // ---------------------------------------------------------------- tables

  predicate OccursAt(q: string, s: string, p: nat) {
    p + |q| <= |s| && s[p..p + |q|] == q
  }

  lemma OccursPointwise(q: string, s: string, p: nat)
    ensures OccursAt(q, s, p) ==> forall x: nat | x < |q| :: q[x] == s[p + x]
  {
    if OccursAt(q, s, p) {
      forall x: nat | x < |q| ensures q[x] == s[p + x] {
        assert s[p..p + |q|][x] == s[p + x];
      }
    }
  }

  /** No query is empty, and none occurs inside another, at any position. */
  ghost predicate InfixFree(table: Table) {
    && (forall i | 0 <= i < |table| :: table[i].0 != "")
    && forall i, j, p: nat | 0 <= i < |table| && 0 <= j < |table| && i != j :: !OccursAt(table[i].0, table[j].0, p)
  }

  /** Every query is an escape character, then characters that are none, save for a closing string terminator. */
  predicate EscapeShaped(q: string) {
    && |q| >= 3 && q[0] == '\U{1b}'
    && forall p | 0 < p < |q| && q[p] == '\U{1b}' :: p == |q| - 2
  }

  lemma QueriesAreEscapeShaped(i: nat)
    requires i < |QUERIES|
    ensures EscapeShaped(QUERIES[i].0)
  {}

  predicate DifferAt(a: string, b: string, k: nat) {
    k < |a| && k < |b| && a[k] != b[k]
  }

  lemma QueriesDiffer(i: nat, j: nat) returns (k: nat)
    requires i < |QUERIES| && j < |QUERIES| && i != j
    ensures DifferAt(QUERIES[i].0, QUERIES[j].0, k)
  {
    var a, b := QUERIES[i].0, QUERIES[j].0;
    k := if DifferAt(a, b, 1) then 1 else if DifferAt(a, b, 2) then 2 else if DifferAt(a, b, 3) then 3
         else if DifferAt(a, b, 4) then 4 else if DifferAt(a, b, 5) then 5 else 6;
  }

  /** The actual table meets the condition under which chunking is invisible. */
  lemma QueriesInfixFree()
    ensures InfixFree(QUERIES)
  {
    forall i, j, p: nat | 0 <= i < |QUERIES| && 0 <= j < |QUERIES| && i != j
      ensures !OccursAt(QUERIES[i].0, QUERIES[j].0, p)
    {
      QueriesAreEscapeShaped(i);
      QueriesAreEscapeShaped(j);
      var k := QueriesDiffer(i, j);
      OccursPointwise(QUERIES[i].0, QUERIES[j].0, p);
    }
    forall i | 0 <= i < |QUERIES| ensures QUERIES[i].0 != "" {
      QueriesAreEscapeShaped(i);
    }
  }

  // ---------------------------------------------------------------- the meaning of a stream

  /** Position in the table of a query that starts the stream. */
  predicate StartsWith(table: Table, s: string, i: nat) {
    i < |table| && table[i].0 <= s
  }

  /** The stream so far is the beginning of some query and nothing more. */
  predicate CouldBecomeQuery(table: Table, s: string) {
    exists i | 0 <= i < |table| :: s < table[i].0
  }

  function FirstQuery(table: Table, s: string, from: nat): (r: nat)
    requires from <= |table|
    ensures from <= r <= |table| && (r < |table| ==> StartsWith(table, s, r))
    ensures forall i | from <= i < r :: !StartsWith(table, s, i)
    decreases |table| - from
  {
    if from == |table| || table[from].0 <= s then from else FirstQuery(table, s, from + 1)
  }

  /**
   * What a whole stream means, read from the left: a query at the front is answered, a front that
   * may still become one is held back, and any other character is shown.
   */
  function Meaning(table: Table, s: string): (r: (seq<Item>, string))
    requires forall i | 0 <= i < |table| :: table[i].0 != ""
    decreases |s|
  {
    if s == "" then ([], "")
    else
      var i := FirstQuery(table, s, 0);
      if i < |table| then
        var rest := Meaning(table, s[|table[i].0|..]);
        ([Answered(i)] + rest.0, rest.1)
      else if CouldBecomeQuery(table, s) then ([], s)
      else
        var rest := Meaning(table, s[1..]);
        ([Shown(s[0])] + rest.0, rest.1)
  }

  lemma ReadQuery(table: Table, s: string, i: nat)
    requires forall j | 0 <= j < |table| :: table[j].0 != ""
    requires i < |table| && FirstQuery(table, s, 0) == i
    ensures var (items, held) := Meaning(table, s[|table[i].0|..]);
            Meaning(table, s) == ([Answered(i)] + items, held)
  {}

  lemma ReadCharacter(table: Table, s: string)
    requires forall j | 0 <= j < |table| :: table[j].0 != ""
    requires s != "" && FirstQuery(table, s, 0) == |table| && !CouldBecomeQuery(table, s)
    ensures var (items, held) := Meaning(table, s[1..]);
            Meaning(table, s) == ([Shown(s[0])] + items, held)
  {}

  lemma HoldBack(table: Table, s: string)
    requires forall j | 0 <= j < |table| :: table[j].0 != ""
    requires s == "" || (FirstQuery(table, s, 0) == |table| && CouldBecomeQuery(table, s))
    ensures Meaning(table, s) == ([], s)
  {}

  predicate FromTable(table: Table, items: seq<Item>) {
    forall k | 0 <= k < |items| && items[k].Answered? :: items[k].query < |table|
  }

  /** The input that an item stands for. */
  function ItemSource(table: Table, item: Item): string
    requires item.Answered? ==> item.query < |table|
  {
    match item
    case Shown(c) => [c]
    case Answered(i) => table[i].0
  }

  function Source(table: Table, items: seq<Item>): string
    requires FromTable(table, items)
  {
    if items == [] then "" else ItemSource(table, items[0]) + Source(table, items[1..])
  }

  /** Nothing is lost, invented or reordered: characters shown, queries answered and the held tail rebuild the input. */
  lemma {:induction false} MeaningRebuildsInput(table: Table, s: string)
    requires forall i | 0 <= i < |table| :: table[i].0 != ""
    ensures var (items, held) := Meaning(table, s);
            FromTable(table, items) && Source(table, items) + held == s
    decreases |s|
  {
    hide Meaning, Source, FirstQuery, CouldBecomeQuery;
    var i := FirstQuery(table, s, 0);
    if s == "" || (i == |table| && CouldBecomeQuery(table, s)) {
      HoldBack(table, s);
      assert Source(table, []) == "" by { SourceOfNothing(table); }
    } else if i < |table| {
      var rest := s[|table[i].0|..];
      var (items, held) := Meaning(table, rest);
      ReadQuery(table, s, i);
      MeaningRebuildsInput(table, rest);
      SourceCons(table, Answered(i), items);
      assert s == table[i].0 + (Source(table, items) + held);
    } else {
      var (items, held) := Meaning(table, s[1..]);
      ReadCharacter(table, s);
      MeaningRebuildsInput(table, s[1..]);
      SourceCons(table, Shown(s[0]), items);
      assert s == [s[0]] + (Source(table, items) + held);
    }
  }

  lemma SourceOfNothing(table: Table)
    ensures Source(table, []) == ""
  {}

  lemma SourceCons(table: Table, item: Item, items: seq<Item>)
    requires FromTable(table, items) && (item.Answered? ==> item.query < |table|)
    ensures FromTable(table, [item] + items)
    ensures Source(table, [item] + items) == ItemSource(table, item) + Source(table, items)
  {
    assert ([item] + items)[1..] == items;
  }

  lemma PrefixesNest(a: string, b: string, s: string)
    requires a <= s && b <= s && |a| <= |b|
    ensures OccursAt(a, b, 0)
  {
    assert b[0..|a|] == s[..|a|] == a;
  }

  lemma UniqueStart(table: Table, s: string, i: nat, j: nat)
    requires InfixFree(table) && StartsWith(table, s, i) && StartsWith(table, s, j)
    ensures i == j
  {
    if |table[i].0| <= |table[j].0| {
      PrefixesNest(table[i].0, table[j].0, s);
    } else {
      PrefixesNest(table[j].0, table[i].0, s);
    }
  }

  /** The meaning of a stream in two pieces: the first piece's items, then what its held tail and the rest mean. */
  lemma {:induction false} MeaningOfConcatenation(table: Table, a: string, b: string)
    requires InfixFree(table)
    ensures var (items, held) := Meaning(table, a);
            Meaning(table, a + b) == (items + Meaning(table, held + b).0, Meaning(table, held + b).1)
    decreases |a|
  {
    hide Meaning, CouldBecomeQuery;
    var i := FirstQuery(table, a, 0);
    if a == "" || (i == |table| && CouldBecomeQuery(table, a)) {
      HoldBack(table, a);
      assert [] + Meaning(table, a + b).0 == Meaning(table, a + b).0;
    } else if i < |table| {
      var rest := a[|table[i].0|..];
      ReadQuery(table, a, i);
      assert StartsWith(table, a + b, i);
      UniqueStart(table, a + b, i, FirstQuery(table, a + b, 0));
      ReadQuery(table, a + b, i);
      assert (a + b)[|table[i].0|..] == rest + b;
      MeaningOfConcatenation(table, rest, b);
      var (items, held) := Meaning(table, rest);
      var more := Meaning(table, held + b).0;
      assert [Answered(i)] + (items + more) == [Answered(i)] + items + more;
    } else {
      ReadCharacter(table, a);
      StillNoQuery(table, a, b);
      ReadCharacter(table, a + b);
      assert (a + b)[1..] == a[1..] + b;
      MeaningOfConcatenation(table, a[1..], b);
      var (items, held) := Meaning(table, a[1..]);
      var more := Meaning(table, held + b).0;
      assert [Shown(a[0])] + (items + more) == [Shown(a[0])] + items + more;
    }
  }

  lemma PrefixOfJoin(q: string, a: string, b: string)
    ensures q <= a + b ==> q <= a || a < q
    ensures a + b < q ==> a < q
  {
    assert (a + b)[..|a|] == a;
    if |q| <= |a| {
      assert (a + b)[..|q|] == a[..|q|];
    } else {
      assert a + b <= q ==> q[..|a|] == (a + b)[..|a|];
      assert q <= a + b ==> q[..|a|] == (a + b)[..|a|];
    }
  }

  /** More input cannot turn a front that is neither a query nor the beginning of one into either. */
  lemma StillNoQuery(table: Table, a: string, b: string)
    requires a != "" && FirstQuery(table, a, 0) == |table| && !CouldBecomeQuery(table, a)
    ensures FirstQuery(table, a + b, 0) == |table| && !CouldBecomeQuery(table, a + b)
  {
    forall i | 0 <= i < |table| ensures !(table[i].0 <= a + b) && !(a + b < table[i].0) {
      assert !StartsWith(table, a, i);
      PrefixOfJoin(table[i].0, a, b);
    }
  }

  /** What feeding chunk after chunk leaves: items let out so far, and the held tail. */
  function FeedAll(table: Table, chunks: seq<string>): (seq<Item>, string)
    requires forall i | 0 <= i < |table| :: table[i].0 != ""
  {
    if chunks == [] then ([], "")
    else
      var (items, held) := FeedAll(table, chunks[..|chunks| - 1]);
      var (more, tail) := Meaning(table, held + chunks[|chunks| - 1]);
      (items + more, tail)
  }

  function Concatenated(chunks: seq<string>): string {
    if chunks == [] then "" else Concatenated(chunks[..|chunks| - 1]) + chunks[|chunks| - 1]
  }

  /** Chunk invariance: how the input was cut up can be seen neither in what was let out nor in what is held. */
  lemma {:induction false} ChunkingIsInvisible(table: Table, chunks: seq<string>)
    requires InfixFree(table)
    ensures FeedAll(table, chunks) == Meaning(table, Concatenated(chunks))
  {
    if chunks != [] {
      ChunkingIsInvisible(table, chunks[..|chunks| - 1]);
      MeaningOfConcatenation(table, Concatenated(chunks[..|chunks| - 1]), chunks[|chunks| - 1]);
    }
  }

  lemma SameInputSameOutput(chunks: seq<string>, others: seq<string>)
    requires Concatenated(chunks) == Concatenated(others)
    ensures FeedAll(QUERIES, chunks) == FeedAll(QUERIES, others)
  {
    QueriesInfixFree();
    ChunkingIsInvisible(QUERIES, chunks);
    ChunkingIsInvisible(QUERIES, others);
  }

  // ---------------------------------------------------------------- how the scanner relates to the meaning

  function Characters(s: string): seq<Item> {
    seq(|s|, i requires 0 <= i < |s| => Shown(s[i]))
  }

  /** No query starts before position p. */
  ghost predicate NoQueryBefore(table: Table, s: string, p: int) {
    forall i, x: nat | 0 <= i < |table| && x < p :: !OccursAt(table[i].0, s, x)
  }

  lemma NoQueryAtFront(table: Table, s: string, p: int)
    requires NoQueryBefore(table, s, p) && p > 0
    ensures FirstQuery(table, s, 0) == |table|
  {
    forall i | 0 <= i < |table| ensures !(table[i].0 <= s) {
      assert !OccursAt(table[i].0, s, 0);
    }
  }

  lemma NoQueryShift(table: Table, s: string, p: int)
    requires NoQueryBefore(table, s, p) && s != ""
    ensures NoQueryBefore(table, s[1..], p - 1)
  {
    forall i, x: nat | 0 <= i < |table| && x < p - 1 ensures !OccursAt(table[i].0, s[1..], x) {
      assert !OccursAt(table[i].0, s, x + 1);
      assert x + |table[i].0| <= |s[1..]| ==> s[1..][x..x + |table[i].0|] == s[x + 1..x + 1 + |table[i].0|];
    }
  }

  /** Taking out the leftmost query, as the scanner does, is reading from the left. */
  lemma {:induction false} MeaningOfLeftmost(table: Table, s: string, i: nat, p: nat)
    requires InfixFree(table) && i < |table| && OccursAt(table[i].0, s, p) && NoQueryBefore(table, s, p)
    ensures var (items, held) := Meaning(table, s[p + |table[i].0|..]);
            Meaning(table, s) == (Characters(s[..p]) + [Answered(i)] + items, held)
    decreases p
  {
    hide Meaning, CouldBecomeQuery, Characters;
    var q := table[i].0;
    var items := Meaning(table, s[p + |q|..]).0;
    if p == 0 {
      assert StartsWith(table, s, i);
      UniqueStart(table, s, i, FirstQuery(table, s, 0));
      ReadQuery(table, s, i);
      CharactersCons(s[..0]);
      assert [] + [Answered(i)] + items == [Answered(i)] + items;
    } else {
      NoQueryAtFront(table, s, p);
      NoQueryShift(table, s, p);
      InsideLonger(table, s, i, p);
      ReadCharacter(table, s);
      assert s[1..][p - 1..p - 1 + |q|] == s[p..p + |q|];
      assert s[1..][p - 1 + |q|..] == s[p + |q|..];
      MeaningOfLeftmost(table, s[1..], i, p - 1);
      CharactersCons(s[..p]);
      assert s[..p][1..] == s[1..][..p - 1];
      var shown := Characters(s[1..][..p - 1]);
      assert [Shown(s[0])] + (shown + [Answered(i)] + items) == [Shown(s[0])] + shown + [Answered(i)] + items;
    }
  }

  lemma CharactersCons(s: string)
    ensures Characters(s) == if s == "" then [] else [Shown(s[0])] + Characters(s[1..])
  {}

  lemma OccursInLonger(q: string, s: string, b: string, p: nat)
    requires OccursAt(q, s, p) && s <= b
    ensures OccursAt(q, b, p)
  {
    assert b[p..p + |q|] == s[p..p + |q|];
  }

  lemma InsideLonger(table: Table, s: string, i: nat, p: nat)
    requires InfixFree(table) && i < |table| && OccursAt(table[i].0, s, p)
    ensures !CouldBecomeQuery(table, s)
  {
    if CouldBecomeQuery(table, s) {
      var j :| 0 <= j < |table| && s < table[j].0;
      OccursInLonger(table[i].0, s, table[j].0, p);
    }
  }

  /** The suffix of length n of s is a proper beginning of some query. */
  predicate Holds(table: Table, s: string, n: nat) {
    n <= |s| && exists i | 0 <= i < |table| :: 0 < n < |table[i].0| && s[|s| - n..] == table[i].0[..n]
  }

  /** With no query left, the longest suffix that may still become one is held back and the rest is shown. */
  lemma {:induction false} MeaningOfTail(table: Table, s: string, keep: nat)
    requires InfixFree(table) && NoQueryBefore(table, s, |s|)
    requires keep <= |s| && (keep > 0 ==> Holds(table, s, keep))
    requires forall n: nat | keep < n <= |s| :: !Holds(table, s, n)
    ensures Meaning(table, s) == (Characters(s[..|s| - keep]), s[|s| - keep..])
    decreases |s|
  {
    hide Meaning, Characters;
    if s == "" {
      HoldBack(table, s);
      CharactersCons(s[..0]);
      return;
    }
    NoQueryAtFront(table, s, |s|);
    if keep == |s| {
      var j :| 0 <= j < |table| && keep < |table[j].0| && s[|s| - keep..] == table[j].0[..keep];
      assert s < table[j].0;
      HoldBack(table, s);
      CharactersCons(s[..0]);
    } else {
      WholeIsNotHeld(table, s);
      ReadCharacter(table, s);
      NoQueryShift(table, s, |s|);
      forall n: nat | n <= |s[1..]| ensures Holds(table, s[1..], n) == Holds(table, s, n) {
        assert s[1..][|s[1..]| - n..] == s[|s| - n..];
      }
      MeaningOfTail(table, s[1..], keep);
      assert s[1..][|s[1..]| - keep..] == s[|s| - keep..];
      CharactersCons(s[..|s| - keep]);
      assert s[..|s| - keep][1..] == s[1..][..|s[1..]| - keep];
    }
  }

  lemma WholeIsNotHeld(table: Table, s: string)
    requires s != "" && !Holds(table, s, |s|)
    ensures !CouldBecomeQuery(table, s)
  {
    assert s[|s| - |s|..] == s;
    assert forall i | 0 <= i < |table| && s < table[i].0 :: s == table[i].0[..|s|];
  }

  // ---------------------------------------------------------------- the terminal's input queue

  /** What is waiting for the child to read; `accepted` and `written` remember everything ever sent and delivered. */
  class InputQueue {
    var pending: string
    ghost var accepted: string
    ghost var written: string
    /** A write has thrown. */
    ghost var broken: bool

    ghost predicate Valid()
      reads this
    {
      accepted == written + pending && |pending| <= MAX_PENDING_INPUT
    }

    constructor ()
      ensures Valid() && accepted == "" && !broken
    {
      pending, accepted, written, broken := "", "", "", false;
    }

    /** The text cannot be sent: a write has thrown, or there is no room for it. */
    ghost predicate Refuses(text: string)
      reads this
    {
      broken || |pending| + |text| > MAX_PENDING_INPUT
    }

    /** One write to the child, which takes any part of what is pending, none of it, or fails. */
    method FlushInput() returns (ok: bool)
      requires Valid()
      modifies this
      ensures Valid() && accepted == old(accepted) && old(written) <= written
      ensures !ok ==> written == old(written) && broken
      ensures ok ==> broken == old(broken)
    {
      if pending == "" {
        return true;
      }
      var failed: bool :| true;
      if failed {
        broken := true;
        return false;
      }
      var count: nat :| count <= |pending|;
      written := written + pending[..count];
      pending := pending[count..];
      assert accepted == written + pending;
      return true;
    }

    /** Accepts the text whole or not at all; what is accepted reaches the child in order, once. */
    method Send(text: string) returns (ok: bool)
      requires Valid()
      modifies this
      ensures Valid()
      ensures |old(pending)| + |text| > MAX_PENDING_INPUT ==> !ok && pending == old(pending)
      ensures accepted == if |old(pending)| + |text| > MAX_PENDING_INPUT then old(accepted) else old(accepted) + text
      ensures old(written) <= written
      ensures if ok then broken == old(broken) else Refuses(text)
    {
      if |pending| + |text| > MAX_PENDING_INPUT {
        return false;
      }
      pending := pending + text;
      accepted := accepted + text;
      ok := FlushInput();
    }
  }

  // ---------------------------------------------------------------- the scanner

  function ReplyTo(table: Table, item: Item): string
    requires item.Answered? ==> item.query < |table|
  {
    match item
    case Answered(i) => table[i].1
    case Shown(_) => ""
  }

  /** The replies that the answered queries of a list of items call for, in order. */
  function Replies(table: Table, items: seq<Item>): string
    requires FromTable(table, items)
  {
    if items == [] then ""
    else
      Replies(table, items[..|items| - 1]) + ReplyTo(table, items[|items| - 1])
  }

  lemma RepliesAppend(table: Table, items: seq<Item>, item: Item)
    requires FromTable(table, items) && (item.Answered? ==> item.query < |table|)
    ensures FromTable(table, items + [item])
    ensures Replies(table, items + [item]) == Replies(table, items) + ReplyTo(table, item)
  {
    assert (items + [item])[..|items|] == items;
  }

  lemma {:induction false} CharactersCallForNoReply(table: Table, items: seq<Item>, text: string)
    requires FromTable(table, items)
    ensures FromTable(table, items + Characters(text))
    ensures Replies(table, items + Characters(text)) == Replies(table, items)
  {
    if text == "" {
      assert items + Characters(text) == items;
    } else {
      var init := text[..|text| - 1];
      CharactersCallForNoReply(table, items, init);
      assert items + Characters(text) == items + Characters(init) + [Shown(text[|text| - 1])];
      RepliesAppend(table, items + Characters(init), Shown(text[|text| - 1]));
    }
  }

  /** Python's string order, by code point. */
  predicate StringLess(a: string, b: string) {
    if b == "" then false
    else if a == "" then true
    else a[0] < b[0] || (a[0] == b[0] && StringLess(a[1..], b[1..]))
  }

  /** `str.find`: the first position of q in s, or -1. */
  method Find(s: string, q: string) returns (position: int)
    ensures position >= 0 ==> OccursAt(q, s, position)
    ensures forall x: nat | position < 0 || x < position :: !OccursAt(q, s, x)
  {
    position := 0;
    while position + |q| <= |s|
      invariant 0 <= position
      invariant forall x: nat | x < position :: !OccursAt(q, s, x)
    {
      if s[position..position + |q|] == q {
        return;
      }
      position := position + 1;
    }
    position := -1;
  }

  /** The least pair of position and query among the queries found; -1 when there is none. */
  method LeastMatch(table: Table, s: string) returns (position: int, query: nat)
    ensures position < 0 ==> NoQueryBefore(table, s, |s| + 1)
    ensures position >= 0 ==>
              query < |table| && OccursAt(table[query].0, s, position) && NoQueryBefore(table, s, position)
  {
    position, query := -1, 0;
    for i := 0 to |table|
      invariant position < 0 ==> forall j, x: nat | 0 <= j < i :: !OccursAt(table[j].0, s, x)
      invariant position >= 0 ==>
                  && query < i && OccursAt(table[query].0, s, position)
                  && forall j, x: nat | 0 <= j < i && x < position :: !OccursAt(table[j].0, s, x)
    {
      var found := Find(s, table[i].0);
      if found >= 0 && (position < 0 || found < position
                        || (found == position && StringLess(table[i].0, table[query].0))) {
        position, query := found, i;
      }
    }
  }

  /** The length of the longest suffix of s that is a proper beginning of some query. */
  method LongestHeld(table: Table, s: string) returns (keep: nat)
    requires forall i | 0 <= i < |table| :: table[i].0 != ""
    ensures keep <= |s| && (keep > 0 ==> Holds(table, s, keep))
    ensures forall n: nat | keep < n <= |s| :: !Holds(table, s, n)
  {
    keep := 0;
    for i := 0 to |table|
      invariant keep <= |s| && (keep > 0 ==> Holds(table, s, keep))
      invariant forall n: nat, j | keep < n <= |s| && 0 <= j < i && n < |table[j].0| :: s[|s| - n..] != table[j].0[..n]
    {
      for length := 1 to |table[i].0|
        invariant keep <= |s| && (keep > 0 ==> Holds(table, s, keep))
        invariant forall n: nat, j | keep < n <= |s| && 0 <= j < i && n < |table[j].0| ::
                  s[|s| - n..] != table[j].0[..n]
        invariant forall n: nat | keep < n <= |s| && n < length && n < |table[i].0| :: s[|s| - n..] != table[i].0[..n]
      {
        if length <= |s| && s[|s| - length..] == table[i].0[..length] && length > keep {
          keep := length;
        }
      }
    }
  }

  class Display {
    const table: Table
    const input: InputQueue
    var pending: string
    /** Everything let out so far: what the screen was fed and which queries were answered, in order. */
    var items: seq<Item>

    ghost predicate Valid()
      reads this, input
    {
      InfixFree(table) && input.Valid() && FromTable(table, items)
    }

    constructor (input: InputQueue)
      requires input.Valid()
      ensures Valid() && table == QUERIES && this.input == input && items == [] && pending == ""
    {
      table, this.input, pending, items := QUERIES, input, "", [];
      new;
      QueriesInfixFree();
    }

    method StreamFeed(text: string)
      requires Valid()
      modifies this`items
      ensures Valid() && items == old(items) + Characters(text)
    {
      items := items + Characters(text);
    }

    method Reply(i: nat) returns (ok: bool)
      requires Valid() && i < |table|
      modifies this`items, input
      ensures Valid()
      ensures ok ==> items == old(items) + [Answered(i)] && input.accepted == old(input.accepted) + table[i].1
      ensures !ok ==> items == old(items) && input.Refuses(table[i].1)
    {
      ok := input.Send(table[i].1);
      if ok {
        items := items + [Answered(i)];
      }
    }

    /** Shows what stands before the leftmost query, answers the query, and cuts both off. */
    method TakeMatch(position: nat, query: nat, ghost out: seq<Item>) returns (ok: bool)
      requires Valid() && query < |table| && OccursAt(table[query].0, pending, position) && FromTable(table, out)
      modifies this`items, this`pending, input
      ensures Valid()
      ensures var front := Characters(old(pending)[..position]) + [Answered(query)];
              && FromTable(table, out + front)
              && Replies(table, out + front) == Replies(table, out) + table[query].1
              && (ok ==> items == old(items) + front && pending == old(pending)[position + |table[query].0|..])
              && (!ok ==> items == old(items) + front[..|front| - 1] && input.Refuses(table[query].1))
      ensures ok ==> input.accepted == old(input.accepted) + table[query].1
    {
      hide Replies, FromTable;
      ghost var shown := Characters(pending[..position]);
      StreamFeed(pending[..position]);
      CharactersCallForNoReply(table, out, pending[..position]);
      RepliesAppend(table, out + shown, Answered(query));
      assert out + shown + [Answered(query)] == out + (shown + [Answered(query)]);
      ok := Reply(query);
      if ok {
        pending := pending[position + |table[query].0|..];
      }
    }

    /** The loop of `feed`: answers every query in the held output and shows what stands before the last one. */
    method AnswerQueries() returns (ok: bool, ghost out: seq<Item>, ghost due: nat)
      requires Valid()
      modifies this`items, this`pending, input
      ensures Valid() && FromTable(table, out)
      ensures ok ==>
                && NoQueryBefore(table, pending, |pending|)
                && Meaning(table, old(pending)) == (out + Meaning(table, pending).0, Meaning(table, pending).1)
                && items == old(items) + out && input.accepted == old(input.accepted) + Replies(table, out)
      ensures !ok ==> items == old(items) + out && StoppedAt(out, Meaning(table, old(pending)).0, due)
                      && due < |table| && input.Refuses(table[due].1)
    {
      hide Meaning, Replies, Characters, FromTable, OccursAt, StoppedAt;
      out, due := [], 0;
      NoRepliesYet(table);
      assert [] + Meaning(table, pending).0 == Meaning(table, pending).0;
      while true
        invariant Valid() && items == old(items) + out && FromTable(table, out)
        invariant Meaning(table, old(pending)) == (out + Meaning(table, pending).0, Meaning(table, pending).1)
        invariant input.accepted == old(input.accepted) + Replies(table, out)
        decreases |pending|
      {
        var position, query := LeastMatch(table, pending);
        if position < 0 {
          return true, out, due;
        }
        MatchFits(table, pending, query, position);
        ghost var front := Characters(pending[..position]) + [Answered(query)];
        AnswerStep(table, old(pending), out, pending, query, position);
        var taken := TakeMatch(position, query, out);
        if !taken {
          FromTableInit(table, out + front);
          assert (out + front)[..|out + front| - 1] == out + front[..|front| - 1];
          out := out + front[..|front| - 1];
          return false, out, query;
        }
        out := out + front;
      }
    }

    /**
     * One chunk of output: what is let out and held back is the meaning of the held tail and the
     * chunk, and the child has been sent exactly the replies this calls for. It fails only at a reply
     * that is due and cannot be sent, having let out everything before it.
     */
    method Feed(chunk: string) returns (ok: bool, ghost due: nat)
      requires Valid()
      modifies this`items, this`pending, input
      ensures Valid()
      ensures ok ==> items == old(items) + Meaning(table, old(pending) + chunk).0
      ensures ok ==> pending == Meaning(table, old(pending) + chunk).1
      ensures ok ==> FromTable(table, Meaning(table, old(pending) + chunk).0)
                     && input.accepted == old(input.accepted) + Replies(table, Meaning(table, old(pending) + chunk).0)
      ensures !ok ==> old(items) <= items
                      && StoppedAt(items[|old(items)|..], Meaning(table, old(pending) + chunk).0, due)
                      && due < |table| && input.Refuses(table[due].1)
    {
      hide Meaning, Replies, Characters, FromTable, OccursAt;
      pending := pending + chunk;
      ghost var out;
      ok, out, due := AnswerQueries();
      if !ok {
        return;
      }
      var keep := LongestHeld(table, pending);
      MeaningOfTail(table, pending, keep);
      StreamFeed(pending[..|pending| - keep]);
      CharactersCallForNoReply(table, out, pending[..|pending| - keep]);
      pending := pending[|pending| - keep..];
    }
  }

  lemma FromTableInit(table: Table, items: seq<Item>)
    requires FromTable(table, items) && items != []
    ensures FromTable(table, items[..|items| - 1])
    ensures var item := items[|items| - 1]; item.Answered? ==> item.query < |table|
  {}

  lemma {:induction false} RepliesConcatenated(table: Table, a: seq<Item>, b: seq<Item>)
    requires FromTable(table, a) && FromTable(table, b)
    ensures FromTable(table, a + b) && Replies(table, a + b) == Replies(table, a) + Replies(table, b)
  {
    hide FromTable, Replies;
    if b == [] {
      NoRepliesYet(table);
      assert a + b == a;
    } else {
      var before, item := b[..|b| - 1], b[|b| - 1];
      FromTableInit(table, b);
      RepliesConcatenated(table, a, before);
      assert b == before + [item] && a + b == (a + before) + [item];
      RepliesAppend(table, a + before, item);
      RepliesAppend(table, before, item);
      assert (Replies(table, a) + Replies(table, before)) + ReplyTo(table, item)
             == Replies(table, a) + (Replies(table, before) + ReplyTo(table, item));
    }
  }

  lemma {:induction false} BeginningOfMeaning(table: Table, chunks: seq<string>, n: nat)
    requires InfixFree(table) && n <= |chunks|
    ensures Meaning(table, Concatenated(chunks[..n])).0 <= Meaning(table, Concatenated(chunks)).0
  {
    hide Meaning;
    if n == |chunks| {
      assert chunks[..n] == chunks;
    } else {
      var before := chunks[..|chunks| - 1];
      BeginningOfMeaning(table, before, n);
      assert before[..n] == chunks[..n];
      MeaningOfConcatenation(table, Concatenated(before), chunks[|chunks| - 1]);
    }
  }

  /**
   * A display from its start: after any chunks it has let out, and holds back, exactly what the whole
   * input means, and the child has been sent exactly the replies this calls for. It stops only at a reply
   * that is due and cannot be sent, having let out everything before it.
   */
  method FeedChunks(chunks: seq<string>) returns (ok: bool, display: Display, ghost due: nat)
    ensures fresh(display) && display.Valid() && display.table == QUERIES
    ensures !ok ==> StoppedAt(display.items, Meaning(QUERIES, Concatenated(chunks)).0, due)
                    && due < |QUERIES| && display.input.Refuses(QUERIES[due].1)
    ensures ok ==> display.items == Meaning(QUERIES, Concatenated(chunks)).0
    ensures ok ==> display.pending == Meaning(QUERIES, Concatenated(chunks)).1
    ensures ok ==> FromTable(QUERIES, display.items) && display.input.accepted == Replies(QUERIES, display.items)
  {
    hide Meaning, Replies, FromTable, InfixFree, StoppedAt;
    QueriesInfixFree();
    var input := new InputQueue();
    display := new Display(input);
    NoRepliesYet(QUERIES);
    NothingFed();
    for n := 0 to |chunks|
      invariant fresh(display) && fresh(display.input) && display.Valid() && display.table == QUERIES
      invariant display.items == Meaning(QUERIES, Concatenated(chunks[..n])).0
      invariant display.pending == Meaning(QUERIES, Concatenated(chunks[..n])).1
      invariant FromTable(QUERIES, display.items) && display.input.accepted == Replies(QUERIES, display.items)
    {
      ghost var items, held := display.items, display.pending;
      assert chunks[..n + 1][..n] == chunks[..n];
      MeaningOfConcatenation(QUERIES, Concatenated(chunks[..n]), chunks[n]);
      BeginningOfMeaning(QUERIES, chunks, n + 1);
      ok, due := display.Feed(chunks[n]);
      if !ok {
        ghost var out, whole := display.items[|items|..], Meaning(QUERIES, held + chunks[n]).0;
        ghost var all := Meaning(QUERIES, Concatenated(chunks)).0;
        StoppedFurtherOn(items, out, whole, [], due);
        assert display.items == items + out && all == (items + whole) + all[|items + whole|..];
        StoppedFurtherOn([], items + out, items + whole, all[|items + whole|..], due);
        return;
      }
      RepliesConcatenated(QUERIES, items, Meaning(QUERIES, held + chunks[n]).0);
    }
    assert chunks[..|chunks|] == chunks;
    ok, due := true, 0;
  }

  lemma NothingFed()
    requires forall i | 0 <= i < |QUERIES| :: QUERIES[i].0 != ""
    ensures Meaning(QUERIES, Concatenated([])) == ([], "")
  {}

  /** What was let out is a beginning of the whole, and next in line is the answer to this query. */
  predicate StoppedAt(out: seq<Item>, whole: seq<Item>, due: nat) {
    |out| < |whole| && out == whole[..|out|] && whole[|out|] == Answered(due)
  }

  lemma StoppedFurtherOn(before: seq<Item>, out: seq<Item>, whole: seq<Item>, more: seq<Item>, due: nat)
    requires StoppedAt(out, whole, due)
    ensures StoppedAt(out, whole + more, due) && StoppedAt(before + out, before + whole, due)
  {
    assert (before + whole)[..|before + out|] == before + out;
  }

  lemma AnswerStep(table: Table, whole: string, out: seq<Item>, s: string, query: nat, position: nat)
    requires InfixFree(table) && query < |table| && OccursAt(table[query].0, s, position)
             && NoQueryBefore(table, s, position)
    requires Meaning(table, whole) == (out + Meaning(table, s).0, Meaning(table, s).1)
    ensures position + |table[query].0| <= |s|
    ensures var front, rest := Characters(s[..position]) + [Answered(query)], s[position + |table[query].0|..];
            && Meaning(table, whole) == (out + front + Meaning(table, rest).0, Meaning(table, rest).1)
            && StoppedAt(out + front[..|front| - 1], Meaning(table, whole).0, query)
  {
    hide Meaning, Characters, NoQueryBefore;
    MatchFits(table, s, query, position);
    MeaningOfLeftmost(table, s, query, position);
    var front, rest := Characters(s[..position]) + [Answered(query)], s[position + |table[query].0|..];
    assert out + (front + Meaning(table, rest).0) == out + front + Meaning(table, rest).0;
    assert out + front == (out + front[..|front| - 1]) + front[|front| - 1..];
    assert front[|front| - 1] == Answered(query);
    assert (out + front + Meaning(table, rest).0)[|out| + |front| - 1] == front[|front| - 1];
  }

  lemma MatchFits(table: Table, s: string, query: nat, position: nat)
    requires InfixFree(table) && query < |table| && OccursAt(table[query].0, s, position)
    ensures position + |table[query].0| <= |s| && |table[query].0| > 0
  {}

  lemma NoRepliesYet(table: Table)
    ensures FromTable(table, []) && Replies(table, []) == ""
  {}
}
