/**
 * The kanban board (TaskKanban.tsx): one ordered list of cards shared by four
 * columns, rebuilt from the server's task list, reordered by drag and drop,
 * pruned by the burn barrel and extended optimistically by the per-column
 * "add card" form. Every call to the task API is recorded in a request log.
 */
module TaskKanban {
  import opened Common
  import Text

  /** A column id. The source casts the server's status with `as ColumnType`
      without checking it, so any string can end up here. */
  type ColumnId = string

  const Backlog: ColumnId := "backlog"
  const Todo: ColumnId := "todo"
  const Doing: ColumnId := "doing"
  const Done: ColumnId := "done"

  /** `data-before` of the drop indicator that ends every column. */
  const EndSentinel: string := "-1"

  /** DISTANCE_OFFSET: an indicator's anchor lies this many pixels below its top. */
  const DistanceOffset: int := 50

  /** A task as the server returns it. */
  datatype Task = Task(
    id: string,
    title: string,
    status: Option<string>,
    duration: Option<int>,
    importance: Option<string>,
    scheduledTime: Option<string>)

  /** CardType. */
  datatype Card = Card(
    id: string,
    title: string,
    column: ColumnId,
    duration: Option<int>,
    importance: Option<string>,
    scheduledTime: Option<string>)

  /** The body of a create request; `scheduledTime` is omitted when None. */
  datatype CreatePayload = CreatePayload(
    title: string,
    duration: int,
    importance: string,
    status: ColumnId,
    scheduledTime: Option<string>)

  /** A call to the task API. */
  datatype Request =
    | UpdateStatus(taskId: string, status: ColumnId)
    | UpdateScheduledTime(taskId: string, scheduledTime: string)
    | Delete(taskId: string)
    | Create(payload: CreatePayload)

  // ---------------------------------------------------------------------------
  // Loading the board from the server

  /** `(task.status || 'todo')`: a missing or empty status falls back to `todo`. */
  function ColumnOfStatus(status: Option<string>): ColumnId {
    if status.Some? && status.value != "" then status.value else Todo
  }

  function CardOfTask(t: Task): Card {
    Card(t.id, t.title, ColumnOfStatus(t.status), t.duration, t.importance, t.scheduledTime)
  }

  /** The board's card list for a server task list, one card per task in the same order. */
  function CardsFromTasks(tasks: seq<Task>): (cards: seq<Card>)
    ensures |cards| == |tasks|
    ensures forall i :: 0 <= i < |tasks| ==>
      && cards[i].id == tasks[i].id
      && cards[i].title == tasks[i].title
      && cards[i].duration == tasks[i].duration
      && cards[i].importance == tasks[i].importance
      && cards[i].scheduledTime == tasks[i].scheduledTime
      && (tasks[i].status.Some? && tasks[i].status.value != "" ==> cards[i].column == tasks[i].status.value)
      && (tasks[i].status.None? || tasks[i].status == Some("") ==> cards[i].column == Todo)
  {
    seq(|tasks|, i requires 0 <= i < |tasks| => CardOfTask(tasks[i]))
  }

  // ---------------------------------------------------------------------------
  // List primitives: findIndex, find, filter and splice

  /** `cards.findIndex(c => c.id === id)`: the first index holding `id`, or -1. */
  function FindIndex(cards: seq<Card>, id: string): (k: int)
    ensures -1 <= k < |cards|
    ensures k >= 0 ==> cards[k].id == id && forall j :: 0 <= j < k ==> cards[j].id != id
    ensures k == -1 <==> forall j :: 0 <= j < |cards| ==> cards[j].id != id
  {
    if cards == [] then -1
    else if cards[0].id == id then 0
    else
      var k := FindIndex(cards[1..], id);
      if k == -1 then -1 else k + 1
  }

  /** `cards.find(c => c.id === id)`. */
  function Find(cards: seq<Card>, id: string): Option<Card> {
    var k := FindIndex(cards, id);
    if k < 0 then None else Some(cards[k])
  }

  /** The number of cards carrying `id`. */
  function CountId(cards: seq<Card>, id: string): nat {
    if cards == [] then 0 else (if cards[0].id == id then 1 else 0) + CountId(cards[1..], id)
  }

  /** `cards.filter(c => c.id !== id)`. */
  function RemoveId(cards: seq<Card>, id: string): (r: seq<Card>)
    ensures |r| == |cards| - CountId(cards, id)
  {
    if cards == [] then []
    else (if cards[0].id == id then [] else [cards[0]]) + RemoveId(cards[1..], id)
  }

  /** `filteredCards`: the cards shown in one column, in list order. */
  function ColumnView(cards: seq<Card>, column: ColumnId): (r: seq<Card>)
    ensures |r| <= |cards|
    ensures forall i :: 0 <= i < |r| ==> r[i].column == column
  {
    if cards == [] then []
    else (if cards[0].column == column then [cards[0]] else []) + ColumnView(cards[1..], column)
  }

  /** The filter keeps exactly the cards without the id. */
  lemma {:induction false} RemoveIdMembers(cards: seq<Card>, id: string)
    ensures forall c :: c in RemoveId(cards, id) <==> c in cards && c.id != id
  {
    if cards != [] {
      RemoveIdMembers(cards[1..], id);
      assert cards == [cards[0]] + cards[1..];
    }
  }

  /** A column shows exactly the cards whose column it is. */
  lemma {:induction false} ColumnViewMembers(cards: seq<Card>, column: ColumnId)
    ensures forall c :: c in ColumnView(cards, column) <==> c in cards && c.column == column
  {
    if cards != [] {
      ColumnViewMembers(cards[1..], column);
      assert cards == [cards[0]] + cards[1..];
    }
  }

  /** Where `Array.prototype.splice(start, 0, x)` inserts: a negative start counts from the end. */
  function SpliceIndex(len: nat, start: int): (k: nat)
    ensures k <= len
    ensures 0 <= start <= len ==> k == start
    ensures start == -1 ==> k == if len == 0 then 0 else len - 1
  {
    if start < 0 then (if len + start < 0 then 0 else len + start)
    else if start > len then len
    else start
  }

  /** `copy.splice(start, 0, x)` on a copy. */
  function SpliceInsert(s: seq<Card>, start: int, x: Card): (r: seq<Card>)
    ensures |r| == |s| + 1
  {
    var k := SpliceIndex(|s|, start);
    s[..k] + [x] + s[k..]
  }

  // ---------------------------------------------------------------------------
  // Moving a card (the list manipulation of handleDragEnd)

  /** The list after dropping `cardId` into `column` before the card `before`
      (or at the end for the sentinel), or None when the drop changes nothing:
      the card is dropped on its own slot, or it is not on the board. */
  function Move(cards: seq<Card>, cardId: string, column: ColumnId, before: string): (r: Option<seq<Card>>)
    ensures r.None? <==> before == cardId || FindIndex(cards, cardId) < 0
    ensures r.Some? ==> |r.value| == |RemoveId(cards, cardId)| + 1
  {
    if before == cardId then None
    else
      var k := FindIndex(cards, cardId);
      if k < 0 then None
      else
        var moved := cards[k].(column := column);
        var rest := RemoveId(cards, cardId);
        if before == EndSentinel then Some(rest + [moved])
        else Some(SpliceInsert(rest, FindIndex(rest, before), moved))
  }

  lemma {:induction false} RemoveIdConcat(a: seq<Card>, b: seq<Card>, id: string)
    ensures RemoveId(a + b, id) == RemoveId(a, id) + RemoveId(b, id)
  {
    if a == [] {
      assert a + b == b;
    } else {
      assert (a + b)[1..] == a[1..] + b;
      RemoveIdConcat(a[1..], b, id);
    }
  }

  lemma {:induction false} ColumnViewConcat(a: seq<Card>, b: seq<Card>, column: ColumnId)
    ensures ColumnView(a + b, column) == ColumnView(a, column) + ColumnView(b, column)
  {
    if a == [] {
      assert a + b == b;
    } else {
      assert (a + b)[1..] == a[1..] + b;
      ColumnViewConcat(a[1..], b, column);
    }
  }

  /** Filtering an id that no card carries changes nothing. */
  lemma {:induction false} RemoveIdAbsent(s: seq<Card>, id: string)
    requires forall i :: 0 <= i < |s| ==> s[i].id != id
    ensures RemoveId(s, id) == s
  {
    if s != [] {
      RemoveIdAbsent(s[1..], id);
    }
  }

  /** A column view of cards that all lie in other columns is empty. */
  lemma {:induction false} ColumnViewNone(s: seq<Card>, column: ColumnId)
    requires forall i :: 0 <= i < |s| ==> s[i].column != column
    ensures ColumnView(s, column) == []
  {
    if s != [] {
      ColumnViewNone(s[1..], column);
    }
  }

  /** Removing the cards with an id drops exactly those; as multisets of ids, the rest is untouched. */
  lemma {:induction false} RemoveIdMultiset(s: seq<Card>, id: string)
    ensures multiset(Ids(RemoveId(s, id))) == multiset(Ids(s))[id := 0]
  {
    if s != [] {
      var t := s[1..];
      RemoveIdMultiset(t, id);
      var head := if s[0].id == id then [] else [s[0]];
      IdsConcat(head, RemoveId(t, id));
      assert multiset(Ids(RemoveId(s, id))) == multiset(Ids(head)) + multiset(Ids(RemoveId(t, id)));
    }
  }

  /** The multiset of ids counts each id as often as cards carry it. */
  lemma {:induction false} CountIdMultiset(s: seq<Card>, id: string)
    ensures multiset(Ids(s))[id] == CountId(s, id)
  {
    if s != [] {
      CountIdMultiset(s[1..], id);
    }
  }

  /** The ids of the cards, in list order. */
  function Ids(cards: seq<Card>): (ids: seq<string>)
    ensures |ids| == |cards|
  {
    if cards == [] then [] else [cards[0].id] + Ids(cards[1..])
  }

  lemma {:induction false} IdsConcat(a: seq<Card>, b: seq<Card>)
    ensures Ids(a + b) == Ids(a) + Ids(b)
  {
    if a != [] {
      assert (a + b)[1..] == a[1..] + b;
      IdsConcat(a[1..], b);
    } else {
      assert a + b == b;
    }
  }

  /** Where Move puts the card in the filtered list: at the end for the sentinel,
      at `splice`'s index of `findIndex(before)` otherwise. */
  function MovePosition(rest: seq<Card>, before: string): (i: nat)
    ensures i <= |rest|
  {
    if before == EndSentinel then |rest| else SpliceIndex(|rest|, FindIndex(rest, before))
  }

  /** Both branches of Move insert the moved card into the filtered list. */
  lemma MoveShape(cards: seq<Card>, cardId: string, column: ColumnId, before: string)
    requires Move(cards, cardId, column, before).Some?
    ensures var rest := RemoveId(cards, cardId);
      var i := MovePosition(rest, before);
      && Find(cards, cardId).Some?
      && Move(cards, cardId, column, before).value
         == rest[..i] + [Find(cards, cardId).value.(column := column)] + rest[i..]
  {
    var rest := RemoveId(cards, cardId);
    if before == EndSentinel {
      assert rest[..|rest|] == rest;
    }
  }

  /** The moved card leaves every other card where it was relative to the others:
      filtering the moved id out gives the same list before and after. */
  lemma MoveKeepsOthersInOrder(cards: seq<Card>, cardId: string, column: ColumnId, before: string)
    requires Move(cards, cardId, column, before).Some?
    ensures RemoveId(Move(cards, cardId, column, before).value, cardId) == RemoveId(cards, cardId)
  {
    MoveShape(cards, cardId, column, before);
    var rest := RemoveId(cards, cardId);
    RemoveIdMembers(cards, cardId);
    forall j | 0 <= j < |rest| ensures rest[j].id != cardId {
      assert rest[j] in rest;
    }
    RemoveIdInsert(rest, MovePosition(rest, before), Find(cards, cardId).value.(column := column));
  }

  /** Inserting a card into a list that lacks its id, then filtering the id, gives the list back. */
  lemma {:induction false} RemoveIdInsert(rest: seq<Card>, i: nat, moved: Card)
    requires i <= |rest|
    requires forall j :: 0 <= j < |rest| ==> rest[j].id != moved.id
    ensures RemoveId(rest[..i] + [moved] + rest[i..], moved.id) == rest
  {
    var id, a, b := moved.id, rest[..i], rest[i..];
    assert a + b == rest;
    assert forall j :: 0 <= j < |a| ==> a[j] == rest[j];
    assert forall j :: 0 <= j < |b| ==> b[j] == rest[i + j];
    RemoveIdAbsent(a, id);
    RemoveIdAbsent(b, id);
    assert RemoveId([moved], id) == [] by {
      assert [moved][1..] == [];
    }
    calc {
      RemoveId(a + [moved] + b, id);
      { RemoveIdConcat(a + [moved], b, id); }
      RemoveId(a + [moved], id) + RemoveId(b, id);
      { RemoveIdConcat(a, [moved], id); }
      RemoveId(a, id) + RemoveId([moved], id) + RemoveId(b, id);
      a + [] + b;
      { assert a + [] == a; }
      a + b;
      rest;
    }
  }

  /** Inserting a card of another column does not change a column's view. */
  lemma ColumnViewInsert(rest: seq<Card>, i: nat, moved: Card, other: ColumnId)
    requires i <= |rest|
    requires moved.column != other
    ensures ColumnView(rest[..i] + [moved] + rest[i..], other) == ColumnView(rest, other)
  {
    ColumnViewConcat(rest[..i] + [moved], rest[i..], other);
    ColumnViewConcat(rest[..i], [moved], other);
    ColumnViewConcat(rest[..i], rest[i..], other);
    assert ColumnView([moved], other) == [];
    assert rest[..i] + rest[i..] == rest;
  }

  /** After a move the list holds exactly one card with the moved id: the moved card,
      with the target column and all its other fields unchanged. */
  lemma MoveKeepsCardFields(cards: seq<Card>, cardId: string, column: ColumnId, before: string)
    requires Move(cards, cardId, column, before).Some?
    ensures Find(cards, cardId).Some?
    ensures var r := Move(cards, cardId, column, before).value;
      var moved := Find(cards, cardId).value.(column := column);
      && CountId(r, cardId) == 1
      && moved in r
      && forall c :: c in r && c.id == cardId ==> c == moved
  {
    MoveShape(cards, cardId, column, before);
    MoveKeepsOthersInOrder(cards, cardId, column, before);
    var r := Move(cards, cardId, column, before).value;
    var moved := Find(cards, cardId).value.(column := column);
    var rest := RemoveId(cards, cardId);
    var i := MovePosition(rest, before);
    assert r[i] == moved;
    RemoveIdMembers(cards, cardId);
    forall c | c in r && c != moved ensures c.id != cardId {
      assert c in rest[..i] || c in rest[i..];
      assert c in rest;
    }
  }

  /** A move of a card whose id is unique keeps the length and the multiset of ids. */
  lemma {:induction false} MoveKeepsIds(cards: seq<Card>, cardId: string, column: ColumnId, before: string)
    requires Move(cards, cardId, column, before).Some?
    requires CountId(cards, cardId) == 1
    ensures |Move(cards, cardId, column, before).value| == |cards|
    ensures multiset(Ids(Move(cards, cardId, column, before).value)) == multiset(Ids(cards))
  {
    MoveShape(cards, cardId, column, before);
    var r := Move(cards, cardId, column, before).value;
    var moved := Find(cards, cardId).value.(column := column);
    var rest := RemoveId(cards, cardId);
    var i := MovePosition(rest, before);
    assert r == rest[..i] + [moved] + rest[i..];
    var m := multiset(Ids(cards));
    CountIdMultiset(cards, cardId);
    calc {
      multiset(Ids(r));
    == { IdsInsert(rest, i, moved); }
      multiset(Ids(rest)) + multiset{cardId};
    == { RemoveIdMultiset(cards, cardId); }
      m[cardId := 0] + multiset{cardId};
    == { assert forall x :: (m[cardId := 0] + multiset{cardId})[x] == m[x]; }
      m;
    }
  }

  /** Inserting a card adds its id, once, to the multiset of ids. */
  lemma {:induction false} IdsInsert(rest: seq<Card>, i: nat, moved: Card)
    requires i <= |rest|
    ensures multiset(Ids(rest[..i] + [moved] + rest[i..])) == multiset(Ids(rest)) + multiset{moved.id}
  {
    var a, b := rest[..i], rest[i..];
    IdsConcat(a + [moved], b);
    IdsConcat(a, [moved]);
    IdsConcat(a, b);
    assert a + b == rest;
  }

  /** Where the moved card lands. With the end sentinel it is the last card of the
      list and of its column; before a card present in the list it sits right in
      front of that card; before an id no other card has, `findIndex` gives -1 and
      `splice(-1, 0, card)` puts it in front of the last remaining card. */
  lemma {:induction false} MovePlacement(cards: seq<Card>, cardId: string, column: ColumnId, before: string)
    requires Move(cards, cardId, column, before).Some?
    ensures Find(cards, cardId).Some?
    ensures var r := Move(cards, cardId, column, before).value;
      var moved := Find(cards, cardId).value.(column := column);
      var rest := RemoveId(cards, cardId);
      && (before == EndSentinel ==>
            r == rest + [moved] && ColumnView(r, column) == ColumnView(rest, column) + [moved])
      && (before != EndSentinel && FindIndex(rest, before) >= 0 ==>
            var i := FindIndex(rest, before);
            r == rest[..i] + [moved] + rest[i..] && r[i] == moved && r[i + 1].id == before)
      && (before != EndSentinel && FindIndex(rest, before) == -1 ==>
            if rest == [] then r == [moved]
            else r == rest[..|rest| - 1] + [moved, rest[|rest| - 1]])
  {
    MoveShape(cards, cardId, column, before);
    var r := Move(cards, cardId, column, before).value;
    var moved := Find(cards, cardId).value.(column := column);
    var rest := RemoveId(cards, cardId);
    if before == EndSentinel {
      ColumnViewConcat(rest, [moved], column);
      assert ColumnView([moved], column) == [moved];
    } else if FindIndex(rest, before) >= 0 {
      var i := FindIndex(rest, before);
      assert r[i + 1] == rest[i];
    } else if rest != [] {
      assert rest[|rest| - 1..] == [rest[|rest| - 1]];
    }
  }

  /** A column other than the target shows the same cards before and after the move,
      except the moved card when it came from that column. */
  lemma MoveKeepsOtherColumns(cards: seq<Card>, cardId: string, column: ColumnId, before: string, other: ColumnId)
    requires Move(cards, cardId, column, before).Some?
    requires other != column
    ensures ColumnView(Move(cards, cardId, column, before).value, other)
         == ColumnView(RemoveId(cards, cardId), other)
    ensures (forall c :: c in cards && c.id == cardId ==> c.column != other) ==>
      ColumnView(Move(cards, cardId, column, before).value, other) == ColumnView(cards, other)
  {
    MoveShape(cards, cardId, column, before);
    var rest := RemoveId(cards, cardId);
    ColumnViewInsert(rest, MovePosition(rest, before), Find(cards, cardId).value.(column := column), other);
    if forall c :: c in cards && c.id == cardId ==> c.column != other {
      RemoveIdKeepsColumnView(cards, cardId, other);
    }
  }

  lemma {:induction false} RemoveIdKeepsColumnView(s: seq<Card>, id: string, other: ColumnId)
    requires forall c :: c in s && c.id == id ==> c.column != other
    ensures ColumnView(RemoveId(s, id), other) == ColumnView(s, other)
  {
    if s != [] {
      assert forall c :: c in s[1..] ==> c in s;
      RemoveIdKeepsColumnView(s[1..], id, other);
      var head := if s[0].id == id then [] else [s[0]];
      ColumnViewConcat(head, RemoveId(s[1..], id), other);
    }
  }

  // ---------------------------------------------------------------------------
  // The nearest drop indicator (getNearestIndicator)

  /** A rendered drop indicator: its `data-before` value and the top of its box. */
  datatype Indicator = Indicator(before: string, top: int)

  /** The reduce accumulator's offset: `Number.NEGATIVE_INFINITY` or a pixel count. */
  datatype Offset = NegInf | Px(px: int)

  datatype Closest = Closest(offset: Offset, index: nat)

  function Anchor(ind: Indicator): int {
    ind.top + DistanceOffset
  }

  /** The indicator's anchor lies strictly below the pointer: `offset < 0`. */
  predicate Below(inds: seq<Indicator>, clientY: int, i: int)
    requires 0 <= i < |inds|
  {
    clientY - Anchor(inds[i]) < 0
  }

  /** One step of the reduce callback. */
  function StepClosest(closest: Closest, inds: seq<Indicator>, i: nat, clientY: int): (r: Closest)
    requires i < |inds|
    ensures r == closest || (r.index == i && clientY < Anchor(inds[i]))
    ensures closest.index < |inds| ==> r.index < |inds|
  {
    var offset := clientY - Anchor(inds[i]);
    if offset < 0 && (closest.offset.NegInf? || offset > closest.offset.px) then Closest(Px(offset), i)
    else closest
  }

  /** `indicators.reduce(step, closest)` over `inds[i..]`. */
  function ReduceClosest(inds: seq<Indicator>, clientY: int, i: nat, closest: Closest): (r: Closest)
    requires i <= |inds|
    ensures closest.index < |inds| ==> r.index < |inds|
    decreases |inds| - i
  {
    if i == |inds| then closest
    else ReduceClosest(inds, clientY, i + 1, StepClosest(closest, inds, i, clientY))
  }

  /** getNearestIndicator: the index of the chosen indicator. The reduce starts from
      offset -infinity and the last indicator (the column's end sentinel). */
  function NearestIndicator(inds: seq<Indicator>, clientY: int): (k: nat)
    requires |inds| > 0
    ensures k < |inds|
  {
    ReduceClosest(inds, clientY, 0, Closest(NegInf, |inds| - 1)).index
  }

  /** The accumulator after `n` steps of the reduce. */
  ghost predicate ClosestAmong(inds: seq<Indicator>, clientY: int, n: nat, c: Closest)
    requires 0 < |inds| && n <= |inds|
  {
    if exists i :: 0 <= i < n && Below(inds, clientY, i) then
      && c.index < n
      && Below(inds, clientY, c.index)
      && c.offset == Px(clientY - Anchor(inds[c.index]))
      && (forall j :: 0 <= j < n && Below(inds, clientY, j) ==> Anchor(inds[c.index]) <= Anchor(inds[j]))
      && (forall j :: 0 <= j < c.index && Below(inds, clientY, j) ==> Anchor(inds[c.index]) < Anchor(inds[j]))
    else
      c == Closest(NegInf, |inds| - 1)
  }

  lemma StepKeepsClosest(inds: seq<Indicator>, clientY: int, n: nat, c: Closest)
    requires 0 < |inds| && n < |inds|
    requires ClosestAmong(inds, clientY, n, c)
    ensures ClosestAmong(inds, clientY, n + 1, StepClosest(c, inds, n, clientY))
  {
    if !exists i :: 0 <= i < n && Below(inds, clientY, i) {
      if Below(inds, clientY, n) {
        assert forall j :: 0 <= j < n + 1 && Below(inds, clientY, j) ==> j == n;
      } else {
        assert forall j :: 0 <= j < n + 1 ==> !Below(inds, clientY, j);
      }
    }
  }

  lemma {:induction false} ReduceFindsClosest(inds: seq<Indicator>, clientY: int, n: nat, c: Closest)
    requires 0 < |inds| && n <= |inds|
    requires ClosestAmong(inds, clientY, n, c)
    ensures ClosestAmong(inds, clientY, |inds|, ReduceClosest(inds, clientY, n, c))
    decreases |inds| - n
  {
    if n < |inds| {
      StepKeepsClosest(inds, clientY, n, c);
      ReduceFindsClosest(inds, clientY, n + 1, StepClosest(c, inds, n, clientY));
    }
  }

  /** The chosen indicator is the one whose anchor is the smallest anchor strictly
      below the pointer, the earliest of equal anchors; when no anchor is below the
      pointer it is the last indicator, the column's end sentinel. */
  lemma NearestIsClosestBelow(inds: seq<Indicator>, clientY: int)
    requires |inds| > 0
    ensures var k := NearestIndicator(inds, clientY);
      && k < |inds|
      && ((exists i :: 0 <= i < |inds| && Below(inds, clientY, i)) ==>
            && Below(inds, clientY, k)
            && (forall j :: 0 <= j < |inds| && Below(inds, clientY, j) ==> Anchor(inds[k]) <= Anchor(inds[j]))
            && (forall j :: 0 <= j < k && Below(inds, clientY, j) ==> Anchor(inds[k]) < Anchor(inds[j])))
      && ((forall i :: 0 <= i < |inds| ==> !Below(inds, clientY, i)) ==> k == |inds| - 1)
  {
    ReduceFindsClosest(inds, clientY, 0, Closest(NegInf, |inds| - 1));
  }

  /** `element.dataset.before || "-1"`. */
  function ResolvedBefore(ind: Indicator): string {
    if ind.before == "" then EndSentinel else ind.before
  }

  /** `data-before={beforeId || "-1"}` of the indicator in front of a card. */
  function IndicatorLabel(cardId: string): string {
    if cardId == "" then EndSentinel else cardId
  }

  /** The `data-before` values of a column's indicators in document order: one in
      front of each card of the column, then the end sentinel. */
  function ColumnIndicatorLabels(cards: seq<Card>, column: ColumnId): (labels: seq<string>)
    ensures |labels| == |ColumnView(cards, column)| + 1
  {
    var view := ColumnView(cards, column);
    seq(|view|, i requires 0 <= i < |view| => IndicatorLabel(view[i].id)) + [EndSentinel]
  }

  /** When the indicators are the ones the column renders for the current list,
      the `before` a drop resolves to is the sentinel, the dragged card itself, or a
      card that is still in the list once the dragged card is filtered out; so the
      `findIndex` of a move never returns -1 for an up-to-date board. */
  lemma RenderedIndicatorsResolve(cards: seq<Card>, column: ColumnId, inds: seq<Indicator>, cardId: string, k: nat)
    requires |inds| == |ColumnIndicatorLabels(cards, column)|
    requires forall i :: 0 <= i < |inds| ==> inds[i].before == ColumnIndicatorLabels(cards, column)[i]
    requires k < |inds|
    ensures var b := ResolvedBefore(inds[k]);
      b == EndSentinel || b == cardId || FindIndex(RemoveId(cards, cardId), b) >= 0
  {
    var view := ColumnView(cards, column);
    var b := ResolvedBefore(inds[k]);
    if k < |view| && b != EndSentinel && b != cardId {
      assert inds[k].before == IndicatorLabel(view[k].id);
      assert view[k] in view;
      ColumnViewMembers(cards, column);
      RemoveIdMembers(cards, cardId);
      assert view[k] in RemoveId(cards, cardId);
    }
  }

  // ---------------------------------------------------------------------------
  // The scheduled-time editor (handleTimeSubmit)

  predicate MinutesAt(s: string, i: nat)
    requires i + 3 == |s|
  {
    s[i] == ':' && '0' <= s[i + 1] <= '5' && Text.IsDigit(s[i + 2])
  }

  /** `/^([0-1]?[0-9]|2[0-3]):[0-5][0-9]$/.test(s)`. */
  predicate MatchesTimePattern(s: string)
    ensures MatchesTimePattern(s) ==>
      && (|s| == 4 || |s| == 5) && s[|s| - 3] == ':'
      && forall i :: 0 <= i < |s| && i != |s| - 3 ==> Text.IsDigit(s[i])
  {
    if |s| == 4 then Text.IsDigit(s[0]) && MinutesAt(s, 1)
    else if |s| == 5 then
      && ((('0' <= s[0] <= '1') && Text.IsDigit(s[1])) || (s[0] == '2' && '0' <= s[1] <= '3'))
      && MinutesAt(s, 2)
    else false
  }

  /** A wall-clock time written `H:MM` (only for hours below ten) or `HH:MM`. */
  function ClockText(h: nat, m: nat, twoDigitHour: bool): string
    requires h < 24 && m < 60 && (twoDigitHour || h < 10)
  {
    (if twoDigitHour then [Text.DigitChar(h / 10), Text.DigitChar(h % 10)] else [Text.DigitChar(h)])
    + [':', Text.DigitChar(m / 10), Text.DigitChar(m % 10)]
  }

  /** The pattern accepts exactly the times of day from 0:00 to 23:59, with the hour
      written in one digit (below ten) or two (zero-padded) and the minutes in two. */
  lemma TimePatternIffClockTime(s: string)
    ensures MatchesTimePattern(s) <==>
      exists h: nat, m: nat, two: bool :: h < 24 && m < 60 && (two || h < 10) && s == ClockText(h, m, two)
  {
    if MatchesTimePattern(s) {
      var two := |s| == 5;
      var i := if two then 2 else 1;
      var h: nat := if two then 10 * Text.DigitValue(s[0]) + Text.DigitValue(s[1]) else Text.DigitValue(s[0]);
      var m: nat := 10 * Text.DigitValue(s[i + 1]) + Text.DigitValue(s[i + 2]);
      assert h < 24 && m < 60;
      assert m / 10 == Text.DigitValue(s[i + 1]) && m % 10 == Text.DigitValue(s[i + 2]);
      if two {
        assert h / 10 == Text.DigitValue(s[0]) && h % 10 == Text.DigitValue(s[1]);
      }
      assert s == ClockText(h, m, two);
    }
  }

  lemma TimePatternExamples()
    ensures MatchesTimePattern("9:30") && MatchesTimePattern("23:59") && MatchesTimePattern("09:05")
    ensures !MatchesTimePattern("24:00") && !MatchesTimePattern("9:60") && !MatchesTimePattern("930")
    ensures !MatchesTimePattern("abc")
  {
  }

  /** What the time editor sends for the typed value: the value itself when it
      matches the pattern, the empty string to clear the time, nothing otherwise. */
  function ScheduledTimeUpdate(timeValue: string): (r: Option<string>)
    ensures r.Some? <==> (timeValue == "" || MatchesTimePattern(timeValue))
    ensures r.Some? ==> r.value == timeValue
  {
    if timeValue != "" && MatchesTimePattern(timeValue) then Some(timeValue)
    else if timeValue == "" then Some("")
    else None
  }

  // ---------------------------------------------------------------------------
  // Adding a card (AddCard.handleSubmit)

  /** The add-card form's fields. */
  datatype CardDraft = CardDraft(title: string, duration: int, importance: string, scheduledTime: string)

  const EmptyDraft := CardDraft("", 30, "medium", "")

  /** The create request for the form's fields in `column`, or None for a blank title. */
  function CreatePayloadFor(column: ColumnId, draft: CardDraft): (r: Option<CreatePayload>)
    ensures r.None? <==> Text.IsBlank(draft.title)
    ensures r.Some? ==>
      && r.value.title == Text.Trim(draft.title)
      && r.value.title != ""
      && r.value.status == column
      && r.value.duration == draft.duration
      && r.value.importance == draft.importance
      && (r.value.scheduledTime.Some? <==> draft.scheduledTime != "")
      && (r.value.scheduledTime.Some? ==> r.value.scheduledTime.value == draft.scheduledTime)
  {
    if Text.IsBlank(draft.title) then None
    else
      Some(CreatePayload(Text.Trim(draft.title), draft.duration, draft.importance, column,
        if draft.scheduledTime != "" then Some(draft.scheduledTime) else None))
  }

  /** The optimistic card appended before the server answers, under a temporary id. */
  function OptimisticCard(column: ColumnId, draft: CardDraft, tempId: string): (c: Card)
    ensures c.id == tempId && c.column == column && c.title == Text.Trim(draft.title)
    ensures c.duration == Some(draft.duration) && c.importance == Some(draft.importance)
    ensures c.scheduledTime.None? <==> draft.scheduledTime == ""
    ensures c.scheduledTime.Some? ==> c.scheduledTime.value == draft.scheduledTime
  {
    Card(tempId, Text.Trim(draft.title), column, Some(draft.duration), Some(draft.importance),
      if draft.scheduledTime != "" then Some(draft.scheduledTime) else None)
  }

  /** The card shown before the refetch is the task the server is asked to create. */
  lemma OptimisticCardMatchesPayload(column: ColumnId, draft: CardDraft, tempId: string)
    ensures var p, c := CreatePayloadFor(column, draft), OptimisticCard(column, draft, tempId);
      p.Some? ==>
        && c.title == p.value.title
        && c.column == p.value.status
        && c.duration == Some(p.value.duration)
        && c.importance == Some(p.value.importance)
        && c.scheduledTime == p.value.scheduledTime
  {
  }

  // ---------------------------------------------------------------------------
  // The board state

  /** Board: the card list and the log of API requests it has issued. Optimistic
      changes are never rolled back when a request fails. */
  class Board {
    var cards: seq<Card>
    var requests: seq<Request>

    constructor ()
      ensures cards == [] && requests == []
    {
      cards := [];
      requests := [];
    }

    /** The effect on `tasksData`: replace the list by the server's tasks. */
    method Load(tasks: seq<Task>)
      modifies this
      ensures cards == CardsFromTasks(tasks)
      ensures requests == old(requests)
    {
      cards := CardsFromTasks(tasks);
    }

    /** The cards a column renders. */
    function ColumnCards(column: ColumnId): seq<Card>
      reads this
    {
      ColumnView(cards, column)
    }

    /** Column.handleDragEnd: resolve the nearest indicator, then move the card and
        request its new status, unless the drop is on the card's own slot or the
        card is not on the board. */
    method DragEnd(cardId: string, column: ColumnId, indicators: seq<Indicator>, clientY: int)
      requires |indicators| > 0
      modifies this
      ensures var before := ResolvedBefore(indicators[NearestIndicator(indicators, clientY)]);
        match Move(old(cards), cardId, column, before)
        case None => cards == old(cards) && requests == old(requests)
        case Some(r) => cards == r && requests == old(requests) + [UpdateStatus(cardId, column)]
    {
      var element := indicators[NearestIndicator(indicators, clientY)];
      var before := ResolvedBefore(element);
      if before != cardId {
        var copy := cards;
        var cardToTransfer := Find(copy, cardId);
        if cardToTransfer.None? {
          return;
        }
        var card := cardToTransfer.value.(column := column);
        copy := RemoveId(copy, cardId);
        if before == EndSentinel {
          copy := copy + [card];
        } else {
          var insertAtIndex := FindIndex(copy, before);
          copy := SpliceInsert(copy, insertAtIndex, card);
        }
        cards := copy;
        requests := requests + [UpdateStatus(cardId, column)];
      }
    }

    /** handleDeleteCard: request the deletion and drop the card locally at once. */
    method DeleteCard(cardId: string)
      modifies this
      ensures cards == RemoveId(old(cards), cardId)
      ensures requests == old(requests) + [Delete(cardId)]
    {
      requests := requests + [Delete(cardId)];
      cards := RemoveId(cards, cardId);
    }

    /** BurnBarrel.handleDragEnd: handleDeleteCard, then the barrel filters the list
        again; the second filter finds nothing left to remove. */
    method BurnBarrelDrop(cardId: string)
      modifies this
      ensures cards == RemoveId(old(cards), cardId)
      ensures requests == old(requests) + [Delete(cardId)]
    {
      ghost var start := cards;
      DeleteCard(cardId);
      RemoveIdIdempotent(start, cardId);
      cards := RemoveId(cards, cardId);
    }

    /** The optimistic create: the request is sent and the card is shown at once. */
    method CreateCard(payload: CreatePayload, card: Card)
      modifies this
      ensures requests == old(requests) + [Create(payload)]
      ensures cards == old(cards) + [card]
    {
      requests := requests + [Create(payload)];
      cards := cards + [card];
    }

    /** Card.handleTimeSubmit: send the time when it is valid or empty. */
    method SubmitScheduledTime(cardId: string, timeValue: string)
      modifies this
      ensures cards == old(cards)
      ensures requests == old(requests) +
        (if timeValue == "" || MatchesTimePattern(timeValue) then [UpdateScheduledTime(cardId, timeValue)] else [])
    {
      var update := ScheduledTimeUpdate(timeValue);
      if update.Some? {
        requests := requests + [UpdateScheduledTime(cardId, update.value)];
      }
    }
  }

  /** Deleting is idempotent: no card with the id is left to remove. */
  lemma RemoveIdIdempotent(s: seq<Card>, id: string)
    ensures RemoveId(RemoveId(s, id), id) == RemoveId(s, id)
  {
    var r := RemoveId(s, id);
    RemoveIdMembers(s, id);
    forall i | 0 <= i < |r| ensures r[i].id != id {
      assert r[i] in r;
    }
    RemoveIdAbsent(r, id);
  }

  /** Deleting keeps the order of the remaining cards: it commutes with concatenation,
      removes every card with the id and keeps every card without it. */
  lemma {:induction false} DeleteKeepsOrder(a: seq<Card>, b: seq<Card>, id: string, c: Card)
    requires c.id != id
    ensures RemoveId(a + [c] + b, id) == RemoveId(a, id) + [c] + RemoveId(b, id)
  {
    RemoveIdConcat(a + [c], b, id);
    RemoveIdConcat(a, [c], id);
  }

  /** AddCard: the per-column form that creates a card. */
  class AddCardForm {
    const column: ColumnId
    var draft: CardDraft
    var adding: bool

    constructor (column: ColumnId)
      ensures this.column == column && draft == EmptyDraft && !adding
    {
      this.column := column;
      draft := EmptyDraft;
      adding := false;
    }

    method Open()
      modifies this
      ensures adding && draft == old(draft)
    {
      adding := true;
    }

    /** The onChange handlers of the form's inputs. */
    method Edit(d: CardDraft)
      modifies this
      ensures draft == d && adding == old(adding)
    {
      draft := d;
    }

    /** resetForm. */
    method Cancel()
      modifies this
      ensures draft == EmptyDraft && !adding
    {
      draft := EmptyDraft;
      adding := false;
    }

    /** handleSubmit: a blank title does nothing; otherwise request the creation,
        append the optimistic card at the end of the board and reset the form. */
    method Submit(board: Board, tempId: string)
      modifies `draft, `adding, board
      ensures Text.IsBlank(old(draft.title)) ==>
        && board.cards == old(board.cards) && board.requests == old(board.requests)
        && draft == old(draft) && adding == old(adding)
      ensures !Text.IsBlank(old(draft.title)) ==>
        && board.requests == old(board.requests) + [Create(CreatePayloadFor(column, old(draft)).value)]
        && board.cards == old(board.cards) + [OptimisticCard(column, old(draft), tempId)]
        && draft == EmptyDraft && !adding
    {
      var payload := CreatePayloadFor(column, draft);
      if payload.Some? {
        board.CreateCard(payload.value, OptimisticCard(column, draft, tempId));
        draft := EmptyDraft;
        adding := false;
      }
    }
  }
}
