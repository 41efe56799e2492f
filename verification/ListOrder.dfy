/** The order in which the browser's sorted lists end up. */
module ListOrder {
  import opened Json
  import opened HistoryClient
  import opened QueuedInputs

  // ---- Texts ---------------------------------------------------------------

  /** Exactly one of two texts comes first, unless they are the same. */
  lemma {:induction false} TextTotal(a: string, b: string)
    ensures TextLess(a, b) || a == b || TextLess(b, a)
    ensures !(TextLess(a, b) && TextLess(b, a)) && !TextLess(a, a)
    decreases |a|
  {
    if a != "" {
      TextTotal(a[1..], if b == "" then "" else b[1..]);
      if b != "" && a[0] == b[0] && a[1..] == b[1..] {
        assert a == [a[0]] + a[1..] && b == [b[0]] + b[1..];
      }
    }
  }

  lemma {:induction false} TextTransitive(a: string, b: string, c: string)
    requires TextLess(a, b) && TextLess(b, c)
    ensures TextLess(a, c)
    decreases |a|
  {
    if a != "" && a[0] == b[0] == c[0] { TextTransitive(a[1..], b[1..], c[1..]); }
  }

  /** Not later than each other, step by step, is not later. */
  lemma TextWeak(a: string, b: string, c: string)
    requires TextLess(a, c)
    ensures TextLess(a, b) || TextLess(b, c)
  {
    TextTotal(a, b);
    if TextLess(b, a) { TextTransitive(b, a, c); }
  }

  // ---- Waiting inputs ------------------------------------------------------

  /** By time of creation, then by id. */
  ghost predicate InOrder(list: seq<QueuedInput>) {
    forall i, j :: 0 <= i < j < |list| ==> !Earlier(list[j], list[i])
  }

  lemma EarlierWeak(a: QueuedInput, b: QueuedInput, c: QueuedInput)
    requires Earlier(a, c)
    ensures Earlier(a, b) || Earlier(b, c)
  {
    if a.createdAt == c.createdAt {
      TextTotal(a.createdAt, c.createdAt);
      TextWeak(a.id, b.id, c.id);
      TextTotal(a.createdAt, b.createdAt);
    } else {
      TextWeak(a.createdAt, b.createdAt, c.createdAt);
      TextTotal(a.createdAt, b.createdAt);
      TextTotal(b.createdAt, c.createdAt);
    }
  }

  lemma EarlierOneWay(a: QueuedInput, b: QueuedInput)
    ensures !(Earlier(a, b) && Earlier(b, a))
  {
    TextTotal(a.createdAt, b.createdAt);
    TextTotal(a.id, b.id);
  }

  lemma {:induction false} InsertInOrder(list: seq<QueuedInput>, input: QueuedInput)
    requires InOrder(list)
    ensures InOrder(InsertInput(list, input))
  {
    if list != [] {
      var front, last := list[..|list| - 1], list[|list| - 1];
      if Earlier(input, last) {
        InsertInOrder(front, input);
        InsertSame(front, input);
        var inserted := InsertInput(front, input);
        forall i | 0 <= i < |inserted| ensures !Earlier(last, inserted[i]) {
          OneOf(front, input, inserted, i);
          EarlierOneWay(input, last);
        }
      } else {
        forall i | 0 <= i < |list| ensures !Earlier(input, list[i]) {
          if Earlier(input, list[i]) { EarlierWeak(input, last, list[i]); }
        }
      }
    }
  }

  lemma OneOf(front: seq<QueuedInput>, input: QueuedInput, inserted: seq<QueuedInput>, i: nat)
    requires SameEntries(inserted, front + [input]) && i < |inserted|
    ensures inserted[i] == input || exists k :: 0 <= k < |front| && front[k] == inserted[i]
  {
    assert inserted[i] in multiset(inserted);
    assert inserted[i] in front + [input];
  }

  lemma {:induction false} SortInOrder(list: seq<QueuedInput>)
    ensures InOrder(SortInputs(list))
  {
    if list != [] {
      SortInOrder(list[..|list| - 1]);
      InsertInOrder(SortInputs(list[..|list| - 1]), list[|list| - 1]);
    }
  }

  /** The waiting inputs are listed in the order of their creation, whatever came in what order. */
  lemma {:induction false} InputsInOrder(events: seq<InputEvent>)
    ensures InOrder(QueuedInputs.ApplyAll([], events))
    decreases |events|
  {
    if events != [] {
      var front, e := events[..|events| - 1], events[|events| - 1];
      InputsInOrder(front);
      ApplyInOrder(QueuedInputs.ApplyAll([], front), e);
    }
  }

  lemma ApplyInOrder(current: seq<QueuedInput>, e: InputEvent)
    requires InOrder(current)
    ensures InOrder(ApplyInputEvent(current, e))
  {
    match e
    case InputUpdated(Some(u)) => SortInOrder(Remove(current, UpdateKey(u)) + [Merged(Find(current, UpdateKey(u)), u)]);
    case MessageAccepted(_, Some(_), _, _) =>
      var u := AcceptedUpdate(e);
      SortInOrder(Remove(current, UpdateKey(u)) + [Merged(Find(current, UpdateKey(u)), u)]);
    case _ =>
  }

  // ---- Messages ------------------------------------------------------------

  /** All messages have a number in the history, or none has: those of the time before it. */
  predicate Alike(list: seq<Record>) {
    || (forall i :: 0 <= i < |list| ==> Get(list[i], KeyHistorySeq).Num?)
    || (forall i :: 0 <= i < |list| ==> !Get(list[i], KeyHistorySeq).Num?)
  }

  /** By number; without numbers by time of creation, then by id. */
  predicate NotLater(a: Record, b: Record) {
    var x, y := Get(a, KeyHistorySeq), Get(b, KeyHistorySeq);
    if x.Num? && y.Num? then x.n <= y.n
    else
      var s, t := StringOr(Get(a, KeyCreatedAt), ""), StringOr(Get(b, KeyCreatedAt), "");
      TextLess(s, t) || (s == t && !TextLess(StringOr(Get(b, KeyId), ""), StringOr(Get(a, KeyId), "")))
  }

  ghost predicate Ordered(list: seq<Record>) {
    forall i, j :: 0 <= i < j < |list| ==> NotLater(list[i], list[j])
  }

  lemma NotLaterIff(a: Record, b: Record)
    ensures NotLater(a, b) <==> !Before(b, a)
  {
    TextTotal(StringOr(Get(a, KeyCreatedAt), ""), StringOr(Get(b, KeyCreatedAt), ""));
  }

  lemma BeforeOneWay(a: Record, b: Record)
    requires Before(a, b)
    ensures NotLater(a, b)
  {
    NotLaterIff(a, b);
    TextTotal(StringOr(Get(a, KeyCreatedAt), ""), StringOr(Get(b, KeyCreatedAt), ""));
    TextTotal(StringOr(Get(a, KeyId), ""), StringOr(Get(b, KeyId), ""));
  }

  lemma NotLaterTwice(a: Record, b: Record, c: Record)
    requires NotLater(a, b) && NotLater(b, c)
    requires Get(a, KeyHistorySeq).Num? == Get(b, KeyHistorySeq).Num? == Get(c, KeyHistorySeq).Num?
    ensures NotLater(a, c)
  {
    if !Get(a, KeyHistorySeq).Num? {
      var s, t, u := StringOr(Get(a, KeyCreatedAt), ""), StringOr(Get(b, KeyCreatedAt), ""), StringOr(Get(c, KeyCreatedAt), "");
      if TextLess(s, t) && TextLess(t, u) { TextTransitive(s, t, u); }
      var x, y, z := StringOr(Get(a, KeyId), ""), StringOr(Get(b, KeyId), ""), StringOr(Get(c, KeyId), "");
      if TextLess(z, x) { TextWeak(z, y, x); }
    }
  }

  lemma {:induction false} InsertPermutes(list: seq<Record>, m: Record)
    ensures multiset(Insert(list, m)) == multiset(list) + multiset{m}
  {
    if list != [] && Before(m, list[|list| - 1]) {
      InsertPermutes(list[..|list| - 1], m);
      assert list == list[..|list| - 1] + [list[|list| - 1]];
    }
  }

  ghost predicate NoneLater(list: seq<Record>, m: Record) {
    forall i :: 0 <= i < |list| ==> NotLater(list[i], m)
  }

  lemma AppendOrdered(list: seq<Record>, m: Record)
    requires Ordered(list) && NoneLater(list, m)
    ensures Ordered(list + [m])
  {
  }

  /** What was inserted before the last one leaves it the last. */
  lemma LastStaysLast(list: seq<Record>, m: Record)
    requires list != [] && Ordered(list) && Before(m, list[|list| - 1])
    ensures NoneLater(Insert(list[..|list| - 1], m), list[|list| - 1])
  {
    var front, last := list[..|list| - 1], list[|list| - 1];
    InsertPermutes(front, m);
    BeforeOneWay(m, last);
    var inserted := Insert(front, m);
    forall i | 0 <= i < |inserted| ensures NotLater(inserted[i], last) {
      assert inserted[i] in multiset(inserted);
      assert inserted[i] == m || inserted[i] in front;
    }
  }

  lemma AfterAll(list: seq<Record>, m: Record)
    requires list != [] && Ordered(list) && Alike(list + [m]) && !Before(m, list[|list| - 1])
    ensures NoneLater(list, m)
  {
    var last := list[|list| - 1];
    NotLaterIff(last, m);
    forall i | 0 <= i < |list| ensures NotLater(list[i], m) {
      if i < |list| - 1 {
        AlikeThree(list, m, i);
        NotLaterTwice(list[i], last, m);
      }
    }
  }

  lemma AlikeFront(list: seq<Record>, m: Record)
    requires list != [] && Alike(list + [m])
    ensures Alike(list[..|list| - 1] + [m])
  {
    var all, fewer := list + [m], list[..|list| - 1] + [m];
    assert all[|list|] == m && forall i :: 0 <= i < |list| - 1 ==> fewer[i] == all[i];
  }

  lemma {:induction false} InsertOrdered(list: seq<Record>, m: Record)
    requires Ordered(list) && Alike(list + [m])
    ensures Ordered(Insert(list, m))
  {
    if list != [] {
      if Before(m, list[|list| - 1]) {
        AlikeFront(list, m);
        InsertOrdered(list[..|list| - 1], m);
        LastStaysLast(list, m);
        var inserted := Insert(list[..|list| - 1], m);
        assert Ordered(inserted);
        AppendOrdered(inserted, list[|list| - 1]);
      } else {
        AfterAll(list, m);
        AppendOrdered(list, m);
      }
    }
  }

  lemma AlikeThree(list: seq<Record>, m: Record, i: nat)
    requires list != [] && i < |list| && Alike(list + [m])
    ensures Get(list[i], KeyHistorySeq).Num? == Get(list[|list| - 1], KeyHistorySeq).Num? == Get(m, KeyHistorySeq).Num?
  {
    var all := list + [m];
    assert all[i] == list[i] && all[|list| - 1] == list[|list| - 1] && all[|list|] == m;
  }

  /** Sorting only reorders, and leaves the messages in the order of the history, or of their creation. */
  lemma {:induction false} SortOrders(list: seq<Record>)
    requires Alike(list)
    ensures Ordered(Sort(list)) && multiset(Sort(list)) == multiset(list)
  {
    if list != [] {
      var front, last := list[..|list| - 1], list[|list| - 1];
      assert list == front + [last];
      SortOrders(front);
      InsertPermutes(Sort(front), last);
      SortedAlike(front, Sort(front), last);
      InsertOrdered(Sort(front), last);
    }
  }

  lemma SortedAlike(front: seq<Record>, sorted: seq<Record>, last: Record)
    requires Alike(front + [last]) && multiset(sorted) == multiset(front)
    ensures Alike(sorted + [last])
  {
    var all := front + [last];
    assert all[|front|] == last;
    forall i | 0 <= i < |sorted| ensures exists k :: 0 <= k < |all| && all[k] == sorted[i] {
      assert sorted[i] in multiset(sorted);
      assert sorted[i] in front;
      var k :| 0 <= k < |front| && front[k] == sorted[i];
      assert all[k] == sorted[i];
    }
  }
}
