/** Conversation history as the pipeline reads it: a list of records, each a
    dict from a question to its answer, delivered most recent last. Both the
    resolver and the turn processor look only at the two most recent records,
    most recent first (`history[::-1][:2]`). */
module History {

  /** One record: the items of a question -> answer dict, in insertion order. */
  type HistoryRecord = seq<(string, string)>

  function Reverse<T>(s: seq<T>): (r: seq<T>)
    ensures |r| == |s|
    ensures forall i | 0 <= i < |s| :: r[i] == s[|s| - 1 - i]
  {
    if s == [] then [] else Reverse(s[1..]) + [s[0]]
  }

  /** `history[::-1][:2]` */
  function Recent(h: seq<HistoryRecord>): seq<HistoryRecord>
  {
    var rev := Reverse(h);
    rev[..if |rev| < 2 then |rev| else 2]
  }

  /** The slice is the last two records, the most recent one first. */
  lemma RecentIsLastTwo(h: seq<HistoryRecord>)
    ensures Recent(h) == if |h| >= 2 then [h[|h| - 1], h[|h| - 2]] else h
  {
  }

  /** The items of the given records, record by record, each record's items in order. */
  function Items(recs: seq<HistoryRecord>): (r: seq<(string, string)>)
    ensures |r| == 0 <==> forall i | 0 <= i < |recs| :: recs[i] == []
  {
    if recs == [] then [] else recs[0] + Items(recs[1..])
  }

  /** One item rendered as `f"Question: {k}\nAnswer: {v}\n"`. */
  function Turn(q: string, a: string): string
  {
    "Question: " + q + "\nAnswer: " + a + "\n"
  }

  /** The characters the questions and answers of the items contribute. */
  function TextLength(items: seq<(string, string)>): nat
  {
    if items == [] then 0 else |items[0].0| + |items[0].1| + TextLength(items[1..])
  }

  /** Each item renders its question and answer plus the 20 fixed characters
      of `"Question: "`, `"\nAnswer: "` and `"\n"`. */
  function Render(items: seq<(string, string)>): (s: string)
    ensures |s| == 20 * |items| + TextLength(items)
    ensures |s| >= 20 * |items|
  {
    if items == [] then "" else Turn(items[0].0, items[0].1) + Render(items[1..])
  }

  /** The `history_string` built by `+=` over the recent records' items. */
  function HistoryString(h: seq<HistoryRecord>): string
  {
    Render(Items(Recent(h)))
  }

  /** The rendered history is empty exactly when both recent records are empty
      (or there are none). */
  lemma HistoryStringEmpty(h: seq<HistoryRecord>)
    ensures HistoryString(h) == "" <==> forall i | 0 <= i < |Recent(h)| :: Recent(h)[i] == []
  {
  }

  /** `Items` distributes over concatenation. */
  lemma {:induction false} ItemsAppend(a: seq<HistoryRecord>, b: seq<HistoryRecord>)
    ensures Items(a + b) == Items(a) + Items(b)
  {
    if a != [] {
      assert (a + b)[1..] == a[1..] + b;
      ItemsAppend(a[1..], b);
    } else {
      assert a + b == b;
    }
  }

  /** One more record adds its items at the end. */
  lemma ItemsSnoc(a: seq<HistoryRecord>, r: HistoryRecord)
    ensures Items(a + [r]) == Items(a) + r
  {
    ItemsAppend(a, [r]);
    assert Items([r]) == r + Items([]);
  }

  /** `Render` distributes over concatenation. */
  lemma {:induction false} RenderAppend(a: seq<(string, string)>, b: seq<(string, string)>)
    ensures Render(a + b) == Render(a) + Render(b)
  {
    if a != [] {
      var ab := a + b;
      assert ab[0] == a[0] && ab[1..] == a[1..] + b;
      RenderAppend(a[1..], b);
      var t := Turn(a[0].0, a[0].1);
      calc {
        Render(ab);
        t + Render(a[1..] + b);
        t + (Render(a[1..]) + Render(b));
        (t + Render(a[1..])) + Render(b);
      }
    } else {
      assert a + b == b;
    }
  }

  /** Rendering one more item appends its turn. */
  lemma RenderSnoc(items: seq<(string, string)>, x: (string, string))
    ensures Render(items + [x]) == Render(items) + Turn(x.0, x.1)
  {
    RenderAppend(items, [x]);
    assert Render([x]) == Turn(x.0, x.1) + Render([]);
  }
}
