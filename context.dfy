/** The citation context of `chatbot/tools/context_builder.py`: the metadata
    projection of `get_documents`, and `RAGContext`, which deduplicates the
    retrieved chunks by a string key, numbers the kept ones 1, 2, ... in
    first-seen order, indexes them by number and renders one message each.

    `clean_text` (BeautifulSoup) is a collaborator: it is given the chunk's
    "text" value, or None when the key is absent, and either returns the
    cleaned text or raises (None). */
module ContextBuilder {

  import opened Wrappers
  import opened Text

  /** A chunk's metadata: field name to value. */
  type Chunk = map<string, string>

  /** `RELEVANT_FIELDS` of the context builder. */
  const RelevantFields: seq<string> :=
    ["text", "product_id", "file_id", "advisor_id", "product_name", "page_number"]

  // ---------------------------------------------------------------------------
  // `get_documents`

  /** A vector-search match; its "metadata" key may be absent. */
  datatype SearchMatch = SearchMatch(metadata: Option<Chunk>)

  /** `{k: match_meta.get(k, "") for k in RELEVANT_FIELDS}` */
  function MetaRecord(meta: Chunk): (r: Chunk)
    ensures forall k :: k in r <==> k in RelevantFields
    ensures forall k | k in r && k !in meta :: r[k] == ""
    ensures forall k | k in r && k in meta :: r[k] == meta[k]
  {
    map k | k in RelevantFields :: if k in meta then meta[k] else ""
  }

  /** The loop of `get_documents` over the matches of one query. */
  method GetDocuments(matches: seq<SearchMatch>) returns (results: seq<Chunk>)
    ensures |results| == |matches|
    ensures forall i | 0 <= i < |matches| :: results[i] == MetaRecord(matches[i].metadata.GetOr(map[]))
  {
    results := [];
    for i := 0 to |matches|
      invariant |results| == i
      invariant forall j | 0 <= j < i :: results[j] == MetaRecord(matches[j].metadata.GetOr(map[]))
    {
      var matchMeta := matches[i].metadata.GetOr(map[]);
      results := results + [MetaRecord(matchMeta)];
    }
  }

  // ---------------------------------------------------------------------------
  // Keys and nodes

  function Field(c: Chunk, k: string): Option<string>
  {
    if k in c then Some(c[k]) else None
  }

  /** How an f-string renders an optional value: None as "None". */
  function Show(v: Option<string>): string
  {
    match v
    case Some(s) => s
    case None => "None"
  }

  /** `f"{chunk.get('product_id')}_{chunk.get('page_number')}"` */
  function Key(c: Chunk): string
  {
    Show(Field(c, "product_id")) + "_" + Show(Field(c, "page_number"))
  }

  /** The key is a joined string, not a pair: distinct (product, page) pairs
      can share it. */
  lemma KeyCollides()
    ensures var a := map["product_id" := "a_b", "page_number" := "1"];
      var b := map["product_id" := "a", "page_number" := "b_1"];
      a["product_id"] != b["product_id"] && Key(a) == Key(b)
  {
    var a := map["product_id" := "a_b", "page_number" := "1"];
    var b := map["product_id" := "a", "page_number" := "b_1"];
    assert Key(a) == "a_b" + "_" + "1";
    assert Key(b) == "a" + "_" + "b_1";
  }

  /** `CitationNode` */
  datatype CitationNode = CitationNode(
    id: nat, text: string, productId: string, fileId: string,
    advisorId: string, productName: string, pageNumber: int)

  /** Why building a node raised: `clean_text` failed, `int()` rejected the
      page number (ValueError), or a string field is missing (pydantic's
      ValidationError). */
  datatype BuildError = CleanFailed | BadPageNumber(value: string) | MissingField(field: string)

  /** `clean_text` */
  type Cleaner = Option<string> -> Option<string>

  /** The value `int()` is applied to: the page number, or "1" when the key is absent. */
  function PageText(c: Chunk): string
  {
    if "page_number" in c then c["page_number"] else "1"
  }

  /** `CitationNode(id=rank, ...)` for one chunk, with the keyword arguments
      evaluated in order before the model validates the string fields. */
  function ToNode(c: Chunk, id: nat, clean: Cleaner): Result<CitationNode, BuildError>
  {
    var text := clean(Field(c, "text"));
    var page := ParseInt(PageText(c));
    if text.None? then Failure(CleanFailed)
    else if page.None? then Failure(BadPageNumber(PageText(c)))
    else if "product_id" !in c then Failure(MissingField("product_id"))
    else if "file_id" !in c then Failure(MissingField("file_id"))
    else if "advisor_id" !in c then Failure(MissingField("advisor_id"))
    else if "product_name" !in c then Failure(MissingField("product_name"))
    else Success(CitationNode(id, text.value, c["product_id"], c["file_id"], c["advisor_id"], c["product_name"], page.value))
  }

  /** A page number is read with `int()`, so "1" is the default only for an
      absent key: the records `get_documents` produces always carry the key,
      and one whose metadata lacked it holds "", which `int()` rejects. */
  lemma MissingPageFailsAfterGetDocuments(meta: Chunk, id: nat, clean: Cleaner)
    requires "page_number" !in meta
    requires clean(Field(MetaRecord(meta), "text")).Some?
    ensures ToNode(MetaRecord(meta), id, clean) == Failure(BadPageNumber(""))
  {
    var c := MetaRecord(meta);
    assert "page_number" in RelevantFields;
    assert PageText(c) == "";
    assert Strip("") == "";
  }

  // ---------------------------------------------------------------------------
  // The first loop: deduplication and ranking

  /** How the first loop turns a chunk and its rank into a node. */
  type NodeBuilder = (Chunk, nat) -> Result<CitationNode, BuildError>

  /** `CitationNode(id=rank, ...)` as the source builds it. */
  function Builder(clean: Cleaner): NodeBuilder
  {
    (c: Chunk, rank: nat) => ToNode(c, rank, clean)
  }

  /** A builder that numbers each node with the rank it is given. */
  ghost predicate NumbersByRank(build: NodeBuilder)
  {
    forall c, rank :: build(c, rank).Success? ==> build(c, rank).value.id == rank
  }

  lemma BuilderNumbersByRank(clean: Cleaner)
    ensures NumbersByRank(Builder(clean))
  {
  }

  /** What the first loop leaves behind: the keys seen, the nodes ranked, the
      positions of the chunks they were built from, and the error that stopped
      it, if any. */
  datatype Scan = Scan(seen: set<string>, nodes: seq<CitationNode>, kept: seq<nat>, error: Option<BuildError>)

  function Shift(ks: seq<nat>): (r: seq<nat>)
    ensures |r| == |ks| && forall j | 0 <= j < |ks| :: r[j] == ks[j] + 1
  {
    seq(|ks|, j requires 0 <= j < |ks| => ks[j] + 1)
  }

  /** The first loop from `rank`, given the keys already seen. A chunk whose
      key was seen is skipped; otherwise its key is added BEFORE the node is
      built, so a chunk that raises leaves its key behind. */
  function ScanChunks(chunks: seq<Chunk>, seen: set<string>, rank: nat, build: NodeBuilder): Scan
    decreases |chunks|
  {
    if chunks == [] then Scan(seen, [], [], None)
    else
      var k := Key(chunks[0]);
      if k in seen then
        var s := ScanChunks(chunks[1..], seen, rank, build);
        Scan(s.seen, s.nodes, Shift(s.kept), s.error)
      else match build(chunks[0], rank)
        case Failure(e) => Scan(seen + {k}, [], [], Some(e))
        case Success(n) =>
          var s := ScanChunks(chunks[1..], seen + {k}, rank + 1, build);
          Scan(s.seen, [n] + s.nodes, [0] + Shift(s.kept), s.error)
  }

  /** One step of the first loop, for a chunk whose key was seen. */
  lemma ScanSkips(chunks: seq<Chunk>, seen: set<string>, rank: nat, build: NodeBuilder)
    requires chunks != [] && Key(chunks[0]) in seen
    ensures var s, t := ScanChunks(chunks, seen, rank, build), ScanChunks(chunks[1..], seen, rank, build);
      s.seen == t.seen && s.nodes == t.nodes && s.error == t.error
  {
  }

  /** One step of the first loop, for a new key whose chunk raises. */
  lemma ScanStops(chunks: seq<Chunk>, seen: set<string>, rank: nat, build: NodeBuilder)
    requires chunks != [] && Key(chunks[0]) !in seen && build(chunks[0], rank).Failure?
    ensures var s := ScanChunks(chunks, seen, rank, build);
      s.seen == seen + {Key(chunks[0])} && s.nodes == [] && s.error == Some(build(chunks[0], rank).error)
  {
  }

  /** One step of the first loop, for a new key whose chunk becomes a node. */
  lemma ScanRanksNode(chunks: seq<Chunk>, seen: set<string>, rank: nat, build: NodeBuilder)
    requires chunks != [] && Key(chunks[0]) !in seen && build(chunks[0], rank).Success?
    ensures var s, t := ScanChunks(chunks, seen, rank, build), ScanChunks(chunks[1..], seen + {Key(chunks[0])}, rank + 1, build);
      s.seen == t.seen && s.nodes == [build(chunks[0], rank).value] + t.nodes && s.error == t.error
  {
  }

  /** Ranked nodes are numbered consecutively from `rank`, one per kept
      position, and the keys seen only grow. */
  lemma {:induction false} ScanNumbersConsecutively(chunks: seq<Chunk>, seen: set<string>, rank: nat, build: NodeBuilder)
    requires NumbersByRank(build)
    ensures var s := ScanChunks(chunks, seen, rank, build);
      && |s.nodes| == |s.kept|
      && (forall j | 0 <= j < |s.nodes| :: s.nodes[j].id == rank + j)
      && seen <= s.seen
  {
    if chunks != [] {
      var k := Key(chunks[0]);
      if k in seen {
        ScanNumbersConsecutively(chunks[1..], seen, rank, build);
      } else if build(chunks[0], rank).Success? {
        ScanNumbersConsecutively(chunks[1..], seen + {k}, rank + 1, build);
        var n := build(chunks[0], rank).value;
        var t := ScanChunks(chunks[1..], seen + {k}, rank + 1, build);
        assert n.id == rank;
        assert ScanChunks(chunks, seen, rank, build).nodes == [n] + t.nodes;
      }
    }
  }

  ghost predicate Increasing(ks: seq<nat>)
  {
    forall j, l | 0 <= j < l < |ks| :: ks[j] < ks[l]
  }

  /** Each ranked node is the node built, with its rank, from the chunk at its position. */
  ghost predicate BuiltFrom(chunks: seq<Chunk>, s: Scan, rank: nat, build: NodeBuilder)
  {
    forall j | 0 <= j < |s.kept| && j < |s.nodes| ::
      s.kept[j] < |chunks| && build(chunks[s.kept[j]], rank + j) == Success(s.nodes[j])
  }

  /** The kept positions are strictly increasing positions of the input. */
  lemma {:induction false} ScanKeptIncreasing(chunks: seq<Chunk>, seen: set<string>, rank: nat, build: NodeBuilder)
    ensures forall j | 0 <= j < |ScanChunks(chunks, seen, rank, build).kept| ::
      ScanChunks(chunks, seen, rank, build).kept[j] < |chunks|
    ensures Increasing(ScanChunks(chunks, seen, rank, build).kept)
  {
    if chunks != [] {
      var k := Key(chunks[0]);
      var s := ScanChunks(chunks, seen, rank, build);
      if k in seen {
        ScanKeptIncreasing(chunks[1..], seen, rank, build);
        var t := ScanChunks(chunks[1..], seen, rank, build);
        assert s.kept == Shift(t.kept);
      } else if build(chunks[0], rank).Success? {
        ScanKeptIncreasing(chunks[1..], seen + {k}, rank + 1, build);
        var t := ScanChunks(chunks[1..], seen + {k}, rank + 1, build);
        assert s.kept == [0] + Shift(t.kept);
        assert forall j | 0 < j < |s.kept| :: s.kept[j] == t.kept[j - 1] + 1;
      }
    }
  }

  /** Each ranked node is the node built from the chunk at its kept position. */
  lemma {:induction false} ScanNodesBuiltFrom(chunks: seq<Chunk>, seen: set<string>, rank: nat, build: NodeBuilder)
    ensures BuiltFrom(chunks, ScanChunks(chunks, seen, rank, build), rank, build)
  {
    if chunks != [] {
      var k := Key(chunks[0]);
      if k in seen {
        ScanNodesBuiltFrom(chunks[1..], seen, rank, build);
        BuiltFromSkip(chunks, ScanChunks(chunks[1..], seen, rank, build), rank, build);
      } else if build(chunks[0], rank).Success? {
        ScanNodesBuiltFrom(chunks[1..], seen + {k}, rank + 1, build);
        BuiltFromRank(chunks, ScanChunks(chunks[1..], seen + {k}, rank + 1, build), rank, build);
      }
    }
  }

  lemma BuiltFromSkip(chunks: seq<Chunk>, t: Scan, rank: nat, build: NodeBuilder)
    requires chunks != [] && BuiltFrom(chunks[1..], t, rank, build)
    ensures BuiltFrom(chunks, Scan(t.seen, t.nodes, Shift(t.kept), t.error), rank, build)
  {
    var s := Scan(t.seen, t.nodes, Shift(t.kept), t.error);
    forall j | 0 <= j < |s.kept| && j < |s.nodes|
      ensures s.kept[j] < |chunks| && build(chunks[s.kept[j]], rank + j) == Success(s.nodes[j])
    {
      assert t.kept[j] < |chunks[1..]|;
      assert chunks[s.kept[j]] == chunks[1..][t.kept[j]];
    }
  }

  lemma BuiltFromRank(chunks: seq<Chunk>, t: Scan, rank: nat, build: NodeBuilder)
    requires chunks != [] && build(chunks[0], rank).Success? && BuiltFrom(chunks[1..], t, rank + 1, build)
    ensures BuiltFrom(chunks, Scan(t.seen, [build(chunks[0], rank).value] + t.nodes, [0] + Shift(t.kept), t.error), rank, build)
  {
    var s := Scan(t.seen, [build(chunks[0], rank).value] + t.nodes, [0] + Shift(t.kept), t.error);
    forall j | 0 <= j < |s.kept| && j < |s.nodes|
      ensures s.kept[j] < |chunks| && build(chunks[s.kept[j]], rank + j) == Success(s.nodes[j])
    {
      if j > 0 {
        assert s.kept[j] == t.kept[j - 1] + 1;
        assert s.nodes[j] == t.nodes[j - 1];
        assert t.kept[j - 1] < |chunks[1..]|;
        assert chunks[s.kept[j]] == chunks[1..][t.kept[j - 1]];
      }
    }
  }

  /** Chunk `i` is the first with its key, and the key was not seen before. */
  ghost predicate FirstOccurrence(chunks: seq<Chunk>, seen: set<string>, i: nat)
    requires i < |chunks|
  {
    Key(chunks[i]) !in seen && forall j | 0 <= j < i :: Key(chunks[j]) != Key(chunks[i])
  }

  /** The keys of the chunks. */
  function KeySet(chunks: seq<Chunk>): set<string>
  {
    set c | c in chunks :: Key(c)
  }

  /** A scan that did not raise has seen every key of the chunks, and no
      other new key. */
  lemma {:induction false} ScanSeesAllKeys(chunks: seq<Chunk>, seen: set<string>, rank: nat, build: NodeBuilder)
    requires ScanChunks(chunks, seen, rank, build).error.None?
    ensures ScanChunks(chunks, seen, rank, build).seen == seen + KeySet(chunks)
  {
    if chunks != [] {
      var k := Key(chunks[0]);
      var seen' := if k in seen then seen else seen + {k};
      var rank' := if k in seen then rank else rank + 1;
      ScanSeesAllKeys(chunks[1..], seen', rank', build);
      assert KeySet(chunks) == {k} + KeySet(chunks[1..]) by {
        assert chunks == [chunks[0]] + chunks[1..];
      }
    }
  }

  /** A scan that did not raise keeps exactly the chunks whose key occurs for
      the first time. */
  lemma {:induction false} ScanKeepsFirstOccurrences(chunks: seq<Chunk>, seen: set<string>, rank: nat, build: NodeBuilder)
    requires ScanChunks(chunks, seen, rank, build).error.None?
    ensures var s := ScanChunks(chunks, seen, rank, build);
      forall i | 0 <= i < |chunks| :: i in s.kept <==> FirstOccurrence(chunks, seen, i)
  {
    if chunks != [] {
      var k := Key(chunks[0]);
      var seen' := if k in seen then seen else seen + {k};
      var rank' := if k in seen then rank else rank + 1;
      ScanKeepsFirstOccurrences(chunks[1..], seen', rank', build);
      var s := ScanChunks(chunks, seen, rank, build);
      var t := ScanChunks(chunks[1..], seen', rank', build);
      assert s.kept == (if k in seen then [] else [0]) + Shift(t.kept);
      assert 0 in s.kept <==> FirstOccurrence(chunks, seen, 0);
      forall i | 0 < i < |chunks|
        ensures i in s.kept <==> FirstOccurrence(chunks, seen, i)
      {
        ShiftMember(t.kept, i, k !in seen);
        assert chunks[1..][i - 1] == chunks[i];
        assert forall j | 0 < j < i :: chunks[1..][j - 1] == chunks[j];
        assert FirstOccurrence(chunks, seen, i) <==> FirstOccurrence(chunks[1..], seen', i - 1);
      }
    }
  }

  lemma ShiftMember(ks: seq<nat>, i: nat, head: bool)
    requires i > 0
    ensures i in (if head then [0] else []) + Shift(ks) <==> (i - 1) in ks
  {
    var r := (if head then [0] else []) + Shift(ks);
    if (i - 1) in ks {
      var j :| 0 <= j < |ks| && ks[j] == i - 1;
      assert r[j + |r| - |ks|] == i;
    }
  }

  /** A sequence without repeats has as many distinct elements as entries. */
  lemma {:induction false} DistinctCount<T>(s: seq<T>)
    requires forall i, j | 0 <= i < j < |s| :: s[i] != s[j]
    ensures |set x | x in s| == |s|
  {
    if s != [] {
      var init := s[..|s| - 1];
      DistinctCount(init);
      assert (set x | x in s) == (set x | x in init) + {s[|s| - 1]} by {
        assert s == init + [s[|s| - 1]];
      }
      forall i | 0 <= i < |init| ensures init[i] != s[|s| - 1] {
        assert init[i] == s[i];
      }
    }
  }

  /** A scan that did not raise ranks one node per distinct key not seen
      before. */
  lemma RankedCountIsDistinctKeys(chunks: seq<Chunk>, seen: set<string>, rank: nat, build: NodeBuilder)
    requires NumbersByRank(build)
    requires ScanChunks(chunks, seen, rank, build).error.None?
    ensures |ScanChunks(chunks, seen, rank, build).nodes| == |KeySet(chunks) - seen|
  {
    var s := ScanChunks(chunks, seen, rank, build);
    ScanNumbersConsecutively(chunks, seen, rank, build);
    ScanKeptIncreasing(chunks, seen, rank, build);
    ScanKeepsFirstOccurrences(chunks, seen, rank, build);
    FirstOccurrencesCount(chunks, seen, s.kept);
  }

  /** Increasing positions that are exactly the first occurrences of the keys
      not seen before number as many as those keys. */
  lemma FirstOccurrencesCount(chunks: seq<Chunk>, seen: set<string>, kept: seq<nat>)
    requires forall j | 0 <= j < |kept| :: kept[j] < |chunks|
    requires Increasing(kept)
    requires forall i | 0 <= i < |chunks| :: i in kept <==> FirstOccurrence(chunks, seen, i)
    ensures |kept| == |KeySet(chunks) - seen|
  {
    var keys := seq(|kept|, j requires 0 <= j < |kept| => Key(chunks[kept[j]]));
    forall j, l | 0 <= j < l < |keys| ensures keys[j] != keys[l] {
      assert kept[l] in kept;
      assert FirstOccurrence(chunks, seen, kept[l]);
    }
    DistinctCount(keys);
    forall x | x in KeySet(chunks) - seen ensures x in keys {
      var c :| c in chunks && Key(c) == x;
      var i :| 0 <= i < |chunks| && chunks[i] == c;
      var f := FirstIndexWithKey(chunks, x, i);
      assert FirstOccurrence(chunks, seen, f);
      var j :| 0 <= j < |kept| && kept[j] == f;
      assert keys[j] == x;
    }
    forall x | x in keys ensures x in KeySet(chunks) - seen {
      var j :| 0 <= j < |keys| && keys[j] == x;
      assert kept[j] in kept;
      assert chunks[kept[j]] in chunks;
    }
    assert (set x | x in keys) == KeySet(chunks) - seen;
  }

  /** The first position holding a chunk with key `x`, given one at `i`. */
  lemma {:induction false} FirstIndexWithKey(chunks: seq<Chunk>, x: string, i: nat) returns (f: nat)
    requires i < |chunks| && Key(chunks[i]) == x
    ensures f <= i && Key(chunks[f]) == x
    ensures forall j | 0 <= j < f :: Key(chunks[j]) != x
  {
    if exists j | 0 <= j < i :: Key(chunks[j]) == x {
      var j :| 0 <= j < i && Key(chunks[j]) == x;
      f := FirstIndexWithKey(chunks, x, j);
    } else {
      f := i;
    }
  }

  /** When every key has been seen, the loop ranks nothing and changes nothing. */
  lemma {:induction false} ScanAllSeen(chunks: seq<Chunk>, seen: set<string>, rank: nat, build: NodeBuilder)
    requires KeySet(chunks) <= seen
    ensures ScanChunks(chunks, seen, rank, build) == Scan(seen, [], [], None)
  {
    if chunks != [] {
      assert chunks[0] in chunks;
      assert KeySet(chunks[1..]) <= KeySet(chunks) by {
        forall x | x in KeySet(chunks[1..]) ensures x in KeySet(chunks) {
          var c :| c in chunks[1..] && Key(c) == x;
          assert c in chunks;
        }
      }
      ScanAllSeen(chunks[1..], seen, rank, build);
    }
  }

  /** A second build over the same chunks after one that did not raise finds
      every key seen: it ranks nothing new. */
  lemma RebuildRanksNothing(chunks: seq<Chunk>, seen: set<string>, build: NodeBuilder)
    requires ScanChunks(chunks, seen, 1, build).error.None?
    ensures var s := ScanChunks(chunks, seen, 1, build);
      ScanChunks(chunks, s.seen, 1, build) == Scan(s.seen, [], [], None)
  {
    ScanSeesAllKeys(chunks, seen, 1, build);
    ScanAllSeen(chunks, ScanChunks(chunks, seen, 1, build).seen, 1, build);
  }

  // ---------------------------------------------------------------------------
  // The second and third loops: the id index and the messages

  /** `chunk_map[chunk.id] = chunk.dict()` for each node in turn: a later node
      with the same id overwrites an earlier one. */
  function PutAll(m: map<nat, CitationNode>, ns: seq<CitationNode>): map<nat, CitationNode>
  {
    if ns == [] then m else PutAll(m, ns[..|ns| - 1])[ns[|ns| - 1].id := ns[|ns| - 1]]
  }

  /** Numbered consecutively from `rank`, the nodes are indexed exactly by
      their ids, each id giving its own node. */
  lemma {:induction false} PutAllDense(ns: seq<CitationNode>, rank: nat)
    requires forall j | 0 <= j < |ns| :: ns[j].id == rank + j
    ensures var m := PutAll(map[], ns);
      && (forall i :: i in m <==> rank <= i < rank + |ns|)
      && (forall j | 0 <= j < |ns| :: m[rank + j] == ns[j])
  {
    if ns != [] {
      PutAllDense(ns[..|ns| - 1], rank);
    }
  }

  /** On a fresh context, a build that does not raise numbers the kept chunks
      1..N, and `chunk_map` maps exactly the numbers 1..N, each to the node
      with that number. */
  lemma FreshBuildIndexesByRank(chunks: seq<Chunk>, clean: Cleaner)
    requires ScanChunks(chunks, {}, 1, Builder(clean)).error.None?
    ensures var ns := ScanChunks(chunks, {}, 1, Builder(clean)).nodes;
      var m := PutAll(map[], ns);
      && (forall j | 0 <= j < |ns| :: ns[j].id == j + 1)
      && (forall i :: i in m <==> 1 <= i <= |ns|)
      && (forall j | 0 <= j < |ns| :: m[j + 1] == ns[j])
  {
    BuilderNumbersByRank(clean);
    ScanNumbersConsecutively(chunks, {}, 1, Builder(clean));
    PutAllDense(ScanChunks(chunks, {}, 1, Builder(clean)).nodes, 1);
  }

  /** One entry of `messages`: `{"type": "text", "text": chunk_msg}`. */
  datatype Message = TextMessage(text: string)

  function IndexTag(id: nat, closing: bool): string
  {
    (if closing then "</Text Document Index: " else "<Text Document Index: ") + NatToString(id) + ">"
  }

  /** `f"{prefix}{chunk.text}{suffix}"` */
  function Wrap(id: nat, text: string, withReferences: bool): string
  {
    if withReferences then IndexTag(id, false) + "\n" + text + "\n" + IndexTag(id, true) else text
  }

  /** The cited text of a message, when it carries the markers of `id`. */
  function Unwrap(msg: string, id: nat, withReferences: bool): (r: Option<string>)
    ensures r.Some? ==> |r.value| <= |msg|
  {
    if !withReferences then Some(msg)
    else
      var open, close := IndexTag(id, false) + "\n", "\n" + IndexTag(id, true);
      if |msg| >= |open| + |close| && msg[..|open|] == open && msg[|msg| - |close|..] == close
      then Some(msg[|open|..|msg| - |close|])
      else None
  }

  /** Unwrapping a message recovers the cleaned text exactly. */
  lemma UnwrapWrap(id: nat, text: string, withReferences: bool)
    ensures Unwrap(Wrap(id, text, withReferences), id, withReferences) == Some(text)
  {
    if withReferences {
      var open, close := IndexTag(id, false) + "\n", "\n" + IndexTag(id, true);
      var msg := Wrap(id, text, withReferences);
      assert msg == open + text + close;
      assert msg[..|open|] == open;
      assert msg[|msg| - |close|..] == close;
      assert msg[|open|..|msg| - |close|] == text;
    }
  }

  function Messages(ns: seq<CitationNode>, withReferences: bool): (r: seq<Message>)
    ensures |r| == |ns|
  {
    seq(|ns|, j requires 0 <= j < |ns| => TextMessage(Wrap(ns[j].id, ns[j].text, withReferences)))
  }

  lemma MessagesAppend(ns: seq<CitationNode>, n: CitationNode, withReferences: bool)
    ensures Messages(ns + [n], withReferences) == Messages(ns, withReferences) + [TextMessage(Wrap(n.id, n.text, withReferences))]
  {
    var l, r := Messages(ns + [n], withReferences), Messages(ns, withReferences) + [TextMessage(Wrap(n.id, n.text, withReferences))];
    forall j | 0 <= j < |l| ensures l[j] == r[j] {
      if j < |ns| {
        assert (ns + [n])[j] == ns[j];
      }
    }
  }

  /** The second loop of `build_context`: `chunk_map[chunk.id] = chunk.dict()`. */
  method IndexById(m: map<nat, CitationNode>, ns: seq<CitationNode>) returns (index: map<nat, CitationNode>)
    ensures index == PutAll(m, ns)
  {
    index := m;
    for j := 0 to |ns|
      invariant index == PutAll(m, ns[..j])
    {
      assert ns[..j + 1][..j] == ns[..j];
      index := index[ns[j].id := ns[j]];
    }
    assert ns[..|ns|] == ns;
  }

  /** The third loop of `build_context`: one message per ranked node, in order. */
  method RenderMessages(ns: seq<CitationNode>, withReferences: bool) returns (msgs: seq<Message>)
    ensures msgs == Messages(ns, withReferences)
  {
    msgs := [];
    for j := 0 to |ns|
      invariant msgs == Messages(ns[..j], withReferences)
    {
      var chunk := ns[j];
      var chunkMsg := Wrap(chunk.id, chunk.text, withReferences);
      assert ns[..j + 1] == ns[..j] + [chunk];
      MessagesAppend(ns[..j], chunk, withReferences);
      msgs := msgs + [TextMessage(chunkMsg)];
    }
    assert ns[..|ns|] == ns;
  }

  // ---------------------------------------------------------------------------
  // The class

  /** Part way through the first loop: the whole scan is the nodes `added`
      so far followed by the scan of the remaining chunks. */
  ghost predicate Resumes(total: Scan, added: seq<CitationNode>, rest: Scan)
  {
    total.seen == rest.seen && total.error == rest.error && total.nodes == added + rest.nodes
  }

  lemma ResumeSkip(total: Scan, added: seq<CitationNode>, cs: seq<Chunk>, seen: set<string>, rank: nat, build: NodeBuilder)
    requires cs != [] && Key(cs[0]) in seen && Resumes(total, added, ScanChunks(cs, seen, rank, build))
    ensures Resumes(total, added, ScanChunks(cs[1..], seen, rank, build))
  {
    ScanSkips(cs, seen, rank, build);
  }

  lemma ResumeStop(total: Scan, added: seq<CitationNode>, cs: seq<Chunk>, seen: set<string>, rank: nat, build: NodeBuilder)
    requires cs != [] && Key(cs[0]) !in seen && build(cs[0], rank).Failure?
    requires Resumes(total, added, ScanChunks(cs, seen, rank, build))
    ensures total.seen == seen + {Key(cs[0])} && total.nodes == added && total.error == Some(build(cs[0], rank).error)
  {
    ScanStops(cs, seen, rank, build);
    assert added + [] == added;
  }

  lemma ResumeRank(total: Scan, added: seq<CitationNode>, cs: seq<Chunk>, seen: set<string>, rank: nat, build: NodeBuilder)
    requires cs != [] && Key(cs[0]) !in seen && build(cs[0], rank).Success?
    requires Resumes(total, added, ScanChunks(cs, seen, rank, build))
    ensures Resumes(total, added + [build(cs[0], rank).value], ScanChunks(cs[1..], seen + {Key(cs[0])}, rank + 1, build))
  {
    ScanRanksNode(cs, seen, rank, build);
    var t := ScanChunks(cs[1..], seen + {Key(cs[0])}, rank + 1, build);
    assert added + ([build(cs[0], rank).value] + t.nodes) == (added + [build(cs[0], rank).value]) + t.nodes;
  }

  class RAGContext {
    const chunks: seq<Chunk>
    const withReferences: bool
    var rankedChunks: seq<CitationNode>
    var seenMap: set<string>
    var chunkMap: map<nat, CitationNode>
    var messages: seq<Message>

    constructor(chunks: seq<Chunk>, withReferences: bool)
      ensures this.chunks == chunks && this.withReferences == withReferences
      ensures rankedChunks == [] && seenMap == {} && chunkMap == map[] && messages == []
    {
      this.chunks := chunks;
      this.withReferences := withReferences;
      rankedChunks := [];
      seenMap := {};
      chunkMap := map[];
      messages := [];
    }

    /** `build_context`, which builds each node with `clean_text` and `int()`
        as `ToNode` describes. */
    method BuildContext(clean: Cleaner) returns (err: Option<BuildError>)
      modifies this
      ensures var s := ScanChunks(chunks, old(seenMap), 1, Builder(clean));
        && err == s.error
        && seenMap == s.seen
        && rankedChunks == old(rankedChunks) + s.nodes
        && chunkMap == (if err.None? then PutAll(old(chunkMap), rankedChunks) else old(chunkMap))
        && messages == (if err.None? then old(messages) + Messages(rankedChunks, withReferences) else old(messages))
    {
      err := BuildContextWith(Builder(clean));
    }

    /** The three loops of `build_context`, given how a chunk becomes a node.
        When building a node raises, the exception escapes with the keys and
        nodes gathered so far left in place and the index and messages
        untouched. */
    method BuildContextWith(build: NodeBuilder) returns (err: Option<BuildError>)
      modifies this
      ensures var s := ScanChunks(chunks, old(seenMap), 1, build);
        && err == s.error
        && seenMap == s.seen
        && rankedChunks == old(rankedChunks) + s.nodes
        && chunkMap == (if err.None? then PutAll(old(chunkMap), rankedChunks) else old(chunkMap))
        && messages == (if err.None? then old(messages) + Messages(rankedChunks, withReferences) else old(messages))
    {
      err := RankChunks(build);
      if err.Some? {
        return;
      }
      chunkMap := IndexById(chunkMap, rankedChunks);
      var rendered := RenderMessages(rankedChunks, withReferences);
      messages := messages + rendered;
    }

    /** The first loop of `build_context`: each chunk whose key is new has its
        key recorded, then is built into a node ranked next; an exception
        escapes at once. */
    method RankChunks(build: NodeBuilder) returns (err: Option<BuildError>)
      modifies this
      ensures var s := ScanChunks(chunks, old(seenMap), 1, build);
        && err == s.error
        && seenMap == s.seen
        && rankedChunks == old(rankedChunks) + s.nodes
        && chunkMap == old(chunkMap) && messages == old(messages)
    {
      ghost var total := ScanChunks(chunks, seenMap, 1, build);
      ghost var added: seq<CitationNode> := [];
      var rank: nat := 1;
      assert chunks[0..] == chunks;
      assert Resumes(total, [], ScanChunks(chunks[0..], seenMap, rank, build));
      for i := 0 to |chunks|
        invariant rankedChunks == old(rankedChunks) + added
        invariant Resumes(total, added, ScanChunks(chunks[i..], seenMap, rank, build))
        invariant chunkMap == old(chunkMap) && messages == old(messages)
      {
        var chunk := chunks[i];
        assert chunks[i..][1..] == chunks[i + 1..] && chunks[i..][0] == chunk;
        var uniqueKey := Key(chunk);
        if uniqueKey in seenMap {
          ResumeSkip(total, added, chunks[i..], seenMap, rank, build);
          continue;
        }
        ghost var before := seenMap;
        seenMap := seenMap + {uniqueKey};
        var node := build(chunk, rank);
        if node.Failure? {
          ResumeStop(total, added, chunks[i..], before, rank, build);
          return Some(node.error);
        }
        ResumeRank(total, added, chunks[i..], before, rank, build);
        rankedChunks := rankedChunks + [node.value];
        added := added + [node.value];
        rank := rank + 1;
      }
      assert chunks[|chunks|..] == [];
      assert added + [] == added;
      return None;
    }
  }
}
