/** `common/redis_utils.py`: the event payload built by `formatter`, the
    per-chat stream name, the flat field encoding of a stream entry and its
    decoding in `read_items`, the connect-once client of `RedisManager`, and
    the reply handling of `RedisCache.get`. Redis itself is an in-memory
    store: a map from stream names to append-only logs of entries. */
module RedisUtils {

  import opened Wrappers

  // ---------------------------------------------------------------------------
  // Payloads and their field encoding

  /** A Python dict with string keys and values, as its items in insertion order. */
  type Dict = seq<(string, string)>

  /** The dict the items build, assigned left to right: a later item's value
      replaces an earlier one under the same key. */
  function DictMap(d: Dict): map<string, string>
  {
    DictFrom(map[], d)
  }

  function DictFrom(m: map<string, string>, d: Dict): map<string, string>
    decreases |d|
  {
    if d == [] then m else DictFrom(m[d[0].0 := d[0].1], d[1..])
  }

  /** What `xadd` sends: the items as a flat list `[k1, v1, k2, v2, ...]`. */
  function Flatten(d: Dict): (f: seq<string>)
    ensures |f| == 2 * |d|
    ensures forall i | 0 <= i < |d| :: f[2 * i] == d[i].0 && f[2 * i + 1] == d[i].1
  {
    if d == [] then [] else [d[0].0, d[0].1] + Flatten(d[1..])
  }

  /** `{fields[i]: fields[i + 1] for i in range(0, len(fields), 2)}` over an
      even-length list, assigned left to right. */
  function DecodeFrom(m: map<string, string>, f: seq<string>): map<string, string>
    requires |f| % 2 == 0
    decreases |f|
  {
    if f == [] then m else DecodeFrom(m[f[0] := f[1]], f[2..])
  }

  /** The comprehension of `read_items`: an odd-length list raises IndexError
      on its last key, modelled as None. */
  function DecodeFields(f: seq<string>): Option<map<string, string>>
  {
    if |f| % 2 == 1 then None else Some(DecodeFrom(map[], f))
  }

  lemma {:induction false} DecodeFromFlatten(m: map<string, string>, d: Dict)
    ensures DecodeFrom(m, Flatten(d)) == DictFrom(m, d)
    decreases |d|
  {
    if d != [] {
      var f := Flatten(d);
      assert f[2..] == Flatten(d[1..]);
      DecodeFromFlatten(m[d[0].0 := d[0].1], d[1..]);
    }
  }

  /** Decoding what was pushed gives back the pushed dict. */
  lemma DecodeFlatten(d: Dict)
    ensures DecodeFields(Flatten(d)) == Some(DictMap(d))
  {
    DecodeFromFlatten(map[], d);
  }

  /** The keys of the decoded dict are exactly the keys at even positions. */
  lemma {:induction false} DecodeFromKeys(m: map<string, string>, f: seq<string>)
    requires |f| % 2 == 0
    ensures forall k :: k in DecodeFrom(m, f) <==> k in m || exists i | 0 <= i < |f| && i % 2 == 0 :: f[i] == k
    decreases |f|
  {
    if f != [] {
      DecodeFromKeys(m[f[0] := f[1]], f[2..]);
      forall k | k in DecodeFrom(m, f)
        ensures k in m || exists i | 0 <= i < |f| && i % 2 == 0 :: f[i] == k
      {
        assert DecodeFrom(m, f) == DecodeFrom(m[f[0] := f[1]], f[2..]);
        if k !in m && k != f[0] {
          assert k !in m[f[0] := f[1]];
          assert exists j | 0 <= j < |f[2..]| && j % 2 == 0 :: f[2..][j] == k;
          var j :| 0 <= j < |f[2..]| && j % 2 == 0 && f[2..][j] == k;
          assert f[j + 2] == k;
        }
      }
      forall k | exists i | 0 <= i < |f| && i % 2 == 0 :: f[i] == k
        ensures k in DecodeFrom(m, f)
      {
        var i :| 0 <= i < |f| && i % 2 == 0 && f[i] == k;
        if i >= 2 {
          assert f[2..][i - 2] == k;
        }
      }
    }
  }

  /** Under a repeated key the last value wins. */
  lemma {:induction false} DecodeFromLaterWins(m: map<string, string>, f: seq<string>, i: nat)
    requires |f| % 2 == 0 && i % 2 == 0 && i + 1 < |f|
    requires forall j | i < j < |f| && j % 2 == 0 :: f[j] != f[i]
    ensures f[i] in DecodeFrom(m, f) && DecodeFrom(m, f)[f[i]] == f[i + 1]
    decreases |f|
  {
    if i == 0 {
      DecodeFromKeeps(m[f[0] := f[1]], f[2..], f[0]);
    } else {
      assert f[2..][i - 2] == f[i] && f[2..][i - 1] == f[i + 1];
      forall j | i - 2 < j < |f[2..]| && j % 2 == 0
        ensures f[2..][j] != f[2..][i - 2]
      {
        assert f[2..][j] == f[j + 2];
      }
      DecodeFromLaterWins(m[f[0] := f[1]], f[2..], i - 2);
    }
  }

  /** A key that no later pair mentions keeps its value. */
  lemma {:induction false} DecodeFromKeeps(m: map<string, string>, f: seq<string>, k: string)
    requires |f| % 2 == 0 && k in m
    requires forall j | 0 <= j < |f| && j % 2 == 0 :: f[j] != k
    ensures k in DecodeFrom(m, f) && DecodeFrom(m, f)[k] == m[k]
    decreases |f|
  {
    if f != [] {
      assert f[0] != k;
      forall j | 0 <= j < |f[2..]| && j % 2 == 0
        ensures f[2..][j] != k
      {
        assert f[2..][j] == f[j + 2];
      }
      DecodeFromKeeps(m[f[0] := f[1]], f[2..], k);
    }
  }

  /** `read_items` decoding: the keys are the even-position fields, and each
      maps to the value after its last occurrence. */
  lemma DecodeFieldsLaterWins(f: seq<string>, i: nat)
    requires |f| % 2 == 0 && i % 2 == 0 && i + 1 < |f|
    requires forall j | i < j < |f| && j % 2 == 0 :: f[j] != f[i]
    ensures DecodeFields(f).Some?
    ensures forall k :: k in DecodeFields(f).value <==> exists j | 0 <= j < |f| && j % 2 == 0 :: f[j] == k
    ensures DecodeFields(f).value[f[i]] == f[i + 1]
  {
    DecodeFromKeys(map[], f);
    DecodeFromLaterWins(map[], f, i);
  }

  // ---------------------------------------------------------------------------
  // `formatter`

  /** The payload dict: "type" and "chat_id", then "data" and "status" when
      they are not None. */
  function Formatter(kind: string, chatId: string, data: Option<string>, status: Option<string>): Dict
  {
    [("type", kind), ("chat_id", chatId)]
    + (if data.Some? then [("data", data.value)] else [])
    + (if status.Some? then [("status", status.value)] else [])
  }

  /** The payload always carries its type and chat id; data is present exactly
      when given, and so is status; nothing else is. */
  lemma FormatterFields(kind: string, chatId: string, data: Option<string>, status: Option<string>)
    ensures var p := DictMap(Formatter(kind, chatId, data, status));
      && p.Keys == {"type", "chat_id"} + (if data.Some? then {"data"} else {}) + (if status.Some? then {"status"} else {})
      && p["type"] == kind && p["chat_id"] == chatId
      && (data.Some? ==> p["data"] == data.value)
      && (status.Some? ==> p["status"] == status.value)
  {
    var d := Formatter(kind, chatId, data, status);
    var m0 := map["type" := kind, "chat_id" := chatId];
    var rest := d[2..];
    assert d == [("type", kind), ("chat_id", chatId)] + rest;
    DictFromAppend(map[], [("type", kind), ("chat_id", chatId)], rest);
    assert DictFrom(map[], [("type", kind), ("chat_id", chatId)]) == m0 by {
      assert [("type", kind), ("chat_id", chatId)][1..] == [("chat_id", chatId)];
      assert [("chat_id", chatId)][1..] == [];
      assert DictFrom(map["type" := kind], [("chat_id", chatId)]) == DictFrom(m0, []);
    }
    if data.Some? && status.Some? {
      assert rest == [("data", data.value)] + [("status", status.value)];
      DictFromAppend(m0, [("data", data.value)], [("status", status.value)]);
      DictFromOne(m0, "data", data.value);
      DictFromOne(m0["data" := data.value], "status", status.value);
      assert DictFrom(m0, rest) == m0["data" := data.value]["status" := status.value];
    } else if data.Some? {
      assert rest == [("data", data.value)];
      DictFromOne(m0, "data", data.value);
    } else if status.Some? {
      assert rest == [("status", status.value)];
      DictFromOne(m0, "status", status.value);
    } else {
      assert rest == [];
    }
  }

  lemma DictFromOne(m: map<string, string>, k: string, v: string)
    ensures DictFrom(m, [(k, v)]) == m[k := v]
  {
    assert [(k, v)][1..] == [];
  }

  lemma {:induction false} DictFromAppend(m: map<string, string>, a: Dict, b: Dict)
    ensures DictFrom(m, a + b) == DictFrom(DictFrom(m, a), b)
    decreases |a|
  {
    if a != [] {
      assert (a + b)[1..] == a[1..] + b;
      DictFromAppend(m[a[0].0 := a[0].1], a[1..], b);
    } else {
      assert a + b == b;
    }
  }

  /** The payload read back from the stream is the payload pushed. */
  lemma FormatterRoundTrip(kind: string, chatId: string, data: Option<string>, status: Option<string>)
    ensures var f := DecodeFields(Flatten(Formatter(kind, chatId, data, status)));
      && f.Some? && "type" in f.value && "chat_id" in f.value
      && f.value["type"] == kind && f.value["chat_id"] == chatId
      && ("data" in f.value <==> data.Some?) && (data.Some? ==> f.value["data"] == data.value)
      && ("status" in f.value <==> status.Some?) && (status.Some? ==> f.value["status"] == status.value)
  {
    DecodeFlatten(Formatter(kind, chatId, data, status));
    FormatterFields(kind, chatId, data, status);
  }

  // ---------------------------------------------------------------------------
  // Stream names

  /** `f'{REDIS_PREFIX}_{chat_id}_response'` */
  function StreamName(prefix: string, chatId: string): string
  {
    prefix + "_" + chatId + "_response"
  }

  /** Each chat has its own response stream. */
  lemma StreamNameInjective(prefix: string, a: string, b: string)
    requires StreamName(prefix, a) == StreamName(prefix, b)
    ensures a == b
  {
    var sa := StreamName(prefix, a);
    var sb := StreamName(prefix, b);
    assert |a| == |b|;
    assert a == sa[|prefix| + 1..|prefix| + 1 + |a|];
    assert b == sb[|prefix| + 1..|prefix| + 1 + |b|];
  }

  // ---------------------------------------------------------------------------
  // The in-memory Redis and the stream pushes

  /** The Redis server the services talk to: a log of entries per stream (an
      entry's id is its position in the log) and whether calls to it succeed.
      `prefix` is the configured `REDIS_PREFIX`. */
  class RedisStore {
    const prefix: string
    var streams: map<string, seq<seq<string>>>
    var up: bool

    constructor(prefix: string, up: bool)
      ensures this.prefix == prefix && this.up == up && streams == map[]
    {
      this.prefix := prefix;
      this.up := up;
      streams := map[];
    }

    /** `push_stream_response`: the payload is appended to its chat's
        response stream; a missing "chat_id" or a failing server pushes
        nothing, and the failure is swallowed. */
    method PushStreamResponse(payload: Dict)
      modifies this
      ensures up == old(up)
      ensures streams == Pushed(old(streams), prefix, up, payload)
    {
      var p := DictMap(payload);
      if "chat_id" in p && up {
        var name := StreamName(prefix, p["chat_id"]);
        streams := streams[name := Log(streams, name) + [Flatten(payload)]];
      }
    }

    /** `formatter`: build the payload and push it. */
    method Emit(kind: string, chatId: string, data: Option<string>, status: Option<string>)
      modifies this
      ensures up == old(up)
      ensures streams == Pushed(old(streams), prefix, up, Formatter(kind, chatId, data, status))
    {
      PushStreamResponse(Formatter(kind, chatId, data, status));
    }
  }

  /** The log of a stream; a stream that was never written to is empty. */
  function Log(streams: map<string, seq<seq<string>>>, name: string): seq<seq<string>>
  {
    if name in streams then streams[name] else []
  }

  /** The streams after pushing one payload. */
  function Pushed(streams: map<string, seq<seq<string>>>, prefix: string, up: bool, payload: Dict): map<string, seq<seq<string>>>
  {
    var p := DictMap(payload);
    if "chat_id" in p && up then
      var name := StreamName(prefix, p["chat_id"]);
      streams[name := Log(streams, name) + [Flatten(payload)]]
    else streams
  }

  /** The streams after pushing payloads in order. */
  function PushedAll(streams: map<string, seq<seq<string>>>, prefix: string, up: bool, payloads: seq<Dict>): map<string, seq<seq<string>>>
    decreases |payloads|
  {
    if payloads == [] then streams
    else PushedAll(Pushed(streams, prefix, up, payloads[0]), prefix, up, payloads[1..])
  }

  lemma {:induction false} PushedAllSnoc(streams: map<string, seq<seq<string>>>, prefix: string, up: bool, payloads: seq<Dict>, p: Dict)
    ensures PushedAll(streams, prefix, up, payloads + [p]) == Pushed(PushedAll(streams, prefix, up, payloads), prefix, up, p)
    decreases |payloads|
  {
    if payloads == [] {
      assert payloads + [p] == [p];
      assert [p][1..] == [];
    } else {
      assert (payloads + [p])[1..] == payloads[1..] + [p];
      PushedAllSnoc(Pushed(streams, prefix, up, payloads[0]), prefix, up, payloads[1..], p);
    }
  }

  /** Pushing payloads for one chat appends their encodings, in order, to that
      chat's response stream when the server is up, and changes nothing
      otherwise; other streams are untouched either way. */
  lemma {:induction false} PushedAllOneChat(streams: map<string, seq<seq<string>>>, prefix: string, up: bool, chatId: string, payloads: seq<Dict>)
    requires forall i | 0 <= i < |payloads| :: "chat_id" in DictMap(payloads[i]) && DictMap(payloads[i])["chat_id"] == chatId
    ensures forall n :: (Log(PushedAll(streams, prefix, up, payloads), n)
      == if up && n == StreamName(prefix, chatId) then Log(streams, n) + Encoded(payloads) else Log(streams, n))
    decreases |payloads|
  {
    if payloads != [] {
      var s1 := Pushed(streams, prefix, up, payloads[0]);
      PushedAllOneChat(s1, prefix, up, chatId, payloads[1..]);
      assert Encoded(payloads) == [Flatten(payloads[0])] + Encoded(payloads[1..]);
    }
  }

  /** The entries a sequence of payloads becomes. */
  function Encoded(payloads: seq<Dict>): (r: seq<seq<string>>)
    ensures |r| == |payloads| && forall i | 0 <= i < |payloads| :: r[i] == Flatten(payloads[i])
  {
    seq(|payloads|, i requires 0 <= i < |payloads| => Flatten(payloads[i]))
  }

  // ---------------------------------------------------------------------------
  // `read_items`

  /** One entry of an `xread` reply: its id and its flat field list. */
  datatype Entry = Entry(id: nat, fields: seq<string>)

  /** An `xread` reply: per stream read, its name and its entries. */
  type Reply = seq<(string, seq<Entry>)>

  /** One decoded item, `{"id": entry_id, "message": message}`. */
  datatype StreamMessage = StreamMessage(id: nat, message: map<string, string>)

  /** The entries of a reply in stream-then-entry order. */
  function Entries(reply: Reply): seq<Entry>
  {
    if reply == [] then [] else reply[0].1 + Entries(reply[1..])
  }

  /** Decoding entries in order; the first malformed entry makes the whole read
      raise (None). */
  function DecodeEntries(es: seq<Entry>): Option<seq<StreamMessage>>
  {
    if es == [] then Some([])
    else
      match DecodeFields(es[0].fields)
      case None => None
      case Some(m) =>
        match DecodeEntries(es[1..])
        case None => None
        case Some(rest) => Some([StreamMessage(es[0].id, m)] + rest)
  }

  lemma {:induction false} EntriesSnoc(reply: Reply, i: nat)
    requires i < |reply|
    ensures Entries(reply[..i + 1]) == Entries(reply[..i]) + reply[i].1
  {
    if i == 0 {
      assert reply[..1][1..] == [];
    } else {
      assert reply[..i + 1][1..] == reply[1..][..i];
      assert reply[..i][1..] == reply[1..][..i - 1];
      EntriesSnoc(reply[1..], i - 1);
    }
  }

  lemma {:induction false} DecodeEntriesSnoc(es: seq<Entry>, e: Entry)
    requires DecodeEntries(es).Some?
    ensures DecodeFields(e.fields).None? ==> DecodeEntries(es + [e]).None?
    ensures DecodeFields(e.fields).Some? ==>
      DecodeEntries(es + [e]) == Some(DecodeEntries(es).value + [StreamMessage(e.id, DecodeFields(e.fields).value)])
  {
    if es == [] {
      assert es + [e] == [e];
      assert [e][1..] == [];
      if DecodeFields(e.fields).Some? {
        var last := StreamMessage(e.id, DecodeFields(e.fields).value);
        assert DecodeEntries([e]) == Some([last] + []);
        assert [] + [last] == [last] + [];
      }
    } else {
      assert (es + [e])[1..] == es[1..] + [e];
      assert (es + [e])[0] == es[0];
      DecodeEntriesSnoc(es[1..], e);
      var head := StreamMessage(es[0].id, DecodeFields(es[0].fields).value);
      assert DecodeEntries(es).value == [head] + DecodeEntries(es[1..]).value;
      if DecodeFields(e.fields).Some? {
        var last := StreamMessage(e.id, DecodeFields(e.fields).value);
        assert [head] + (DecodeEntries(es[1..]).value + [last]) == ([head] + DecodeEntries(es[1..]).value) + [last];
      }
    }
  }

  /** `read_items` after the `xread`: every entry of every stream decoded in
      order, `[]` for an empty reply, an error when a field list is odd. */
  method ReadItems(reply: Reply) returns (r: Option<seq<StreamMessage>>)
    ensures r == DecodeEntries(Entries(reply))
  {
    var messages: seq<StreamMessage> := [];
    for i := 0 to |reply|
      invariant DecodeEntries(Entries(reply[..i])) == Some(messages)
    {
      EntriesSnoc(reply, i);
      var decoded := DecodeStream(Entries(reply[..i]), messages, reply[i].1);
      if decoded.None? {
        ghost var pre := Entries(reply[..i + 1]);
        EntriesSplit(reply, i);
        assert Entries(reply)[..|pre|] == pre;
        DecodeEntriesPrefixFails(pre, Entries(reply));
        return None;
      }
      messages := decoded.value;
    }
    assert reply[..|reply|] == reply;
    return Some(messages);
  }

  /** The inner loop of `read_items`: one stream's entries decoded after the
      messages already decoded from the entries `done`. */
  method DecodeStream(ghost done: seq<Entry>, messages: seq<StreamMessage>, entries: seq<Entry>)
    returns (r: Option<seq<StreamMessage>>)
    requires DecodeEntries(done) == Some(messages)
    ensures r == DecodeEntries(done + entries)
  {
    var acc := messages;
    assert done + entries[..0] == done;
    for j := 0 to |entries|
      invariant DecodeEntries(done + entries[..j]) == Some(acc)
    {
      assert entries[..j + 1] == entries[..j] + [entries[j]];
      assert done + entries[..j + 1] == (done + entries[..j]) + [entries[j]];
      DecodeEntriesSnoc(done + entries[..j], entries[j]);
      var message := DecodeFields(entries[j].fields);
      if message.None? {
        ghost var pre := done + entries[..j + 1];
        assert (done + entries)[..|pre|] == pre;
        DecodeEntriesPrefixFails(pre, done + entries);
        return None;
      }
      acc := acc + [StreamMessage(entries[j].id, message.value)];
    }
    assert entries[..|entries|] == entries;
    return Some(acc);
  }

  lemma {:induction false} EntriesSplit(reply: Reply, i: nat)
    requires i < |reply|
    ensures Entries(reply) == Entries(reply[..i]) + reply[i].1 + Entries(reply[i + 1..])
  {
    if i == 0 {
      assert reply[..0] == [];
    } else {
      EntriesSplit(reply[1..], i - 1);
      assert reply[1..][..i - 1] == reply[1..i];
      assert reply[..i][1..] == reply[1..i];
      assert reply[1..][i - 1] == reply[i];
      assert reply[1..][i..] == reply[i + 1..];
    }
  }

  /** Once a prefix of the entries fails to decode, the whole read fails. */
  lemma {:induction false} DecodeEntriesPrefixFails(p: seq<Entry>, es: seq<Entry>)
    requires DecodeEntries(p).None? && |p| <= |es| && es[..|p|] == p
    ensures DecodeEntries(es).None?
  {
    if p != [] {
      assert es[0] == p[0];
      assert es[1..][..|p| - 1] == p[1..];
      if DecodeFields(p[0].fields).Some? {
        DecodeEntriesPrefixFails(p[1..], es[1..]);
      }
    }
  }

  /** A reply of well-formed entries decodes to one message per entry, ids in
      reply order; an empty reply reads as `[]`. */
  lemma {:induction false} DecodeEntriesWellFormed(es: seq<Entry>)
    requires forall i | 0 <= i < |es| :: |es[i].fields| % 2 == 0
    ensures var r := DecodeEntries(es);
      && r.Some? && |r.value| == |es|
      && forall i | 0 <= i < |es| :: r.value[i].id == es[i].id && Some(r.value[i].message) == DecodeFields(es[i].fields)
  {
    if es != [] {
      DecodeEntriesWellFormed(es[1..]);
    }
  }

  /** `xread({name: last_id}, count=count)` against the store: the entries of
      the stream after position `from`, at most `count` of them, or nothing. */
  function XRead(streams: map<string, seq<seq<string>>>, name: string, from: nat, count: nat): (reply: Reply)
    ensures reply == [] || (|reply| == 1 && reply[0].0 == name)
  {
    var log := Log(streams, name);
    if from >= |log| || count == 0 then []
    else
      var n := if |log| - from < count then |log| - from else count;
      [(name, seq(n, k requires 0 <= k < n => Entry(from + k, log[from + k])))]
  }

  /** A payload pushed to a chat's response stream is read back, with its
      position as id, as the dict that was pushed. */
  lemma ReadAfterPush(streams: map<string, seq<seq<string>>>, prefix: string, payload: Dict)
    requires "chat_id" in DictMap(payload)
    ensures var name := StreamName(prefix, DictMap(payload)["chat_id"]);
      var after := Pushed(streams, prefix, true, payload);
      DecodeEntries(Entries(XRead(after, name, |Log(streams, name)|, 1)))
      == Some([StreamMessage(|Log(streams, name)|, DictMap(payload))])
  {
    var name := StreamName(prefix, DictMap(payload)["chat_id"]);
    var after := Pushed(streams, prefix, true, payload);
    var n := |Log(streams, name)|;
    assert Log(after, name) == Log(streams, name) + [Flatten(payload)];
    assert Log(after, name)[n] == Flatten(payload);
    var reply := XRead(after, name, n, 1);
    assert reply == [(name, seq(1, k requires 0 <= k < 1 => Entry(n + k, Log(after, name)[n + k])))];
    assert seq(1, k requires 0 <= k < 1 => Entry(n + k, Log(after, name)[n + k])) == [Entry(n, Flatten(payload))];
    assert Entries(reply) == [Entry(n, Flatten(payload))] by {
      assert reply[1..] == [];
      assert [Entry(n, Flatten(payload))] + [] == [Entry(n, Flatten(payload))];
    }
    DecodeFlatten(payload);
    var msg := StreamMessage(n, DictMap(payload));
    assert [Entry(n, Flatten(payload))][1..] == [];
    assert DecodeEntries([Entry(n, Flatten(payload))]) == Some([msg] + []);
    assert [msg] + [] == [msg];
  }

  // ---------------------------------------------------------------------------
  // `RedisManager`

  /** The process-wide client cache. Clients are numbered in creation order. */
  class RedisManager {
    var client: Option<nat>
    var created: nat

    constructor()
      ensures client == None && created == 0
    {
      client := None;
      created := 0;
    }

    /** `get_client`: create a client only when none is cached, then ping it.
        `pingError` is the exception the ping raises, if any; it is logged and
        re-raised unchanged. The client is cached before the ping, so a failed
        ping raises but leaves the unpinged client in place for the next call. */
    method GetClient(pingError: Option<string>) returns (r: Result<nat, string>)
      modifies this
      ensures old(client).Some? ==> client == old(client) && created == old(created) && r == Success(old(client).value)
      ensures old(client).None? ==> created == old(created) + 1 && client == Some(old(created))
      ensures old(client).None? ==> r == if pingError.None? then Success(old(created)) else Failure(pingError.value)
    {
      if client.None? {
        client := Some(created);
        created := created + 1;
        if pingError.Some? {
          return Failure(pingError.value);
        }
      }
      return Success(client.value);
    }

    /** `close`: drop the cached client so the next call creates a new one. */
    method Close()
      modifies this
      ensures client == None && created == old(created)
    {
      client := None;
    }
  }

  // ---------------------------------------------------------------------------
  // `RedisCache.get`

  /** Why a `GET` call failed. redis-py raises its own ConnectionError and
      TimeoutError, which are not the builtin exceptions of the same names. */
  datatype GetFailure = BuiltinConnectionError | BuiltinTimeoutError | ClientConnectionError | ClientTimeoutError | OtherError

  /** What the `GET` call produced: a reply (None for a missing key) or an exception. */
  datatype GetReply = Reply(value: Option<string>) | Raised(failure: GetFailure)

  /** The reply of a healthy server for a key. */
  function GetFrom(kv: map<string, string>, key: string): GetReply
  {
    Reply(if key in kv then Some(kv[key]) else None)
  }

  /** `RedisCache.get`: a falsy value reads as None, the two builtin
      exceptions are swallowed as None, every other exception propagates. */
  function CacheGet(reply: GetReply): (r: Result<Option<string>, GetFailure>)
  {
    match reply
    case Reply(v) => Success(if v.Some? && v.value != "" then v else None)
    case Raised(f) =>
      if f == BuiltinConnectionError || f == BuiltinTimeoutError then Success(None) else Failure(f)
  }

  /** A value is returned exactly when a non-empty one is stored, and an
      exception escapes exactly when it is not one of the two caught builtins. */
  lemma CacheGetCases(reply: GetReply)
    ensures CacheGet(reply).Success? && CacheGet(reply).value.Some?
      <==> reply.Reply? && reply.value.Some? && reply.value.value != ""
    ensures CacheGet(reply).Success? && CacheGet(reply).value.Some? ==> CacheGet(reply).value == reply.value
    ensures CacheGet(reply).Failure? <==> reply.Raised? && reply.failure !in {BuiltinConnectionError, BuiltinTimeoutError}
  {
  }

  /** Against a healthy server, the cache reads back exactly the non-empty
      stored values. */
  lemma CacheGetFrom(kv: map<string, string>, key: string)
    ensures CacheGet(GetFrom(kv, key)) == Success(if key in kv && kv[key] != "" then Some(kv[key]) else None)
  {
  }
}
