/** The deterministic parts of `chatbot/intent_classifier.py`: the intent
    domain of `ToolResponse`, the few-shot example string built from the
    search matches, and `_clean_product_names`, which deletes every character
    of the predicted product name outside `[\w\s.\d]`. */
module IntentClassifier {

  import opened Wrappers
  import opened Text

  // ---------------------------------------------------------------------------
  // The intent domain

  /** `Literal["ProductInfo", "AnnuitiesFAQ"]` */
  datatype Intent = ProductInfo | AnnuitiesFAQ

  function IntentName(i: Intent): string
  {
    match i
    case ProductInfo => "ProductInfo"
    case AnnuitiesFAQ => "AnnuitiesFAQ"
  }

  /** Validation of the literal: exactly one of the two names, nothing else. */
  function ParseIntent(s: string): Option<Intent>
  {
    if s == "ProductInfo" then Some(ProductInfo)
    else if s == "AnnuitiesFAQ" then Some(AnnuitiesFAQ)
    else None
  }

  /** Parsing inverts naming, and accepts exactly the two names. */
  lemma ParseIntentName(i: Intent, s: string)
    ensures ParseIntent(IntentName(i)) == Some(i)
    ensures ParseIntent(s).Some? <==> s == IntentName(ProductInfo) || s == IntentName(AnnuitiesFAQ)
    ensures ParseIntent(s).Some? ==> IntentName(ParseIntent(s).value) == s
  {
    assert "ProductInfo" != "AnnuitiesFAQ" by {
      assert |"ProductInfo"| != |"AnnuitiesFAQ"|;
    }
  }

  // ---------------------------------------------------------------------------
  // The few-shot example string

  /** A search match of the intent index; its "metadata" key may be absent. */
  datatype IntentMatch = IntentMatch(metadata: Option<map<string, string>>)

  /** `item.get("metadata", {}).get("payload", "")` */
  function Payload(m: IntentMatch): string
  {
    var meta := m.metadata.GetOr(map[]);
    if "payload" in meta then meta["payload"] else ""
  }

  function Payloads(ms: seq<IntentMatch>): (ps: seq<string>)
    ensures |ps| == |ms| && forall i | 0 <= i < |ms| :: ps[i] == Payload(ms[i])
  {
    seq(|ms|, i requires 0 <= i < |ms| => Payload(ms[i]))
  }

  /** `"\n".join(examples)` */
  function ExampleString(ms: seq<IntentMatch>): string
  {
    Join("\n", Payloads(ms))
  }

  /** The position of the first `c` in `s`, or `|s|`. */
  function IndexOf(s: string, c: char): (i: nat)
    ensures i <= |s| && (i < |s| ==> s[i] == c) && forall j | 0 <= j < i :: s[j] != c
  {
    if s == [] || s[0] == c then 0 else 1 + IndexOf(s[1..], c)
  }

  /** `s.split(c)` for a one-character separator. */
  function SplitOn(s: string, c: char): seq<string>
    decreases |s|
  {
    var i := IndexOf(s, c);
    if i == |s| then [s] else [s[..i]] + SplitOn(s[i + 1..], c)
  }

  /** Splitting the example string at line breaks gives back each match's
      payload in order ("" for a match without metadata or payload),
      provided there is at least one match and no payload spans lines. */
  lemma ExampleStringLines(ms: seq<IntentMatch>)
    requires ms != [] && forall i | 0 <= i < |ms| :: '\n' !in Payload(ms[i])
    ensures var lines := SplitOn(ExampleString(ms), '\n');
      && |lines| == |ms|
      && forall i | 0 <= i < |ms| :: lines[i] == if ms[i].metadata.Some? && "payload" in ms[i].metadata.value then ms[i].metadata.value["payload"] else ""
  {
    var ps := Payloads(ms);
    forall p | p in ps ensures '\n' !in p {
      var i :| 0 <= i < |ps| && ps[i] == p;
    }
    SplitJoinLines(ps);
  }

  /** Splitting a line-free join at line breaks gives back its parts. */
  lemma {:induction false} SplitJoinLines(ps: seq<string>)
    requires ps != [] && forall p | p in ps :: '\n' !in p
    ensures SplitOn(Join("\n", ps), '\n') == ps
  {
    assert ps[0] in ps;
    var p := ps[0];
    if |ps| == 1 {
      assert IndexOf(p, '\n') == |p|;
    } else {
      var rest := Join("\n", ps[1..]);
      var s := p + "\n" + rest;
      assert Join("\n", ps) == s;
      assert forall j | 0 <= j < |p| :: s[j] == p[j];
      assert s[|p|] == '\n';
      assert IndexOf(s, '\n') == |p| by {
        IndexOfPrefix(s, p, '\n');
      }
      assert s[..|p|] == p;
      assert s[|p| + 1..] == rest;
      SplitJoinLines(ps[1..]);
    }
  }

  lemma {:induction false} IndexOfPrefix(s: string, p: string, c: char)
    requires |p| < |s| && s[..|p|] == p && c !in p && s[|p|] == c
    ensures IndexOf(s, c) == |p|
  {
    if p != [] {
      assert s[0] == p[0];
      assert s[1..][..|p| - 1] == p[1..];
      assert p[1..] <= p[1..];
      assert forall x | x in p[1..] :: x in p;
      IndexOfPrefix(s[1..], p[1..], c);
    }
  }

  /** The example string has one line per match: the payloads' lengths plus
      one separator between each two. */
  lemma {:induction false} ExampleStringLength(ps: seq<string>)
    requires ps != []
    ensures |Join("\n", ps)| == TotalLength(ps) + |ps| - 1
  {
    if |ps| > 1 {
      ExampleStringLength(ps[1..]);
    }
  }

  function TotalLength(ps: seq<string>): nat
  {
    if ps == [] then 0 else |ps[0]| + TotalLength(ps[1..])
  }

  // ---------------------------------------------------------------------------
  // `_clean_product_names`

  predicate IsAsciiLetter(c: char)
  {
    'a' <= c <= 'z' || 'A' <= c <= 'Z'
  }

  /** `\w` (letters, digits and the underscore, ASCII only in this model). */
  predicate IsWordChar(c: char)
  {
    IsAsciiLetter(c) || IsDigit(c) || c == '_'
  }

  /** The characters `[\w\s.\d]` matches; every other one is deleted. */
  predicate IsKept(c: char)
  {
    IsWordChar(c) || IsSpace(c) || c == '.'
  }

  /** `re.sub(r"[^\w\s.\d]", "", s)` */
  function StripSpecial(s: string): (r: string)
    ensures |r| <= |s|
  {
    if s == [] then []
    else if IsKept(s[0]) then [s[0]] + StripSpecial(s[1..])
    else StripSpecial(s[1..])
  }

  /** The cleaned name holds only word characters, whitespace and '.'. */
  lemma {:induction false} StripSpecialKeepsOnlyAllowed(s: string)
    ensures forall i | 0 <= i < |StripSpecial(s)| :: IsKept(StripSpecial(s)[i])
  {
    if s != [] {
      StripSpecialKeepsOnlyAllowed(s[1..]);
    }
  }

  /** `a` is `b` with some characters deleted, the rest in order. */
  ghost predicate IsSubsequence(a: string, b: string)
    decreases |b|
  {
    if a == [] then true
    else if b == [] then false
    else (a[0] == b[0] && IsSubsequence(a[1..], b[1..])) || IsSubsequence(a, b[1..])
  }

  /** Cleaning only deletes characters. */
  lemma {:induction false} StripSpecialIsSubsequence(s: string)
    ensures IsSubsequence(StripSpecial(s), s)
  {
    if s != [] {
      StripSpecialIsSubsequence(s[1..]);
      var r := StripSpecial(s);
      if IsKept(s[0]) {
        assert r[0] == s[0] && r[1..] == StripSpecial(s[1..]);
      } else if r != [] {
        assert IsSubsequence(r, s[1..]);
      }
    }
  }

  /** A string of allowed characters is left as it is. */
  lemma {:induction false} StripSpecialOfAllowed(s: string)
    requires forall i | 0 <= i < |s| :: IsKept(s[i])
    ensures StripSpecial(s) == s
  {
    if s != [] {
      StripSpecialOfAllowed(s[1..]);
    }
  }

  /** One character is kept exactly when `[\w\s.\d]` matches it. */
  lemma StripSpecialOne(c: char)
    ensures StripSpecial([c]) == if IsKept(c) then [c] else []
  {
    assert [c][1..] == [];
  }

  /** Cleaning works character by character: it distributes over concatenation. */
  lemma {:induction false} StripSpecialAppend(a: string, b: string)
    ensures StripSpecial(a + b) == StripSpecial(a) + StripSpecial(b)
  {
    if a == [] {
      assert a + b == b;
    } else {
      assert (a + b)[1..] == a[1..] + b;
      StripSpecialAppend(a[1..], b);
    }
  }

  /** Cleaning deletes exactly the disallowed characters: an allowed
      character occurs in the result as often as in the input, a disallowed
      one not at all. */
  lemma {:induction false} StripSpecialCounts(s: string, c: char)
    ensures multiset(StripSpecial(s))[c] == if IsKept(c) then multiset(s)[c] else 0
  {
    if s != [] {
      StripSpecialCounts(s[1..], c);
      assert s == [s[0]] + s[1..];
      assert multiset(s) == multiset([s[0]]) + multiset(s[1..]);
    }
  }

  /** Cleaning twice cleans nothing more. */
  lemma StripSpecialIdempotent(s: string)
    ensures StripSpecial(StripSpecial(s)) == StripSpecial(s)
  {
    StripSpecialKeepsOnlyAllowed(s);
    StripSpecialOfAllowed(StripSpecial(s));
  }

  /** The predicted tool spec, a dict edited in place. */
  class ToolSpec {
    var entries: map<string, string>

    constructor(entries: map<string, string>)
      ensures this.entries == entries
    {
      this.entries := entries;
    }

    /** `_clean_product_names`: rewrites "product_name" when the key is present
        and touches nothing else. */
    method CleanProductNames()
      modifies this
      ensures entries.Keys == old(entries).Keys
      ensures forall k | k in entries && k != "product_name" :: entries[k] == old(entries)[k]
      ensures "product_name" in entries ==> entries["product_name"] == StripSpecial(old(entries)["product_name"])
    {
      if "product_name" in entries {
        entries := entries["product_name" := StripSpecial(entries["product_name"])];
      }
    }
  }
}
