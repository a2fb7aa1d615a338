/**
 Destination names: how the module builds `<prefix><seg><suffix>` (src/capture.rs, src/cluster.rs), how
 the client takes one apart, and which cluster hash tag Redis reads in it.
 */
module Names {
  import opened Text
  import opened Events

  /** A pinned tag: never empty and never holding a brace. */
  predicate ValidTag(tag: Option<string>) {
    tag.Some? ==> tag.value != "" && '{' !in tag.value && '}' !in tag.value
  }

  /** A sanitized event name, or one of the module's own `#` names. */
  predicate ValidSuffix(suffix: string) {
    (suffix != "" && suffix[0] == '#' && '{' !in suffix && '}' !in suffix)
    || forall i :: 0 <= i < |suffix| ==> IsNameChar(suffix[i])
  }

  /** `{tag}` in per-node cluster mode, nothing otherwise. */
  function Segment(tag: Option<string>): string {
    if tag.None? then "" else "{" + tag.value + "}"
  }

  function StreamName(prefix: string, tag: Option<string>, suffix: string): string {
    prefix + Segment(tag) + suffix
  }

  /** The index of the first `c`, or the length when there is none. */
  function Find(s: string, c: char): (i: nat)
    ensures i <= |s|
    ensures i < |s| ==> s[i] == c
    ensures forall j :: 0 <= j < i ==> s[j] != c
  {
    if s == [] || s[0] == c then 0 else 1 + Find(s[1..], c)
  }

  function StripPrefix(s: string, prefix: string): Option<string> {
    if StartsWith(s, prefix) then Some(s[|prefix|..]) else None
  }

  /** `event_name`: the suffix of a destination stream. */
  function EventName(prefix: string, stream: string): Option<string> {
    var rest := StripPrefix(stream, prefix);
    if rest.None? then None
    else if StartsWith(rest.value, "{") && Find(rest.value, '}') < |rest.value| then
      Some(rest.value[Find(rest.value, '}') + 1..])
    else rest
  }

  /** `stream_tag`: the tag a cluster stream is pinned under. */
  function StreamTag(prefix: string, stream: string): Option<string> {
    var rest := StripPrefix(stream, prefix);
    if rest.None? || !StartsWith(rest.value, "{") then None
    else
      var inner := rest.value[1..];
      if Find(inner, '}') == |inner| then None else Some(inner[..Find(inner, '}')])
  }

  /** A stretch without `c` only shifts the first `c`. */
  lemma {:induction false} FindSkip(a: string, s: string, c: char)
    requires c !in a
    ensures Find(a + s, c) == |a| + Find(s, c)
  {
    if a == [] {
      assert a + s == s;
    } else {
      assert (a + s)[1..] == a[1..] + s;
      FindSkip(a[1..], s, c);
    }
  }

  lemma FindAfter(a: string, c: char, b: string)
    requires c !in a
    ensures Find(a + [c] + b, c) == |a|
    ensures (a + [c] + b)[..|a|] == a && (a + [c] + b)[|a| + 1..] == b
  {
    assert a + [c] + b == a + ([c] + b);
    FindSkip(a, [c] + b, c);
  }

  lemma Strips(prefix: string, rest: string)
    ensures StripPrefix(prefix + rest, prefix) == Some(rest)
  {
    assert (prefix + rest)[..|prefix|] == prefix && (prefix + rest)[|prefix|..] == rest;
  }

  /** The tagged case of `NameRoundTrip`, after the prefix. */
  lemma TaggedRest(tag: string, suffix: string)
    requires '}' !in tag
    ensures var rest := "{" + tag + "}" + suffix;
            && StartsWith(rest, "{") && Find(rest, '}') == |tag| + 1 < |rest| && rest[|tag| + 2..] == suffix
            && Find(rest[1..], '}') == |tag| < |rest[1..]| && rest[1..][..|tag|] == tag
  {
    var rest := "{" + tag + "}" + suffix;
    assert rest[..1] == "{";
    assert rest[1..] == tag + ['}'] + suffix;
    FindAfter(tag, '}', suffix);
    assert rest == "{" + rest[1..];
    FindSkip("{", rest[1..], '}');
    assert rest[|tag| + 2..] == rest[1..][|tag| + 1..];
  }

  /** Parsing a built name gives back exactly the tag and the suffix it was built from. */
  lemma NameRoundTrip(prefix: string, tag: Option<string>, suffix: string)
    requires ValidTag(tag) && ValidSuffix(suffix)
    ensures EventName(prefix, StreamName(prefix, tag, suffix)) == Some(suffix)
    ensures StreamTag(prefix, StreamName(prefix, tag, suffix)) == tag
  {
    var rest := Segment(tag) + suffix;
    Regroup(prefix, Segment(tag), suffix);
    Strips(prefix, rest);
    if tag.Some? {
      TaggedRest(tag.value, suffix);
    } else {
      assert rest == suffix;
      assert suffix != "" ==> suffix[..1][0] == suffix[0];
    }
  }

  /** Other names: a stream outside the prefix is nobody's, and a segment that never closes is part of the name. */
  lemma OtherNames(prefix: string, stream: string)
    ensures !StartsWith(stream, prefix) ==> EventName(prefix, stream) == None && StreamTag(prefix, stream) == None
    ensures StartsWith(stream, prefix) && '}' !in stream[|prefix|..] ==>
              EventName(prefix, stream) == Some(stream[|prefix|..]) && StreamTag(prefix, stream) == None
  {
    if StartsWith(stream, prefix) && '}' !in stream[|prefix|..] {
      var rest := stream[|prefix|..];
      if rest != "" {
        assert '}' !in rest[1..];
      }
    }
  }

  /** Distinct (tag, suffix) pairs never share a stream. */
  lemma NamesDistinct(prefix: string, tag1: Option<string>, suffix1: string, tag2: Option<string>, suffix2: string)
    requires ValidTag(tag1) && ValidSuffix(suffix1) && ValidTag(tag2) && ValidSuffix(suffix2)
    ensures var same := StreamName(prefix, tag1, suffix1) == StreamName(prefix, tag2, suffix2);
            same <==> tag1 == tag2 && suffix1 == suffix2
  {
    NameRoundTrip(prefix, tag1, suffix1);
    NameRoundTrip(prefix, tag2, suffix2);
  }

  /** No event name, however hostile, reaches a key of the reserved `#` namespace, under any tag. */
  lemma EventsStayOutOfReserved(
    prefix: string, tag: Option<string>, event: string, tag': Option<string>, reserved: string)
    requires ValidTag(tag) && ValidTag(tag') && ValidSuffix(reserved) && StartsWith(reserved, "#")
    ensures StreamName(prefix, tag, Sanitize(event)) != StreamName(prefix, tag', reserved)
  {
    if Sanitize(event) != "" {
      assert IsNameChar(Sanitize(event)[0]);
    }
    assert reserved[0] == "#"[0];
    NamesDistinct(prefix, tag, Sanitize(event), tag', reserved);
  }

  // ---------------------------------------------------------------------------------------------
  // Redis Cluster hash tags
  // ---------------------------------------------------------------------------------------------

  /** The part of a key Redis hashes (Redis Cluster Specification, "Hash tags"). */
  function HashTag(key: string): string {
    var open := Find(key, '{');
    if open == |key| then key
    else
      var inner := key[open + 1..];
      var close := Find(inner, '}');
      if close == |inner| || close == 0 then key else inner[..close]
  }

  /** The probe key of `probe_tag_owned`. */
  function ProbeKey(tag: string): string {
    "{" + tag + "}#slotprobe"
  }

  /** The hash tag a prefix already carries by itself, if it closes one. */
  function PrefixTag(prefix: string): Option<string> {
    var open := Find(prefix, '{');
    if open == |prefix| then None
    else
      var inner := prefix[open + 1..];
      var close := Find(inner, '}');
      if close == |inner| || close == 0 then None else Some(inner[..close])
  }

  /** The hash tag of a key whose first opening brace follows `head`. */
  lemma TagAfter(head: string, inner: string)
    requires '{' !in head
    ensures HashTag(head + ['{'] + inner)
         == var close := Find(inner, '}');
            if close == |inner| || close == 0 then head + ['{'] + inner else inner[..close]
  {
    FindAfter(head, '{', inner);
    assert (head + ['{'] + inner)[|head| + 1..] == inner;
  }

  lemma ProbeSharesTag(tag: string)
    requires ValidTag(Some(tag))
    ensures HashTag(ProbeKey(tag)) == tag
  {
    assert ProbeKey(tag) == "" + ['{'] + (tag + ['}'] + "#slotprobe");
    TagAfter("", tag + ['}'] + "#slotprobe");
    FindAfter(tag, '}', "#slotprobe");
  }

  /** A prefix without a brace leaves the node's tag in charge of the slot. */
  lemma PlainPrefixTag(prefix: string, tag: string, suffix: string)
    requires ValidTag(Some(tag)) && '{' !in prefix
    ensures HashTag(StreamName(prefix, Some(tag), suffix)) == tag
  {
    assert StreamName(prefix, Some(tag), suffix) == prefix + ['{'] + (tag + ['}'] + suffix);
    TagAfter(prefix, tag + ['}'] + suffix);
    FindAfter(tag, '}', suffix);
  }

  lemma CutAt(prefix: string, open: nat, tail: string)
    requires open < |prefix| && prefix[open] == '{'
    ensures prefix + tail == prefix[..open] + ['{'] + (prefix[open + 1..] + tail)
  {
    assert prefix == prefix[..open] + ['{'] + prefix[open + 1..];
  }

  /** A prefix with an opening brace takes the slot over, whatever the node's tag is. */
  lemma BracedPrefixTag(prefix: string, tag: string, suffix: string)
    requires ValidTag(Some(tag)) && '{' in prefix
    ensures HashTag(StreamName(prefix, Some(tag), suffix)) == tag <==> PrefixTag(prefix) == Some(tag)
  {
    var open := Find(prefix, '{');
    var head, mine := prefix[..open], prefix[open + 1..];
    var tail := "{" + tag + "}" + suffix;
    CutAt(prefix, open, tail);
    Regroup(prefix, "{" + tag + "}", suffix);
    TagAfter(head, mine + tail);
    var close := Find(mine, '}');
    if close < |mine| {
      ClosedInPrefix(mine, tail);
    } else {
      ClosedByTag(mine, tag, suffix);
    }
  }

  lemma ClosedInPrefix(mine: string, tail: string)
    requires Find(mine, '}') < |mine|
    ensures Find(mine + tail, '}') == Find(mine, '}')
    ensures (mine + tail)[..Find(mine, '}')] == mine[..Find(mine, '}')]
  {
    var close := Find(mine, '}');
    assert mine + tail == mine[..close] + ['}'] + (mine[close + 1..] + tail);
    FindAfter(mine[..close], '}', mine[close + 1..] + tail);
  }

  lemma ClosedByTag(mine: string, tag: string, suffix: string)
    requires Find(mine, '}') == |mine| && '}' !in tag
    ensures Find(mine + ("{" + tag + "}" + suffix), '}') == |mine| + 1 + |tag|
  {
    TaggedRest(tag, suffix);
    FindSkip(mine, "{" + tag + "}" + suffix, '}');
  }

  /**
   All of a node's keys (data streams, registry, control stream) and its probe key hash alike exactly
   when the configured prefix carries no opening brace, or happens to carry the node's own tag.
   */
  lemma KeysShareTag(prefix: string, tag: string, suffix: string)
    requires ValidTag(Some(tag))
    ensures HashTag(StreamName(prefix, Some(tag), suffix)) == HashTag(ProbeKey(tag))
       <==> '{' !in prefix || PrefixTag(prefix) == Some(tag)
  {
    ProbeSharesTag(tag);
    if '{' in prefix { BracedPrefixTag(prefix, tag, suffix); } else { PlainPrefixTag(prefix, tag, suffix); }
  }

  /** `validate_prefix` accepts such a prefix: `a{b}` pins every key to tag `b`. */
  predicate ValidPrefix(prefix: string) {
    && prefix != "" && |prefix| <= 128
    && forall i :: 0 <= i < |prefix| ==>
         'A' <= prefix[i] <= 'Z' || 'a' <= prefix[i] <= 'z' || '0' <= prefix[i] <= '9'
         || prefix[i] == ':' || prefix[i] == '.' || prefix[i] == '_' || prefix[i] == '-'
         || prefix[i] == '{' || prefix[i] == '}'
  }

  lemma AcceptedPrefixMisplacesKeys()
    ensures ValidPrefix("a{b}")
    ensures HashTag(StreamName("a{b}", Some("es0"), "set")) != HashTag(ProbeKey("es0"))
  {
    var prefix := "a{b}";
    assert prefix[1..] == "{b}" && prefix[2..] == "b}";
    assert Find(prefix, '{') == 1;
    assert Find("b}", '}') == 1;
    assert "b}"[..1] == "b";
    assert PrefixTag(prefix) == Some("b");
    assert "b"[0] != "es0"[0];
    assert ValidTag(Some("es0"));
    assert prefix[1] == '{';
    KeysShareTag(prefix, "es0", "set");
  }
}
