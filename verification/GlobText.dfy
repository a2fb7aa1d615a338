/**
 What a pattern's text means (src/config.rs): one law per way of writing a token, on the bytes of the pattern, so that
 the meaning of a pattern can be read off its text from left to right.
 */
module GlobText {
  import opened Bytes
  import opened Glob

  /** The key is in the language of the pattern. */
  ghost predicate Describes(pat: seq<Byte>, key: seq<Byte>) {
    Language(Tokens(pat, 0), key)
  }

  // ---------------------------------------------------------------------------------------------
  // A token depends only on the text from its first byte on
  // ---------------------------------------------------------------------------------------------

  lemma ItemShifts(pre: seq<Byte>, pat: seq<Byte>, i: nat)
    requires i < |pat|
    ensures ReadItem(pre + pat, |pre| + i) == (ReadItem(pat, i).0, |pre| + ReadItem(pat, i).1)
  {
  }

  lemma {:induction false} ItemsShift(pre: seq<Byte>, pat: seq<Byte>, i: nat)
    requires i <= |pat|
    ensures ReadItems(pre + pat, |pre| + i) == ReadItems(pat, i)
    ensures AfterItems(pre + pat, |pre| + i) == |pre| + AfterItems(pat, i)
    decreases |pat| - i
  {
    if !ClassEndsAt(pat, i) {
      ItemShifts(pre, pat, i);
      ItemsShift(pre, pat, ReadItem(pat, i).1);
    }
  }

  lemma TokenShifts(pre: seq<Byte>, pat: seq<Byte>, i: nat)
    requires i < |pat|
    ensures ReadToken(pre + pat, |pre| + i) == ReadToken(pat, i)
    ensures AfterToken(pre + pat, |pre| + i) == |pre| + AfterToken(pat, i)
  {
    if pat[i] == OPEN {
      assert ItemsStart(pre + pat, |pre| + i) == |pre| + ItemsStart(pat, i);
      ItemsShift(pre, pat, ItemsStart(pat, i));
    }
  }

  lemma {:induction false} TokensShift(pre: seq<Byte>, pat: seq<Byte>, i: nat)
    requires i <= |pat|
    ensures Tokens(pre + pat, |pre| + i) == Tokens(pat, i)
    decreases |pat| - i
  {
    if i < |pat| {
      TokenShifts(pre, pat, i);
      TokensShift(pre, pat, AfterToken(pat, i));
    }
  }

  /** A text whose first token ends where `rest` begins. */
  lemma FirstToken(head: seq<Byte>, rest: seq<Byte>, key: seq<Byte>)
    requires head != [] && AfterToken(head + rest, 0) == |head|
    ensures var t := ReadToken(head + rest, 0);
            && (t.Star? ==>
                  (Describes(head + rest, key) <==> exists k :: 0 <= k <= |key| && Describes(rest, key[k..])))
            && (!t.Star? ==>
                  (Describes(head + rest, key) <==> key != [] && Accepts(t, key[0]) && Describes(rest, key[1..])))
  {
    var t, ts := ReadToken(head + rest, 0), Tokens(rest, 0);
    TokensShift(head, rest, 0);
    assert Tokens(head + rest, 0) == [t] + ts && ([t] + ts)[1..] == ts;
    LanguageIsDerives([t] + ts, key);
    forall k | 0 <= k <= |key|
      ensures Describes(rest, key[k..]) <==> Derives(ts, key[k..])
    {
      LanguageIsDerives(ts, key[k..]);
    }
  }

  // ---------------------------------------------------------------------------------------------
  // One law per way of writing a token
  // ---------------------------------------------------------------------------------------------

  lemma EmptyText(key: seq<Byte>)
    ensures Describes([], key) <==> key == []
  {
    LanguageIsDerives([], key);
  }

  lemma StarText(rest: seq<Byte>, key: seq<Byte>)
    ensures Describes([STAR] + rest, key) <==> exists k :: 0 <= k <= |key| && Describes(rest, key[k..])
  {
    FirstToken([STAR], rest, key);
  }

  lemma AnyText(rest: seq<Byte>, key: seq<Byte>)
    ensures Describes([QUESTION] + rest, key) <==> key != [] && Describes(rest, key[1..])
  {
    FirstToken([QUESTION], rest, key);
  }

  /** An escaped byte stands for itself, also when it would be special. */
  lemma EscapeText(x: Byte, rest: seq<Byte>, key: seq<Byte>)
    ensures Describes([BACKSLASH, x] + rest, key) <==> key != [] && key[0] == x && Describes(rest, key[1..])
  {
    FirstToken([BACKSLASH, x], rest, key);
  }

  /** So does a byte that is not special, and a backslash with nothing after it. */
  lemma PlainText(x: Byte, rest: seq<Byte>, key: seq<Byte>)
    requires x != STAR && x != QUESTION && x != OPEN && (x == BACKSLASH ==> rest == [])
    ensures Describes([x] + rest, key) <==> key != [] && key[0] == x && Describes(rest, key[1..])
  {
    FirstToken([x], rest, key);
  }

  /** How a member of a class is written: a byte as it is, a byte behind a backslash, or two ends around a dash. */
  datatype Written = Bare(b: Byte) | Escaped(b: Byte) | Span(a: Byte, z: Byte)

  predicate Writable(w: Written) {
    match w
    case Bare(b) => b != CLOSE && b != BACKSLASH && b != DASH
    case Escaped(_) => true
    case Span(a, _) => a != CLOSE && a != BACKSLASH && a != DASH
  }

  function Text(w: Written): (s: seq<Byte>)
    ensures s != []
  {
    match w
    case Bare(b) => [b]
    case Escaped(b) => [BACKSLASH, b]
    case Span(a, z) => [a, DASH, z]
  }

  function Texts(ws: seq<Written>): seq<Byte> {
    if ws == [] then [] else Text(ws[0]) + Texts(ws[1..])
  }

  /** The bytes a written member stands for. */
  predicate Stands(w: Written, c: Byte) {
    match w
    case Bare(b) => c == b
    case Escaped(b) => c == b
    case Span(a, z) => if a <= z then a <= c <= z else z <= c <= a
  }

  predicate SomeStands(ws: seq<Written>, c: Byte) {
    exists i :: 0 <= i < |ws| && Stands(ws[i], c)
  }

  function ItemFor(w: Written): Item {
    match w
    case Bare(b) => One(b)
    case Escaped(b) => One(b)
    case Span(a, z) => Range(a, z)
  }

  function ItemsFor(ws: seq<Written>): (items: seq<Item>)
    ensures |items| == |ws| && forall i :: 0 <= i < |ws| ==> items[i] == ItemFor(ws[i])
  {
    seq(|ws|, i requires 0 <= i < |ws| => ItemFor(ws[i]))
  }

  /** What follows a member never starts with a dash, so a bare byte is not taken for the end of a range. */
  lemma NoDashNext(ws: seq<Written>, tail: seq<Byte>)
    requires (forall w :: w in ws ==> Writable(w)) && (tail != [] ==> tail[0] == CLOSE)
    ensures var text := Texts(ws) + tail; text != [] ==> text[0] != DASH
  {
    if ws != [] {
      assert Writable(ws[0]);
      assert (Texts(ws) + tail)[0] == Text(ws[0])[0];
    }
  }

  lemma FirstItem(w: Written, next: seq<Byte>)
    requires Writable(w) && (next != [] ==> next[0] != DASH)
    ensures var text := Text(w) + next;
            !ClassEndsAt(text, 0) && ReadItem(text, 0) == (ItemFor(w), |Text(w)|)
  {
  }

  /** Reading the members of a class gives them back. */
  lemma {:induction false} ReadsBack(ws: seq<Written>, tail: seq<Byte>)
    requires (forall w :: w in ws ==> Writable(w)) && (tail != [] ==> tail[0] == CLOSE)
    ensures var text := Texts(ws) + tail;
            && ReadItems(text, 0) == ItemsFor(ws)
            && AfterItems(text, 0) == |Texts(ws)| + if tail == [] then 0 else 1
  {
    if ws == [] {
      assert Texts(ws) + tail == tail;
    } else {
      var head, next := Text(ws[0]), Texts(ws[1..]) + tail;
      assert Writable(ws[0]);
      assert Texts(ws) + tail == head + next;
      NoDashNext(ws[1..], tail);
      FirstItem(ws[0], next);
      ReadsBack(ws[1..], tail);
      ItemsShift(head, next, 0);
      assert ItemsFor(ws) == [ItemFor(ws[0])] + ItemsFor(ws[1..]);
    }
  }

  /** The text of a class: its opening, its members, and its closing bracket unless the pattern ends there. */
  function ClassText(negated: bool, ws: seq<Written>, closed: bool): seq<Byte> {
    (if negated then [OPEN, CARET] else [OPEN]) + Texts(ws) + (if closed then [CLOSE] else [])
  }

  lemma ClassToken(negated: bool, ws: seq<Written>, closed: bool, rest: seq<Byte>)
    requires forall w :: w in ws ==> Writable(w)
    requires !negated && ws != [] ==> Text(ws[0])[0] != CARET
    requires !closed ==> rest == []
    ensures var text := ClassText(negated, ws, closed);
            && AfterToken(text + rest, 0) == |text|
            && ReadToken(text + rest, 0) == Class(negated, ItemsFor(ws))
  {
    var start: seq<Byte> := if negated then [OPEN, CARET] else [OPEN];
    var tail: seq<Byte> := (if closed then [CLOSE] else []) + rest;
    var text, members := ClassText(negated, ws, closed), Texts(ws) + tail;
    assert text + rest == start + members;
    ReadsBack(ws, tail);
    ItemsShift(start, members, 0);
    assert ItemsStart(text + rest, 0) == |start|;
  }

  /**
   A class, closed or running to the end of the pattern, takes one byte: one that some member stands for, or with a
   caret one that no member does.
   */
  lemma ClassSelects(negated: bool, ws: seq<Written>, closed: bool, rest: seq<Byte>, key: seq<Byte>)
    requires forall w :: w in ws ==> Writable(w)
    requires !negated && ws != [] ==> Text(ws[0])[0] != CARET
    requires !closed ==> rest == []
    ensures Describes(ClassText(negated, ws, closed) + rest, key) <==>
            key != [] && (negated <==> !SomeStands(ws, key[0])) && Describes(rest, key[1..])
  {
    ClassToken(negated, ws, closed, rest);
    FirstToken(ClassText(negated, ws, closed), rest, key);
    if key != [] {
      SameMembers(ws, key[0]);
    }
  }

  lemma SameMembers(ws: seq<Written>, c: Byte)
    ensures SomeStands(ws, c) <==> exists i :: 0 <= i < |ItemsFor(ws)| && ItemHas(ItemsFor(ws)[i], c)
  {
    if i :| 0 <= i < |ws| && Stands(ws[i], c) {
      assert ItemHas(ItemsFor(ws)[i], c);
    }
    if i :| 0 <= i < |ItemsFor(ws)| && ItemHas(ItemsFor(ws)[i], c) {
      assert Stands(ws[i], c);
    }
  }

  // ---------------------------------------------------------------------------------------------
  // The matcher on one-byte keys
  // ---------------------------------------------------------------------------------------------

  /** A pattern of one token other than a star is matched against one byte as it reads. */
  lemma OneByte(pat: seq<Byte>, c: Byte)
    requires pat != [] && pat[0] != STAR && AfterToken(pat, 0) == |pat|
    ensures Meaning(pat, [c]) <==> Describes(pat, [c])
  {
    assert Runs(pat, |pat|) == 0;
  }

  function Bares(body: seq<Byte>): (ws: seq<Written>)
    ensures |ws| == |body| && forall i :: 0 <= i < |body| ==> ws[i] == Bare(body[i])
  {
    seq(|body|, i requires 0 <= i < |body| => Bare(body[i]))
  }

  lemma {:induction false} BaresText(body: seq<Byte>)
    ensures Texts(Bares(body)) == body
  {
    if body != [] {
      assert Bares(body)[1..] == Bares(body[1..]);
      BaresText(body[1..]);
    }
  }

  lemma ClassOnByte(negated: bool, ws: seq<Written>, c: Byte)
    requires forall w :: w in ws ==> Writable(w)
    requires !negated && ws != [] ==> Text(ws[0])[0] != CARET
    ensures Meaning(ClassText(negated, ws, true), [c]) <==> (negated <==> !SomeStands(ws, c))
  {
    var text := ClassText(negated, ws, true);
    assert text + [] == text && text[0] == OPEN;
    ClassToken(negated, ws, true, []);
    ClassSelects(negated, ws, true, [], [c]);
    OneByte(text, c);
    EmptyText([c][1..]);
  }

  predicate PlainBody(body: seq<Byte>) {
    body != [] && CLOSE !in body && BACKSLASH !in body && DASH !in body
  }

  /** `[` body `]` takes exactly the bytes of its body. */
  lemma BodySelects(body: seq<Byte>, c: Byte)
    requires PlainBody(body) && body[0] != CARET
    ensures Meaning([OPEN] + body + [CLOSE], [c]) <==> c in body
  {
    BaresText(body);
    ClassOnByte(false, Bares(body), c);
    BaresStand(body, c);
  }

  /** `[^` body `]` takes exactly the other bytes. */
  lemma NegatedBodySelects(body: seq<Byte>, c: Byte)
    requires PlainBody(body)
    ensures Meaning([OPEN, CARET] + body + [CLOSE], [c]) <==> c !in body
  {
    BaresText(body);
    ClassOnByte(true, Bares(body), c);
    BaresStand(body, c);
  }

  lemma BaresStand(body: seq<Byte>, c: Byte)
    ensures SomeStands(Bares(body), c) <==> c in body
  {
    if c in body {
      var i :| 0 <= i < |body| && body[i] == c;
      assert Stands(Bares(body)[i], c);
    }
  }

  /** `[a-z]` takes exactly the bytes between its ends, in whichever order they are written. */
  lemma RangeSelects(a: Byte, z: Byte, c: Byte)
    requires a != CLOSE && a != BACKSLASH && a != DASH && a != CARET
    ensures Meaning([OPEN, a, DASH, z, CLOSE], [c]) <==> a <= c <= z || z <= c <= a
  {
    var ws := [Span(a, z)];
    assert Texts(ws) == [a, DASH, z];
    assert ClassText(false, ws, true) == [OPEN, a, DASH, z, CLOSE];
    ClassOnByte(false, ws, c);
    assert SomeStands(ws, c) <==> Stands(ws[0], c);
  }

  /** `\x` takes exactly `x`. */
  lemma EscapeSelects(x: Byte, c: Byte)
    ensures Meaning([BACKSLASH, x], [c]) <==> c == x
  {
    assert [BACKSLASH, x] + [] == [BACKSLASH, x];
    EscapeText(x, [], [c]);
    OneByte([BACKSLASH, x], c);
    EmptyText([c][1..]);
  }
}
