/**
 The byte-glob matcher behind `eventstream.key-filter` (src/config.rs).

 Three layers:
   - `Language` is the declarative meaning of a pattern: a way to cut the key into one piece per token;
   - `Plain` is the backtracking matcher without the shared `skip_longer` flag;
   - `GlobMatch`/`GlobMatchImpl` are the source's loops, with the flag and a count of calls.
 The method layer is proved to give `Plain`'s answer within a call budget, and `Plain` to give
 `Language`'s answer exactly when the key is non-empty and the nesting guard is not reached.
 */
module Glob {
  import opened Bytes

  const STAR: Byte := 42      // '*'
  const QUESTION: Byte := 63  // '?'
  const OPEN: Byte := 91      // '['
  const BACKSLASH: Byte := 92 // '\\'
  const CLOSE: Byte := 93     // ']'
  const CARET: Byte := 94     // '^'
  const DASH: Byte := 45      // '-'

  const MAX_NESTING: nat := 1000

  // ---------------------------------------------------------------------------------------------
  // Tokens and their meaning
  // ---------------------------------------------------------------------------------------------

  datatype Item = One(b: Byte) | Range(a: Byte, z: Byte)

  datatype Token =
    | Star
    | AnyByte
    | Class(negated: bool, items: seq<Item>)
    | Literal(b: Byte)

  /** A range may be written in either direction. */
  predicate ItemHas(item: Item, c: Byte) {
    match item
    case One(b) => b == c
    case Range(a, z) => a <= c <= z || z <= c <= a
  }

  /** The byte a non-star token accepts. */
  predicate Accepts(t: Token, c: Byte) {
    match t
    case Star => true
    case AnyByte => true
    case Class(negated, items) => negated != exists i :: 0 <= i < |items| && ItemHas(items[i], c)
    case Literal(b) => b == c
  }

  /** The piece of the key a token may stand for: any piece for a star, one accepted byte otherwise. */
  predicate Covers(t: Token, piece: seq<Byte>) {
    t.Star? || (|piece| == 1 && Accepts(t, piece[0]))
  }

  function Join(pieces: seq<seq<Byte>>): seq<Byte> {
    if pieces == [] then [] else pieces[0] + Join(pieces[1..])
  }

  ghost predicate Cuts(ts: seq<Token>, key: seq<Byte>, pieces: seq<seq<Byte>>) {
    && |pieces| == |ts|
    && Join(pieces) == key
    && forall i :: 0 <= i < |ts| ==> Covers(ts[i], pieces[i])
  }

  /** The declarative meaning of a token list. */
  ghost predicate Language(ts: seq<Token>, key: seq<Byte>) {
    exists pieces :: Cuts(ts, key, pieces)
  }

  /** `Language`, one token at a time. */
  ghost predicate Derives(ts: seq<Token>, key: seq<Byte>) {
    if ts == [] then key == []
    else if ts[0].Star? then exists k :: 0 <= k <= |key| && Derives(ts[1..], key[k..])
    else key != [] && Accepts(ts[0], key[0]) && Derives(ts[1..], key[1..])
  }

  lemma {:induction false} LanguageIsDerives(ts: seq<Token>, key: seq<Byte>)
    ensures Language(ts, key) <==> Derives(ts, key)
    decreases |ts|
  {
    if Language(ts, key) {
      var pieces :| Cuts(ts, key, pieces);
      CutsDerive(ts, key, pieces);
    }
    if Derives(ts, key) {
      var pieces := DeriveCuts(ts, key);
    }
  }

  lemma {:induction false} CutsDerive(ts: seq<Token>, key: seq<Byte>, pieces: seq<seq<Byte>>)
    requires Cuts(ts, key, pieces)
    ensures Derives(ts, key)
    decreases |ts|
  {
    if ts != [] {
      var k := |pieces[0]|;
      assert key[k..] == Join(pieces[1..]);
      CutsDerive(ts[1..], key[k..], pieces[1..]);
    }
  }

  lemma {:induction false} DeriveCuts(ts: seq<Token>, key: seq<Byte>) returns (pieces: seq<seq<Byte>>)
    requires Derives(ts, key)
    ensures Cuts(ts, key, pieces)
    decreases |ts|
  {
    if ts == [] {
      pieces := [];
    } else {
      var k := 1;
      if ts[0].Star? {
        k :| 0 <= k <= |key| && Derives(ts[1..], key[k..]);
      }
      var rest := DeriveCuts(ts[1..], key[k..]);
      pieces := [key[..k]] + rest;
      assert pieces[1..] == rest;
      assert key == key[..k] + key[k..];
    }
  }

  // ---------------------------------------------------------------------------------------------
  // Reading a pattern
  // ---------------------------------------------------------------------------------------------

  /** One step inside a character class that has not ended: the item read and the next index. */
  function ReadItem(pat: seq<Byte>, i: nat): (r: (Item, nat))
    requires i < |pat|
    ensures i < r.1 <= |pat|
  {
    if pat[i] == BACKSLASH && |pat| - i >= 2 then (One(pat[i + 1]), i + 2)
    else if |pat| - i >= 3 && pat[i + 1] == DASH then (Range(pat[i], pat[i + 2]), i + 3)
    else (One(pat[i]), i + 1)
  }

  predicate ClassEndsAt(pat: seq<Byte>, i: nat)
    requires i <= |pat|
  {
    i == |pat| || pat[i] == CLOSE
  }

  /** The items from `i` to the closing bracket, or to the end of an unterminated class. */
  function ReadItems(pat: seq<Byte>, i: nat): seq<Item>
    requires i <= |pat|
    decreases |pat| - i
  {
    if ClassEndsAt(pat, i) then []
    else [ReadItem(pat, i).0] + ReadItems(pat, ReadItem(pat, i).1)
  }

  /** The index just after the class; an unterminated class runs to the end of the pattern. */
  function AfterItems(pat: seq<Byte>, i: nat): (r: nat)
    requires i <= |pat|
    ensures i <= r <= |pat|
    decreases |pat| - i
  {
    if i == |pat| then i
    else if ClassEndsAt(pat, i) then i + 1
    else AfterItems(pat, ReadItem(pat, i).1)
  }

  /** Where the items of a class opened at `i` begin. */
  function ItemsStart(pat: seq<Byte>, i: nat): (r: nat)
    requires i < |pat|
    ensures i < r <= |pat|
  {
    if i + 1 < |pat| && pat[i + 1] == CARET then i + 2 else i + 1
  }

  function ReadToken(pat: seq<Byte>, i: nat): Token
    requires i < |pat|
  {
    if pat[i] == STAR then Star
    else if pat[i] == QUESTION then AnyByte
    else if pat[i] == OPEN then Class(ItemsStart(pat, i) == i + 2, ReadItems(pat, ItemsStart(pat, i)))
    else if pat[i] == BACKSLASH && |pat| - i >= 2 then Literal(pat[i + 1])
    else Literal(pat[i])
  }

  function AfterToken(pat: seq<Byte>, i: nat): (r: nat)
    requires i < |pat|
    ensures i < r <= |pat|
  {
    if pat[i] == OPEN then AfterItems(pat, ItemsStart(pat, i))
    else if pat[i] == BACKSLASH && |pat| - i >= 2 then i + 2
    else i + 1
  }

  function Tokens(pat: seq<Byte>, i: nat): seq<Token>
    requires i <= |pat|
    decreases |pat| - i
  {
    if i == |pat| then [] else [ReadToken(pat, i)] + Tokens(pat, AfterToken(pat, i))
  }

  /** The first index at or after `i` that is not a star. */
  function SkipStars(pat: seq<Byte>, i: nat): (r: nat)
    requires i <= |pat|
    ensures i <= r <= |pat|
    ensures r < |pat| ==> pat[r] != STAR
    ensures forall j :: i <= j < r ==> pat[j] == STAR
    decreases |pat| - i
  {
    if i < |pat| && pat[i] == STAR then SkipStars(pat, i + 1) else i
  }

  /** Star runs that are followed by another token: each one costs a level of recursion. */
  function Runs(pat: seq<Byte>, i: nat): nat
    requires i <= |pat|
    decreases |pat| - i
  {
    if i == |pat| then 0
    else if pat[i] == STAR then
      (if SkipStars(pat, i) == |pat| then 0 else 1 + Runs(pat, SkipStars(pat, i)))
    else Runs(pat, AfterToken(pat, i))
  }

  // ---------------------------------------------------------------------------------------------
  // The matcher without the flag
  // ---------------------------------------------------------------------------------------------

  /** Backtracking search from pattern index `pi` and key index `si`, every start tried. */
  predicate Plain(pat: seq<Byte>, pi: nat, key: seq<Byte>, si: nat, nesting: nat)
    requires pi <= |pat| && si <= |key|
    decreases |pat| - pi
  {
    if nesting > MAX_NESTING then false
    else if pi == |pat| || si == |key| then pi == |pat| && si == |key|
    else if pat[pi] == STAR then
      var q, deeper := SkipStars(pat, pi), nesting + 1;
      q == |pat| || exists j :: si <= j < |key| && Plain(pat, q, key, j, deeper)
    else
      && Accepts(ReadToken(pat, pi), key[si])
      && if si + 1 == |key| then SkipStars(pat, AfterToken(pat, pi)) == |pat|
         else Plain(pat, AfterToken(pat, pi), key, si + 1, nesting)
  }

  /** No start at or after `si` matches: what the raised flag tells the enclosing star loops. */
  ghost predicate Hopeless(pat: seq<Byte>, pi: nat, key: seq<Byte>, si: nat, nesting: nat)
    requires pi <= |pat| && si <= |key|
  {
    && SkipStars(pat, pi) != |pat|
    && forall j :: si <= j < |key| ==> !Plain(pat, pi, key, j, nesting)
  }

  /** Hopeless one byte later is hopeless now: a later start only reaches later starts. */
  lemma StepBack(pat: seq<Byte>, pi: nat, key: seq<Byte>, si: nat, nesting: nat)
    requires pi < |pat| && si + 1 < |key| && pat[pi] != STAR && nesting <= MAX_NESTING
    requires Hopeless(pat, AfterToken(pat, pi), key, si + 1, nesting)
    ensures Hopeless(pat, pi, key, si, nesting)
  {
    forall j | si <= j < |key|
      ensures !Plain(pat, pi, key, j, nesting)
    {
      if j + 1 < |key| {
        assert !Plain(pat, AfterToken(pat, pi), key, j + 1, nesting);
      }
    }
  }

  /** A star run whose remainder fails at every later start is itself hopeless. */
  lemma StarExhausted(pat: seq<Byte>, pi: nat, q: nat, key: seq<Byte>, si: nat, nesting: nat, deeper: nat)
    requires pi < |pat| && si < |key| && pat[pi] == STAR && nesting <= MAX_NESTING
    requires q == SkipStars(pat, pi) < |pat| && deeper == nesting + 1
    requires forall j :: si <= j < |key| ==> !Plain(pat, q, key, j, deeper)
    ensures Hopeless(pat, pi, key, si, nesting)
  {
  }

  // ---------------------------------------------------------------------------------------------
  // The source's matcher: nested loops, a shared flag, a nesting guard
  // ---------------------------------------------------------------------------------------------

  /** Some item accepts the byte, one item at a time. */
  predicate AnyHas(items: seq<Item>, c: Byte) {
    items != [] && (ItemHas(items[0], c) || AnyHas(items[1..], c))
  }

  lemma {:induction false} SomeHas(items: seq<Item>, c: Byte)
    ensures AnyHas(items, c) <==> exists i :: 0 <= i < |items| && ItemHas(items[i], c)
  {
    if items != [] {
      var rest := items[1..];
      SomeHas(rest, c);
      if AnyHas(rest, c) {
        var i :| 0 <= i < |rest| && ItemHas(rest[i], c);
        assert items[i + 1] == rest[i];
      }
      if i :| 0 < i < |items| && ItemHas(items[i], c) {
        assert rest[i - 1] == items[i];
      }
    }
  }

  lemma HasNext(item: Item, rest: seq<Item>, c: Byte)
    ensures AnyHas([item] + rest, c) <==> ItemHas(item, c) || AnyHas(rest, c)
  {
    assert ([item] + rest)[1..] == rest;
  }

  /** The class loop: whether `c` is in the class whose items start at `start`, and where it ends. */
  method MatchClass(pat: seq<Byte>, start: nat, c: Byte) returns (found: bool, pi: nat)
    requires 1 <= start <= |pat|
    ensures found <==> exists i :: 0 <= i < |ReadItems(pat, start)| && ItemHas(ReadItems(pat, start)[i], c)
    ensures pi + 1 == AfterItems(pat, start)
  {
    found, pi := false, start;
    SomeHas(ReadItems(pat, start), c);
    while true
      invariant start <= pi <= |pat|
      invariant AnyHas(ReadItems(pat, start), c) == (found || AnyHas(ReadItems(pat, pi), c))
      invariant AfterItems(pat, start) == AfterItems(pat, pi)
      decreases |pat| - pi
    {
      ghost var from := pi;
      if pi >= |pat| {
        pi := pi - 1;
        break;
      } else if pat[pi] == BACKSLASH && |pat| - pi >= 2 {
        pi := pi + 1;
        if pat[pi] == c { found := true; }
      } else if pat[pi] == CLOSE {
        break;
      } else if |pat| - pi >= 3 && pat[pi + 1] == DASH {
        var lo, hi := pat[pi], pat[pi + 2];
        if lo > hi { lo, hi := hi, lo; }
        pi := pi + 2;
        if lo <= c <= hi { found := true; }
      } else if pat[pi] == c {
        found := true;
      }
      pi := pi + 1;
      assert pi == ReadItem(pat, from).1;
      HasNext(ReadItem(pat, from).0, ReadItems(pat, pi), c);
    }
  }

  /** The arms of the source's `match` that consume exactly one key byte. */
  method MatchToken(pat: seq<Byte>, start: nat, c: Byte) returns (accepted: bool, pi: nat)
    requires start < |pat| && pat[start] != STAR
    ensures accepted <==> Accepts(ReadToken(pat, start), c)
    ensures accepted ==> pi + 1 == AfterToken(pat, start)
  {
    accepted, pi := true, start;
    if pat[pi] == QUESTION {
    } else if pat[pi] == OPEN {
      pi := pi + 1;
      var negate := pi < |pat| && pat[pi] == CARET;
      if negate { pi := pi + 1; }
      accepted, pi := MatchClass(pat, pi, c);
      if negate { accepted := !accepted; }
    } else if pat[pi] == BACKSLASH && |pat| - pi >= 2 {
      pi := pi + 1;
      accepted := pat[pi] == c;
    } else {
      accepted := pat[pi] == c;
    }
  }

  /** A star loop makes at most one call per key byte, plus the loop its last call may enter. */
  lemma Budget(n: nat, tried: nat, inner: nat, runs: nat)
    requires tried <= n && inner <= 1 + n * runs
    ensures n * (runs + 1) == n * runs + n
    ensures tried + inner <= 1 + n * (runs + 1)
  {
  }

  /**
   One call of the source's recursive matcher. `skip` is the shared flag on entry and `flag` on exit;
   `calls` counts this call and every call below it.
   */
  method GlobMatchImpl(pat: seq<Byte>, pi0: nat, key: seq<Byte>, si0: nat, skip: bool, nesting: nat)
    returns (matched: bool, flag: bool, calls: nat)
    requires pi0 <= |pat| && si0 <= |key|
    ensures skip ==> flag
    ensures !skip ==> (matched <==> Plain(pat, pi0, key, si0, nesting))
    ensures !skip && flag ==> !matched && Hopeless(pat, pi0, key, si0, nesting)
    ensures 1 <= calls <= 1 + |key| * Runs(pat, pi0)
    ensures calls > 1 ==> matched || flag
    decreases |pat| - pi0
  {
    calls, flag := 1, skip;
    if nesting > MAX_NESTING {
      return false, flag, calls;
    }
    var pi, si := pi0, si0;
    while pi < |pat| && si < |key|
      invariant pi0 <= pi <= |pat| && si0 <= si <= |key|
      invariant calls == 1 && flag == skip
      invariant Plain(pat, pi0, key, si0, nesting) == Plain(pat, pi, key, si, nesting)
      invariant si < |key| && Hopeless(pat, pi, key, si, nesting) ==> Hopeless(pat, pi0, key, si0, nesting)
      invariant Runs(pat, pi0) == Runs(pat, pi)
      decreases |pat| - pi
    {
      if pat[pi] == STAR {
        matched, flag, calls := StarLoop(pat, pi, key, si, skip, nesting);
        return;
      }
      ghost var from, at := pi, si;
      var accepted;
      accepted, pi := MatchToken(pat, pi, key[si]);
      if !accepted {
        return false, flag, calls;
      }
      si := si + 1;
      pi := pi + 1;
      if si == |key| {
        ghost var after := pi;
        while pi < |pat| && pat[pi] == STAR
          invariant after <= pi <= |pat|
          invariant SkipStars(pat, after) == SkipStars(pat, pi)
        {
          pi := pi + 1;
        }
        break;
      }
      if Hopeless(pat, pi, key, si, nesting) {
        StepBack(pat, from, key, at, nesting);
      }
    }
    matched := pi == |pat| && si == |key|;
  }

  /** The `*` arm: collapse the run, then try every start until one matches or the flag is raised. */
  method StarLoop(pat: seq<Byte>, pi0: nat, key: seq<Byte>, si0: nat, skip: bool, nesting: nat)
    returns (matched: bool, flag: bool, calls: nat)
    requires pi0 < |pat| && si0 < |key| && pat[pi0] == STAR && nesting <= MAX_NESTING
    ensures skip ==> flag
    ensures !skip ==> (matched <==> Plain(pat, pi0, key, si0, nesting))
    ensures !skip && flag ==> !matched && Hopeless(pat, pi0, key, si0, nesting)
    ensures 1 <= calls <= 1 + |key| * Runs(pat, pi0)
    ensures matched || flag
    decreases |pat| - pi0, 0
  {
    calls, flag := 1, skip;
    var pi, si := pi0, si0;
    while pi + 1 < |pat| && pat[pi + 1] == STAR
      invariant pi0 <= pi < |pat| && pat[pi] == STAR
      invariant SkipStars(pat, pi0) == SkipStars(pat, pi)
    {
      pi := pi + 1;
    }
    ghost var q, deeper := SkipStars(pat, pi0), nesting + 1;
    assert q == SkipStars(pat, pi + 1) == pi + 1;
    if pi + 1 == |pat| {
      return true, flag, calls;
    }
    while si < |key|
      invariant si0 <= si <= |key|
      invariant if si == si0 then flag == skip else !flag && !skip
      invariant calls == 1 + (si - si0)
      invariant forall j :: si0 <= j < si ==> !Plain(pat, q, key, j, deeper)
    {
      var below;
      matched, flag, below := GlobMatchImpl(pat, pi + 1, key, si, flag, nesting + 1);
      Budget(|key|, si + 1 - si0, below, Runs(pat, q));
      calls := calls + below;
      if matched {
        return;
      }
      if flag {
        if !skip { StarExhausted(pat, pi0, q, key, si0, nesting, deeper); }
        return false, flag, calls;
      }
      si := si + 1;
    }
    Budget(|key|, |key| - si0, 0, Runs(pat, q));
    StarExhausted(pat, pi0, q, key, si0, nesting, deeper);
    return false, true, calls;
  }

  // ---------------------------------------------------------------------------------------------
  // The matcher's answer is the declarative meaning
  // ---------------------------------------------------------------------------------------------

  /** Only stars can stand for the empty key. */
  lemma {:induction false} OnlyStarsDeriveNothing(pat: seq<Byte>, pi: nat)
    requires pi <= |pat|
    ensures Derives(Tokens(pat, pi), []) <==> SkipStars(pat, pi) == |pat|
    ensures SkipStars(pat, pi) == |pat| ==> Runs(pat, pi) == 0
    decreases |pat| - pi
  {
    var none: seq<Byte> := [];
    if pi < |pat| && pat[pi] == STAR {
      OnlyStarsDeriveNothing(pat, pi + 1);
      assert Tokens(pat, pi)[1..] == Tokens(pat, pi + 1);
      assert none[0..] == none;
      assert forall k :: 0 <= k <= |none| ==> none[k..] == none;
    }
  }

  /** Some rest of the key is derived: what a star before `ts` means. */
  ghost predicate SomeRest(ts: seq<Token>, key: seq<Byte>) {
    exists k :: 0 <= k <= |key| && Derives(ts, key[k..])
  }

  lemma LaterRest(ts: seq<Token>, key: seq<Byte>, k: nat)
    requires k <= |key| && SomeRest(ts, key[k..])
    ensures SomeRest(ts, key)
  {
    var m :| 0 <= m <= |key[k..]| && Derives(ts, key[k..][m..]);
    assert key[k..][m..] == key[k + m..];
  }

  /** A run of stars means what one star means. */
  lemma {:induction false} RunCollapses(pat: seq<Byte>, pi: nat, key: seq<Byte>)
    requires pi < |pat| && pat[pi] == STAR
    ensures Derives(Tokens(pat, pi), key) <==> SomeRest(Tokens(pat, SkipStars(pat, pi)), key)
    decreases |pat| - pi
  {
    var q := SkipStars(pat, pi);
    var rest := Tokens(pat, pi + 1);
    assert Tokens(pat, pi)[1..] == rest;
    if pi + 1 < q {
      assert pat[pi + 1] == STAR && SkipStars(pat, pi + 1) == q;
      if Derives(Tokens(pat, pi), key) {
        var k :| 0 <= k <= |key| && Derives(rest, key[k..]);
        RunCollapses(pat, pi + 1, key[k..]);
        LaterRest(Tokens(pat, q), key, k);
      }
      if SomeRest(Tokens(pat, q), key) {
        RunCollapses(pat, pi + 1, key);
        assert key[0..] == key;
      }
    }
  }

  lemma StarUnfolds(pat: seq<Byte>, pi: nat, q: nat, key: seq<Byte>, si: nat, nesting: nat, deeper: nat)
    requires pi < |pat| && si < |key| && pat[pi] == STAR && nesting <= MAX_NESTING
    requires q == SkipStars(pat, pi) < |pat| && deeper == nesting + 1
    ensures Plain(pat, pi, key, si, nesting) <==> exists j :: si <= j < |key| && Plain(pat, q, key, j, deeper)
  {
    if forall j :: si <= j < |key| ==> !Plain(pat, q, key, j, deeper) {
      StarExhausted(pat, pi, q, key, si, nesting, deeper);
    } else {
      var j :| si <= j < |key| && Plain(pat, q, key, j, deeper);
      assert Plain(pat, q, key, j, nesting + 1);
    }
  }

  /** The star arm of `PlainIsDerives`. */
  lemma StarArm(pat: seq<Byte>, pi: nat, key: seq<Byte>, si: nat, nesting: nat, deeper: nat)
    requires pi < |pat| && si < |key| && pat[pi] == STAR && nesting <= MAX_NESTING && deeper == nesting + 1
    requires var q := SkipStars(pat, pi);
             q < |pat| ==> forall j :: si <= j < |key| ==>
               (Plain(pat, q, key, j, deeper) <==>
                deeper + Runs(pat, q) <= MAX_NESTING && Derives(Tokens(pat, q), key[j..]))
    ensures Plain(pat, pi, key, si, nesting)
       <==> nesting + Runs(pat, pi) <= MAX_NESTING && Derives(Tokens(pat, pi), key[si..])
  {
    var q := SkipStars(pat, pi);
    RunCollapses(pat, pi, key[si..]);
    if q == |pat| {
      assert key[si..][|key[si..]|..] == [];
    } else {
      StarUnfolds(pat, pi, q, key, si, nesting, deeper);
      if Plain(pat, pi, key, si, nesting) {
        var j :| si <= j < |key| && Plain(pat, q, key, j, deeper);
        assert key[si..][j - si..] == key[j..];
      }
      if nesting + Runs(pat, pi) <= MAX_NESTING && Derives(Tokens(pat, pi), key[si..]) {
        var k :| 0 <= k <= |key[si..]| && Derives(Tokens(pat, q), key[si..][k..]);
        assert key[si..][k..] == key[si + k..];
        OnlyStarsDeriveNothing(pat, q);
        assert Plain(pat, q, key, si + k, deeper);
      }
    }
  }

  /** On a non-empty remainder the search succeeds iff the guard is not reached and the tokens derive it. */
  lemma {:induction false} PlainIsDerives(pat: seq<Byte>, pi: nat, key: seq<Byte>, si: nat, nesting: nat)
    requires pi <= |pat| && si < |key|
    requires nesting <= MAX_NESTING || (pi < |pat| && pat[pi] != STAR)
    ensures Plain(pat, pi, key, si, nesting)
       <==> nesting + Runs(pat, pi) <= MAX_NESTING && Derives(Tokens(pat, pi), key[si..])
    decreases |pat| - pi
  {
    if nesting <= MAX_NESTING && pi < |pat| {
      if pat[pi] == STAR {
        var q, deeper := SkipStars(pat, pi), nesting + 1;
        if q < |pat| {
          forall j | si <= j < |key|
            ensures Plain(pat, q, key, j, deeper)
               <==> deeper + Runs(pat, q) <= MAX_NESTING && Derives(Tokens(pat, q), key[j..])
          {
            PlainIsDerives(pat, q, key, j, deeper);
          }
        }
        StarArm(pat, pi, key, si, nesting, deeper);
      } else {
        var next := AfterToken(pat, pi);
        assert Tokens(pat, pi)[1..] == Tokens(pat, next);
        assert key[si..][1..] == key[si + 1..];
        if si + 1 == |key| {
          OnlyStarsDeriveNothing(pat, next);
        } else {
          PlainIsDerives(pat, next, key, si + 1, nesting);
        }
      }
    }
  }

  /**
   Exactly when the key filter's matcher agrees with the meaning of its pattern. An empty key is
   matched by the empty pattern only, and a pattern with more than 1000 star runs that something
   follows matches nothing.
   */
  ghost predicate Meaning(pat: seq<Byte>, key: seq<Byte>) {
    if key == [] then pat == []
    else Runs(pat, 0) <= MAX_NESTING && Language(Tokens(pat, 0), key)
  }

  lemma PlainMeaning(pat: seq<Byte>, key: seq<Byte>)
    ensures Plain(pat, 0, key, 0, 0) <==> Meaning(pat, key)
  {
    if key != [] {
      PlainIsDerives(pat, 0, key, 0, 0);
      LanguageIsDerives(Tokens(pat, 0), key);
      assert key[0..] == key;
    }
  }

  /** The early-out changes no answer, and keeps the number of calls linear in the key per star run. */
  method GlobMatch(pat: seq<Byte>, key: seq<Byte>) returns (matched: bool, calls: nat)
    ensures matched <==> Plain(pat, 0, key, 0, 0)
    ensures matched <==> Meaning(pat, key)
    ensures calls <= 1 + |key| * Runs(pat, 0)
  {
    var flag;
    matched, flag, calls := GlobMatchImpl(pat, 0, key, 0, false, 0);
    PlainMeaning(pat, key);
  }

  /**
   The matcher departs from the declarative meaning in exactly two families of inputs: an empty key
   against a non-empty pattern of stars only, and a key in the language of a pattern over the guard.
   */
  lemma WhereMeaningDiffers(pat: seq<Byte>, key: seq<Byte>)
    ensures Meaning(pat, key) ==> Language(Tokens(pat, 0), key)
    ensures Language(Tokens(pat, 0), key) && !Meaning(pat, key) <==>
            if key == [] then pat != [] && SkipStars(pat, 0) == |pat|
            else Runs(pat, 0) > 1000 && Language(Tokens(pat, 0), key)
  {
    LanguageIsDerives(Tokens(pat, 0), key);
    if key == [] { OnlyStarsDeriveNothing(pat, 0); }
  }

  /** `*?` repeated `n` times. */
  function Deep(n: nat): (pat: seq<Byte>)
    ensures |pat| == 2 * n
    ensures forall i :: 0 <= i < n ==> pat[2 * i] == STAR && pat[2 * i + 1] == QUESTION
  {
    seq(2 * n, i requires 0 <= i < 2 * n => if i % 2 == 0 then STAR else QUESTION)
  }

  /** From its `m`-th repetition on, the pattern has one run per repetition left and derives a key of as many bytes. */
  lemma {:induction false} DeepFrom(n: nat, m: nat, key: seq<Byte>)
    requires m <= n && |key| == n - m
    ensures Runs(Deep(n), 2 * m) == n - m && Derives(Tokens(Deep(n), 2 * m), key)
    decreases n - m
  {
    if m < n {
      var pat := Deep(n);
      var ts := Tokens(pat, 2 * m + 2);
      DeepFrom(n, m + 1, key[1..]);
      assert pat[2 * m] == STAR && pat[2 * m + 1] == QUESTION;
      assert SkipStars(pat, 2 * m) == 2 * m + 1 && AfterToken(pat, 2 * m + 1) == 2 * m + 2;
      var rest := [AnyByte] + ts;
      assert Tokens(pat, 2 * m + 1) == rest && rest[1..] == ts;
      var all := [Star] + rest;
      assert Tokens(pat, 2 * m) == all && all[1..] == rest;
      assert key[0..] == key;
      assert Derives(rest, key[0..]);
    }
  }

  /** A pattern over the guard does fail on a key of its language. */
  lemma DeepPatternFails(key: seq<Byte>)
    requires |key| > MAX_NESTING
    ensures Language(Tokens(Deep(|key|), 0), key) && !Meaning(Deep(|key|), key)
  {
    var pat := Deep(|key|);
    DeepFrom(|key|, 0, key);
    LanguageIsDerives(Tokens(pat, 0), key);
  }

  // ---------------------------------------------------------------------------------------------
  // The filter: a list of patterns with a short circuit for a bare star
  // ---------------------------------------------------------------------------------------------

  datatype KeyFilter = KeyFilter(star: bool, patterns: seq<seq<Byte>>)

  /** `ParsedKeyFilter::matches`, with the source's short-circuiting scan as a loop. */
  method FilterMatches(filter: KeyFilter, key: seq<Byte>) returns (selected: bool)
    ensures selected <==> filter.star || exists i :: 0 <= i < |filter.patterns| && Meaning(filter.patterns[i], key)
  {
    selected := filter.star;
    var i := 0;
    while !selected && i < |filter.patterns|
      invariant 0 <= i <= |filter.patterns|
      invariant selected ==> filter.star || (i > 0 && Meaning(filter.patterns[i - 1], key))
      invariant !selected ==> !filter.star && forall j :: 0 <= j < i ==> !Meaning(filter.patterns[j], key)
    {
      var calls;
      selected, calls := GlobMatch(filter.patterns[i], key);
      i := i + 1;
    }
  }

  /** The short circuit is invisible on non-empty keys: a bare star matches them all anyway. */
  lemma StarShortCircuit(key: seq<Byte>)
    ensures Meaning([STAR], key) <==> key != []
  {
    var pat := [STAR];
    if key != [] {
      assert SkipStars(pat, 1) == 1;
      assert SkipStars(pat, 0) == |pat|;
      assert Plain(pat, 0, key, 0, 0);
      PlainMeaning(pat, key);
    }
  }
}
