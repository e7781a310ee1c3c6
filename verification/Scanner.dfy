/** Recovering one JSON object from a model's reply: the brace matcher, the scan for top-level objects, and the
    driver that asks again at most once. */
module Scanner {

  import opened Wrappers
  import opened JsonText

  // ---- matching braces ------------------------------------------------------

  datatype State = State(depth: int, inString: bool, escaped: bool)

  const OUTSIDE := State(0, false, false)

  function Step(st: State, c: char): State {
    if st.inString then
      if st.escaped then st.(escaped := false)
      else if c == '\\' then st.(escaped := true)
      else if c == '"' then st.(inString := false)
      else st
    else if c == '"' then st.(inString := true)
    else if c == '{' then st.(depth := st.depth + 1)
    else if c == '}' then st.(depth := st.depth - 1)
    else st
  }

  predicate Closes(st: State, c: char) {
    !st.inString && c == '}' && st.depth == 1
  }

  /** The index just past the brace that brings the depth back to zero, reading from `j`; -1 if there is none. */
  function Match(s: string, j: nat, st: State): (end: int)
    requires j <= |s|
    ensures end == -1 || j < end <= |s|
    decreases |s| - j
  {
    if j == |s| then -1
    else if Closes(st, s[j]) then j + 1
    else Match(s, j + 1, Step(st, s[j]))
  }

  method MatchingBrace(s: string, start: nat) returns (end: int)
    requires start <= |s|
    ensures end == Match(s, start, OUTSIDE)
  {
    var depth, inString, escaped := 0, false, false;
    for j := start to |s|
      invariant Match(s, start, OUTSIDE) == Match(s, j, State(depth, inString, escaped))
      invariant escaped ==> inString
    {
      var c := s[j];
      if inString {
        if escaped {
          escaped := false;
        } else if c == '\\' {
          escaped := true;
        } else if c == '"' {
          inString := false;
        }
      } else if c == '"' {
        inString := true;
      } else if c == '{' {
        depth := depth + 1;
      } else if c == '}' {
        depth := depth - 1;
        if depth == 0 {
          return j + 1;
        }
      }
    }
    return -1;
  }

  // ---- printed text goes by -------------------------------------------------

  /** The state after reading `t`, unless a brace closes on the way. */
  function Read(st: State, t: string): Option<State>
    decreases |t|
  {
    if t == "" then Some(st)
    else if Closes(st, t[0]) then None
    else Read(Step(st, t[0]), t[1..])
  }

  lemma {:induction false} ReadBoth(st: State, a: string, b: string)
    requires Read(st, a).Some?
    ensures Read(st, a + b) == Read(Read(st, a).value, b)
    decreases |a|
  {
    if a == "" {
      assert a + b == b;
    } else {
      assert (a + b)[1..] == a[1..] + b;
      ReadBoth(Step(st, a[0]), a[1..], b);
    }
  }

  /** `t` stands in `s` at `j`. */
  predicate At(s: string, j: nat, t: string) {
    j + |t| <= |s| && s[j..j + |t|] == t
  }

  lemma {:induction false} MatchReads(s: string, j: nat, t: string, st: State)
    requires At(s, j, t) && Read(st, t).Some?
    ensures Match(s, j, st) == Match(s, j + |t|, Read(st, t).value)
    decreases |t|
  {
    if t != "" {
      assert s[j] == t[0];
      assert s[j + 1..j + 1 + |t[1..]|] == t[1..];
      MatchReads(s, j + 1, t[1..], Step(st, t[0]));
    }
  }

  /** Reading `t` brings the matcher back to the state it was in. */
  predicate Keeps(st: State, t: string) {
    Read(st, t) == Some(st)
  }

  lemma KeepsBoth(st: State, a: string, b: string)
    requires Keeps(st, a) && Keeps(st, b)
    ensures Keeps(st, a + b)
  {
    ReadBoth(st, a, b);
  }

  predicate Inert(c: char) {
    c != '"' && c != '{' && c != '}'
  }

  lemma {:induction false} InertKeeps(st: State, t: string)
    requires !st.inString && forall c :: c in t ==> Inert(c)
    ensures Keeps(st, t)
    decreases |t|
  {
    if t != "" {
      assert t[0] in t && Step(st, t[0]) == st;
      InertKeeps(st, t[1..]);
    }
  }

  predicate Inside(st: State) {
    st.inString && !st.escaped
  }

  lemma CharKeeps(st: State, c: char)
    requires Inside(st) && c != '"' && c != '\\'
    ensures Keeps(st, [c])
  {
    assert [c][1..] == "";
  }

  lemma EscapeKeeps(st: State, c: char)
    requires Inside(st)
    ensures Keeps(st, ['\\', c])
  {
    assert ['\\', c][1..] == [c] && [c][1..] == "";
    assert Read(st.(escaped := true), [c]) == Some(st);
  }

  lemma {:induction false} HexKeeps(st: State, t: string)
    requires Inside(st) && forall c :: c in t ==> Hex(c)
    ensures Keeps(st, t)
    decreases |t|
  {
    if t != "" {
      assert t[0] in t;
      HexKeeps(st, t[1..]);
    }
  }

  lemma PieceKeeps(st: State, p: Piece)
    requires ValidPiece(p) && Inside(st)
    ensures Keeps(st, PrintPiece(p))
  {
    match p
    case Plain(c) =>
      CharKeeps(st, c);
    case Escape(c) =>
      EscapeKeeps(st, c);
    case Unicode(hex) =>
      EscapeKeeps(st, 'u');
      HexKeeps(st, hex);
      KeepsBoth(st, ['\\', 'u'], hex);
  }

  lemma {:induction false} TextKeeps(st: State, t: Text)
    requires ValidText(t) && Inside(st)
    ensures Keeps(st, PrintText(t))
    decreases |t|
  {
    if t != [] {
      PieceKeeps(st, t[0]);
      TextKeeps(st, t[1..]);
      KeepsBoth(st, PrintPiece(t[0]), PrintText(t[1..]));
    }
  }

  /** Outside any string, and inside at least one object. */
  predicate Within(st: State) {
    !st.inString && !st.escaped && st.depth >= 1
  }

  lemma QuotedKeeps(st: State, t: Text)
    requires ValidText(t) && Within(st)
    ensures Keeps(st, PrintQuoted(t))
  {
    var inside := st.(inString := true);
    TextKeeps(inside, t);
    ReadBoth(inside, PrintText(t), "\"");
    assert "\""[1..] == "";
    assert Read(inside, "\"") == Some(st);
    assert PrintQuoted(t)[0] == '"' && PrintQuoted(t)[1..] == PrintText(t) + "\"";
  }

  lemma Keeps4(st: State, a: string, b: string, c: string, d: string)
    requires Keeps(st, a) && Keeps(st, b) && Keeps(st, c) && Keeps(st, d)
    ensures Keeps(st, a + (b + (c + d)))
  {
    KeepsBoth(st, c, d);
    KeepsBoth(st, b, c + d);
    KeepsBoth(st, a, b + (c + d));
  }

  lemma {:induction false} ElementsKeep(st: State, e: Elements)
    requires ValidElements(e) && Within(st)
    ensures Keeps(st, PrintElements(e))
    decreases e
  {
    if e.Element? {
      var comma := if e.rest.NoElement? then "" else ",";
      InertKeeps(st, e.before);
      TreeKeeps(st, e.value);
      InertKeeps(st, e.after);
      InertKeeps(st, comma);
      ElementsKeep(st, e.rest);
      KeepsBoth(st, comma, PrintElements(e.rest));
      Keeps4(st, e.before, Print(e.value), e.after, comma + PrintElements(e.rest));
    }
  }

  /** Everything of a member up to its value. */
  lemma KeyKeeps(st: State, m: Members, tail: string)
    requires m.Member? && ValidMembers(m) && Within(st) && Keeps(st, tail)
    ensures Keeps(st, m.before + (PrintQuoted(m.key) + (m.afterKey + (":" + (m.beforeValue + tail)))))
  {
    InertKeeps(st, m.before);
    QuotedKeeps(st, m.key);
    InertKeeps(st, m.afterKey);
    InertKeeps(st, ":");
    InertKeeps(st, m.beforeValue);
    KeepsBoth(st, m.beforeValue, tail);
    KeepsBoth(st, ":", m.beforeValue + tail);
    Keeps4(st, m.before, PrintQuoted(m.key), m.afterKey, ":" + (m.beforeValue + tail));
  }

  lemma {:induction false} MembersKeep(st: State, m: Members)
    requires ValidMembers(m) && Within(st)
    ensures Keeps(st, PrintMembers(m))
    decreases m
  {
    if m.Member? {
      var comma := if m.rest.NoMember? then "" else ",";
      TreeKeeps(st, m.value);
      InertKeeps(st, m.after);
      InertKeeps(st, comma);
      MembersKeep(st, m.rest);
      Keeps4(st, Print(m.value), m.after, comma, PrintMembers(m.rest));
      KeyKeeps(st, m, Print(m.value) + (m.after + (comma + PrintMembers(m.rest))));
    }
  }

  lemma OpenReads(st: State, t: string, rest: string)
    requires !st.inString && !st.escaped && t != "" && t[0] == '{' && t[1..] == rest
    ensures Read(st, t) == Read(st.(depth := st.depth + 1), rest)
  {
  }

  lemma CloseReads(st: State, t: string)
    requires !st.inString && !st.escaped && st.depth != 1 && t == "}"
    ensures Read(st, t) == Some(st.(depth := st.depth - 1))
  {
    assert t[0] == '}' && t[1..] == "";
  }

  /** An object is read up to its last brace one level further in. */
  lemma BodyReads(st: State, blank: string, body: string)
    requires Blank(blank) && !st.inString && !st.escaped
    requires Keeps(st.(depth := st.depth + 1), body)
    ensures Read(st, "{" + (blank + body)) == Some(st.(depth := st.depth + 1))
  {
    var inner := st.(depth := st.depth + 1);
    InertKeeps(inner, blank);
    KeepsBoth(inner, blank, body);
    OpenReads(st, "{" + (blank + body), blank + body);
  }

  /** Within an object, any printed value brings the matcher back to where it was. */
  lemma {:induction false} TreeKeeps(st: State, t: Tree)
    requires Valid(t) && Within(st)
    ensures Keeps(st, Print(t))
    decreases t
  {
    match t
    case Bare(name) =>
      InertKeeps(st, name);
    case Quoted(text) =>
      QuotedKeeps(st, text);
    case Array(blank, elements) =>
      InertKeeps(st, "[");
      InertKeeps(st, blank);
      ElementsKeep(st, elements);
      InertKeeps(st, "]");
      Keeps4(st, "[", blank, PrintElements(elements), "]");
    case Object(blank, members) =>
      MembersKeep(st.(depth := st.depth + 1), members);
      BodyReads(st, blank, PrintMembers(members));
      BraceKeeps(st, "{" + (blank + PrintMembers(members)), "}");
      assert Print(t) == "{" + (blank + PrintMembers(members)) + "}";
  }

  lemma BraceKeeps(st: State, open: string, close: string)
    requires Within(st) && Read(st, open) == Some(st.(depth := st.depth + 1)) && close == "}"
    ensures Keeps(st, open + close)
  {
    ReadBoth(st, open, close);
    CloseReads(st.(depth := st.depth + 1), close);
  }

  /** The matcher finds exactly the end of a printed object, whatever stands before and after it. */
  lemma MatchFindsEnd(s: string, j: nat, t: Tree)
    requires t.Object? && Valid(t) && At(s, j, Print(t))
    ensures Match(s, j, OUTSIDE) == j + |Print(t)|
  {
    var body := "{" + (t.blank + PrintMembers(t.members));
    MembersKeep(State(1, false, false), t.members);
    BodyReads(OUTSIDE, t.blank, PrintMembers(t.members));
    assert Print(t) == body + "}";
    assert s[j..j + |body|] == Print(t)[..|body|] == body;
    MatchReads(s, j, body, OUTSIDE);
    assert s[j + |body|] == Print(t)[|body|] == '}';
  }

  // ---- the one object in a text ---------------------------------------------

  /** A decoder of JSON text, and which of its values are objects. */
  datatype Decoder<!P> = Decoder(loads: string -> Option<P>, isObject: P -> bool)

  function ObjectIn<P>(d: Decoder<P>, text: string): seq<P> {
    var v := d.loads(text);
    if v.Some? && d.isObject(v.value) then [v.value] else []
  }

  /** The objects that the balanced top-level spans from `i` on decode to. */
  function Objects<P>(d: Decoder<P>, s: string, i: nat): seq<P>
    requires i <= |s|
    decreases |s| - i
  {
    if i == |s| then []
    else if s[i] == '{' && Match(s, i, OUTSIDE) != -1 then
      var end := Match(s, i, OUTSIDE);
      ObjectIn(d, s[i..end]) + Objects(d, s, end)
    else Objects(d, s, i + 1)
  }

  /** The only one, if there is exactly one. */
  function Sole<P>(found: seq<P>): Option<P> {
    if |found| == 1 then Some(found[0]) else None
  }

  lemma SpanFound<P>(d: Decoder<P>, s: string, i: nat, found: seq<P>)
    requires i < |s| && s[i] == '{' && Match(s, i, OUTSIDE) != -1
    ensures
      var end := Match(s, i, OUTSIDE);
      found + Objects(d, s, i) == (found + ObjectIn(d, s[i..end])) + Objects(d, s, end)
  {
  }

  method SoleTopLevelObject<P>(d: Decoder<P>, s: string) returns (r: Option<P>)
    ensures r == Sole(Objects(d, s, 0))
  {
    var found: seq<P> := [];
    var i := 0;
    while i < |s|
      invariant 0 <= i <= |s| && |found| <= 1
      invariant Objects(d, s, 0) == found + Objects(d, s, i)
    {
      if s[i] == '{' {
        var end := MatchingBrace(s, i);
        if end != -1 {
          SpanFound(d, s, i, found);
          found := found + ObjectIn(d, s[i..end]);
          if |found| > 1 {
            return None;
          }
          i := end;
          continue;
        }
      }
      i := i + 1;
    }
    return Sole(found);
  }

  /** Text in which these objects stand, each followed by text without an opening brace. */
  function Wrapped(first: string, rest: seq<(Tree, string)>): string
    decreases |rest|
  {
    if rest == [] then first else first + (Print(rest[0].0) + Wrapped(rest[0].1, rest[1..]))
  }

  predicate Braceless(s: string) {
    '{' !in s
  }

  predicate Wrappable(first: string, rest: seq<(Tree, string)>) {
    Braceless(first) && forall i :: 0 <= i < |rest| ==> rest[i].0.Object? && Valid(rest[i].0) && Braceless(rest[i].1)
  }

  ghost predicate Decodes<P>(d: Decoder<P>, meaning: Tree -> P, t: Tree) {
    d.loads(Print(t)) == Some(meaning(t)) && d.isObject(meaning(t))
  }

  /** The decoder undoes the printer on these objects. */
  ghost predicate Undoes<P>(d: Decoder<P>, meaning: Tree -> P, rest: seq<(Tree, string)>) {
    forall i :: 0 <= i < |rest| ==> Decodes(d, meaning, rest[i].0)
  }

  function Meanings<P>(meaning: Tree -> P, rest: seq<(Tree, string)>): seq<P> {
    if rest == [] then [] else [meaning(rest[0].0)] + Meanings(meaning, rest[1..])
  }

  lemma {:induction false} BracelessSkipped<P>(d: Decoder<P>, s: string, i: nat, t: string)
    requires At(s, i, t) && Braceless(t)
    ensures Objects(d, s, i) == Objects(d, s, i + |t|)
    decreases |t|
  {
    if t != "" {
      assert s[i] == t[0] && t[0] in t;
      assert s[i + 1..i + 1 + |t[1..]|] == t[1..];
      BracelessSkipped(d, s, i + 1, t[1..]);
    }
  }

  lemma AtBoth(s: string, j: nat, a: string, b: string)
    requires At(s, j, a + b)
    ensures At(s, j, a) && At(s, j + |a|, b)
  {
    assert s[j..j + |a|] == (a + b)[..|a|] == a;
    assert s[j + |a|..j + |a| + |b|] == (a + b)[|a|..] == b;
  }

  lemma OneLess<P>(d: Decoder<P>, meaning: Tree -> P, first: string, rest: seq<(Tree, string)>)
    requires Undoes(d, meaning, rest) && Wrappable(first, rest) && rest != []
    ensures Undoes(d, meaning, rest[1..]) && Wrappable(rest[0].1, rest[1..])
    ensures Decodes(d, meaning, rest[0].0)
  {
  }

  /** The scan finds the printed objects, in order, and nothing else. */
  lemma {:induction false} ScanFinds<P>(d: Decoder<P>, meaning: Tree -> P, s: string, i: nat, first: string, rest: seq<(Tree, string)>)
    requires Undoes(d, meaning, rest) && Wrappable(first, rest)
    requires At(s, i, Wrapped(first, rest)) && i + |Wrapped(first, rest)| == |s|
    ensures Objects(d, s, i) == Meanings(meaning, rest)
    decreases |rest|
  {
    if rest == [] {
      BracelessSkipped(d, s, i, first);
    } else {
      OneLess(d, meaning, first, rest);
      var k := FirstFound(d, meaning, s, i, first, rest[0].0, Wrapped(rest[0].1, rest[1..]));
      ScanFinds(d, meaning, s, k, rest[0].1, rest[1..]);
    }
  }

  lemma FirstFound<P>(d: Decoder<P>, meaning: Tree -> P, s: string, i: nat, first: string, t: Tree, tail: string) returns (k: nat)
    requires Decodes(d, meaning, t) && t.Object? && Valid(t) && Braceless(first)
    requires At(s, i, first + (Print(t) + tail))
    ensures At(s, k, tail) && k + |tail| == i + |first + (Print(t) + tail)|
    ensures Objects(d, s, i) == [meaning(t)] + Objects(d, s, k)
  {
    hide Objects, Print;
    var j := Split(s, i, first, Print(t), tail);
    BracelessSkipped(d, s, i, first);
    ObjectFound(d, meaning, s, j, t);
    k := j + |Print(t)|;
  }

  lemma Split(s: string, i: nat, a: string, b: string, c: string) returns (j: nat)
    requires At(s, i, a + (b + c))
    ensures j == i + |a| && At(s, i, a) && At(s, j, b) && At(s, j + |b|, c)
  {
    j := i + |a|;
    AtBoth(s, i, a, b + c);
    AtBoth(s, j, b, c);
  }

  lemma ObjectFound<P>(d: Decoder<P>, meaning: Tree -> P, s: string, j: nat, t: Tree)
    requires Decodes(d, meaning, t) && t.Object? && Valid(t) && At(s, j, Print(t))
    ensures Objects(d, s, j) == [meaning(t)] + Objects(d, s, j + |Print(t)|)
  {
    MatchFindsEnd(s, j, t);
    assert Print(t)[0] == '{' && s[j] == s[j..j + |Print(t)|][0];
  }

  /** One printed object in text without braces is recovered; none, or more than one, is refused. */
  lemma SoleUndoesPrint<P>(d: Decoder<P>, meaning: Tree -> P, first: string, rest: seq<(Tree, string)>)
    requires Undoes(d, meaning, rest) && Wrappable(first, rest)
    ensures
      Sole(Objects(d, Wrapped(first, rest), 0)) == if |rest| == 1 then Some(meaning(rest[0].0)) else None
  {
    var s := Wrapped(first, rest);
    assert s[0..|s|] == s;
    ScanFinds(d, meaning, s, 0, first, rest);
    MeaningsLength(meaning, rest);
  }

  lemma {:induction false} MeaningsLength<P>(meaning: Tree -> P, rest: seq<(Tree, string)>)
    ensures |Meanings(meaning, rest)| == |rest|
  {
    if rest != [] {
      MeaningsLength(meaning, rest[1..]);
    }
  }

  // ---- extraction, and the one re-ask ---------------------------------------

  datatype Content = NoContent | NotText | Reply(text: string)

  datatype Extraction<P> = Found(value: P) | Structural | Absent

  method ExtractObject<P>(d: Decoder<P>, content: Content) returns (e: Extraction<P>)
    ensures e == Extracted(d, content)
  {
    if !content.Reply? {
      return Absent;
    }
    var parsed := d.loads(content.text);
    if parsed.None? {
      var recovered := SoleTopLevelObject(d, content.text);
      return if recovered.Some? then Found(recovered.value) else Absent;
    }
    return if d.isObject(parsed.value) then Found(parsed.value) else Structural;
  }

  function Extracted<P>(d: Decoder<P>, content: Content): Extraction<P> {
    if !content.Reply? then Absent
    else
      var parsed := d.loads(content.text);
      if parsed.Some? then if d.isObject(parsed.value) then Found(parsed.value) else Structural
      else
        var sole := Sole(Objects(d, content.text, 0));
        if sole.Some? then Found(sole.value) else Absent
  }

  datatype Coerced<P> = Coerced(value: P, reprompts: nat) | ModelError(reprompts: nat)

  /** An extraction that needs no second look. */
  predicate Acceptable<P>(e: Extraction<P>, valid: P -> bool) {
    e.Found? && valid(e.value)
  }

  /** One look, and at most one more: a reply that is JSON but no object is never asked for again, an object that fails
      its schema is handed on when nothing better can be asked for. */
  function Coercion<P>(first: Extraction<P>, second: Extraction<P>, canReask: bool, valid: P -> bool): Coerced<P> {
    if Acceptable(first, valid) then Coerced.Coerced(first.value, 0)
    else if first.Structural? then ModelError(0)
    else if canReask then
      if second.Found? then Coerced.Coerced(second.value, 1) else ModelError(1)
    else if first.Found? then Coerced.Coerced(first.value, 0)
    else ModelError(0)
  }

  /** The reply is an object, or is no JSON and has this one object in it. */
  ghost predicate Offers<P>(d: Decoder<P>, content: Content, v: P) {
    content.Reply?
    && match d.loads(content.text)
       case Some(whole) => d.isObject(whole) && whole == v
       case None => Objects(d, content.text, 0) == [v]
  }

  /** The reply is JSON, but no object. */
  predicate IsOtherJson<P>(d: Decoder<P>, content: Content) {
    content.Reply? && d.loads(content.text).Some? && !d.isObject(d.loads(content.text).value)
  }

  /** What two replies and the budget come to. JSON that is no object is never asked for again. A valid object is taken at
      once. For an invalid one, or none, the model is asked again exactly when the budget allows it; the second reply is
      taken if it offers an object, valid or not, and without a second one an invalid first object is handed on. */
  ghost predicate Settled<P(!new)>(d: Decoder<P>, first: Content, second: Content, canReask: bool, valid: P -> bool, r: Coerced<P>) {
    && (IsOtherJson(d, first) ==> r == ModelError(0))
    && (forall v :: Offers(d, first, v) && (valid(v) || !canReask) ==> r == Coerced.Coerced(v, 0))
    && (!IsOtherJson(d, first) && !canReask && !(exists v :: Offers(d, first, v)) ==> r == ModelError(0))
    && (!IsOtherJson(d, first) && canReask && !(exists v :: Offers(d, first, v) && valid(v)) ==>
          && (forall w :: Offers(d, second, w) ==> r == Coerced.Coerced(w, 1))
          && (!(exists w :: Offers(d, second, w)) ==> r == ModelError(1)))
  }

  lemma ExtractedOffers<P(!new)>(d: Decoder<P>, content: Content)
    ensures Extracted(d, content).Structural? <==> IsOtherJson(d, content)
    ensures forall v :: Offers(d, content, v) <==> Extracted(d, content) == Found(v)
  {
    if content.Reply? && d.loads(content.text).None? {
      var objects := Objects(d, content.text, 0);
      forall v ensures objects == [v] <==> Sole(objects) == Some(v) {
      }
    }
  }

  lemma CoercionSettles<P(!new)>(d: Decoder<P>, first: Content, second: Content, canReask: bool, valid: P -> bool)
    ensures Settled(d, first, second, canReask, valid, Coercion(Extracted(d, first), Extracted(d, second), canReask, valid))
  {
    ExtractedOffers(d, first);
    ExtractedOffers(d, second);
    hide Extracted, Offers;
    assert Extracted(d, first).Found? ==> Offers(d, first, Extracted(d, first).value);
    assert Extracted(d, second).Found? ==> Offers(d, second, Extracted(d, second).value);
  }

  /** `replies` are the answers that further turns would get, `canReask` what the budget says before each of them. */
  method CoerceStructuredOutput<P(!new)>(d: Decoder<P>, initial: Content, replies: nat -> Content, canReask: nat -> bool, valid: P -> bool)
    returns (r: Coerced<P>)
    ensures r == Coercion(Extracted(d, initial), Extracted(d, replies(0)), canReask(0), valid)
    ensures Settled(d, initial, replies(0), canReask(0), valid, r)
  {
    CoercionSettles(d, initial, replies(0), canReask(0), valid);
    var reprompts := 0;
    var e := ExtractObject(d, initial);
    while true
      invariant reprompts <= 1
      invariant reprompts == 0 ==> e == Extracted(d, initial)
      invariant reprompts == 1 ==>
        e == Extracted(d, replies(0)) && canReask(0)
        && !Acceptable(Extracted(d, initial), valid) && !Extracted(d, initial).Structural?
      decreases 1 - reprompts
    {
      var canReprompt := reprompts < 1 && canReask(reprompts);
      if e.Found? {
        if valid(e.value) || !canReprompt {
          return Coerced.Coerced(e.value, reprompts);
        }
      } else if e.Structural? || !canReprompt {
        return ModelError(reprompts);
      }
      var content := replies(reprompts);
      reprompts := reprompts + 1;
      e := ExtractObject(d, content);
    }
  }

  /** A single object in prose is accepted at once, when the reply as a whole is not JSON. */
  lemma ProseIsNoObstacle<P>(d: Decoder<P>, meaning: Tree -> P, valid: P -> bool, before: string, t: Tree, after: string,
                                  second: Extraction<P>, canReask: bool)
    requires Decodes(d, meaning, t) && t.Object? && Valid(t) && Braceless(before) && Braceless(after)
    requires d.loads(before + (Print(t) + after)).None? && valid(meaning(t))
    ensures
      Coercion(Extracted(d, Reply(before + (Print(t) + after))), second, canReask, valid)
      == Coerced.Coerced(meaning(t), 0)
  {
    SoleUndoesPrint(d, meaning, before, [(t, after)]);
    assert [(t, after)][1..] == [];
  }
}
