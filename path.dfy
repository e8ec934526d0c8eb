/** `getByPath` (src/lib/providers.js): the dotted-path lookup that pulls the
    reply text out of a provider response. `None` stands for `undefined`. */
module JsonPath {
  import opened Text
  import opened Optional
  import opened JsonValue

  // ---------------------------------------------------------------------
  // `path.split('.')`
  // ---------------------------------------------------------------------

  /** `s.split('.')`: the pieces between dots, at least one. */
  function Split(s: string): (parts: seq<string>)
    ensures |parts| >= 1
  {
    if s == [] then [[]]
    else
      var rest := Split(s[1..]);
      if s[0] == '.' then [[]] + rest else [[s[0]] + rest[0]] + rest[1..]
  }

  /** `parts.join('.')`. */
  function Join(parts: seq<string>): string {
    if parts == [] then []
    else if |parts| == 1 then parts[0]
    else parts[0] + ("." + Join(parts[1..]))
  }

  /** Joining the pieces with dots gives back the path. */
  lemma {:induction false} JoinSplit(s: string)
    ensures Join(Split(s)) == s
  {
    if s != [] {
      var rest := Split(s[1..]);
      JoinSplit(s[1..]);
      if s[0] == '.' {
        assert Split(s) == [[]] + rest;
        assert [] + ("." + Join(rest)) == s;
      } else if |rest| == 1 {
        assert Split(s) == [[s[0]] + rest[0]];
        assert [s[0]] + rest[0] == s;
      } else {
        var parts := Split(s);
        assert parts == [[s[0]] + rest[0]] + rest[1..];
        assert parts[1..] == rest[1..];
        assert Join(rest) == rest[0] + ("." + Join(rest[1..]));
        ConcatRegroup(s[0], rest[0], "." + Join(rest[1..]));
        assert s == [s[0]] + s[1..];
      }
    }
  }

  /** Text without a dot stays in the first piece. */
  lemma {:induction false} SplitPrefix(w: string, s: string)
    requires '.' !in w
    ensures Split(w + s) == [w + Split(s)[0]] + Split(s)[1..]
    decreases |w|
  {
    if w != [] {
      assert w[0] in w;
      SplitPrefix(w[1..], s);
      var t := w + s;
      assert t[0] == w[0] && t[1..] == w[1..] + s;
      var rest := Split(s);
      var inner := Split(t[1..]);
      assert inner == [w[1..] + rest[0]] + rest[1..];
      assert Split(t) == [[w[0]] + inner[0]] + inner[1..];
      ConcatRegroup(w[0], w[1..], rest[0]);
      assert [w[0]] + w[1..] == w;
    } else {
      var rest := Split(s);
      assert w + s == s && w + rest[0] == rest[0];
      assert [rest[0]] + rest[1..] == rest;
    }
  }

  /** Splitting dot-free pieces joined with dots gives back the pieces. */
  lemma {:induction false} SplitJoin(parts: seq<string>)
    requires |parts| >= 1
    requires forall i :: 0 <= i < |parts| ==> '.' !in parts[i]
    ensures Split(Join(parts)) == parts
  {
    if |parts| == 1 {
      SplitPrefix(parts[0], []);
      assert parts[0] + [] == parts[0];
    } else {
      var tail := Join(parts[1..]);
      SplitJoin(parts[1..]);
      assert Split("." + tail) == [[]] + parts[1..];
      SplitPrefix(parts[0], "." + tail);
      assert parts[0] + [] == parts[0];
      assert parts == [parts[0]] + parts[1..];
    }
  }

  // ---------------------------------------------------------------------
  // The segment pattern `(\w+)(?:\[(\d+)\])?`, unanchored
  // ---------------------------------------------------------------------

  /** What the segment pattern captures: the word `name` and, when a
      bracketed digit string follows it, that index. */
  datatype Segment = Segment(name: string, index: Option<nat>)

  /** The optional `[digits]` group right after the name, which ends at `e`.
      `Number` of the digits gives their decimal value. */
  function BracketIndexAt(part: string, e: nat): Option<nat> {
    if e < |part| && part[e] == '[' then
      var d := RunFrom(part, e + 1, Digit);
      if d > 0 && e + 1 + d < |part| && part[e + 1 + d] == ']' then
        Some(DigitsValue(part[e + 1..e + 1 + d]))
      else
        None
    else
      None
  }

  /** `part.match(/(\w+)(?:\[(\d+)\])?/)`: the leftmost match starts at the
      first word character, anywhere in `part`; `\w+` takes the whole run of
      word characters and the bracket group is tried after it. */
  function MatchSegment(part: string): Option<Segment> {
    var start := RunFrom(part, 0, NonWord);
    if start == |part| then None
    else
      var e := start + RunFrom(part, start, Word);
      Some(Segment(part[start..e], BracketIndexAt(part, e)))
  }

  /** The pattern fails exactly on a segment without any word character, and
      a digit-only segment is all word characters: the `/^\d+$/` branch of
      the loop is never taken. */
  lemma MatchSegmentNone(part: string)
    ensures MatchSegment(part).None? <==> AllIn(part, NonWord)
    ensures MatchSegment(part).None? ==> !(part != [] && AllIn(part, Digit))
  {
    if AllIn(part, NonWord) {
      RunFromExact(part, 0, |part|, NonWord);
    } else {
      RunFromMaximal(part, 0, NonWord);
    }
    if part != [] && AllIn(part, Digit) {
      assert !InClass(part[0], NonWord);
    }
  }

  /** A plain word segment is captured whole, without an index. */
  lemma MatchWordSegment(w: string)
    requires w != [] && AllIn(w, Word)
    ensures MatchSegment(w) == Some(Segment(w, None))
  {
    RunFromExact(w, 0, 0, NonWord);
    RunFromExact(w, 0, |w|, Word);
    assert w[0..|w|] == w;
  }

  /** The pattern over a segment laid out as non-word characters, a name
      and then nothing or a character that neither continues the name nor
      opens a bracket. */
  lemma MatchSkipLayout(part: string, junk: string, w: string)
    requires AllIn(junk, NonWord) && w != [] && AllIn(w, Word)
    requires |junk| + |w| <= |part|
    requires part[..|junk|] == junk && part[|junk|..|junk| + |w|] == w
    requires |junk| + |w| == |part|
          || (part[|junk| + |w|] != '[' && !IsWordChar(part[|junk| + |w|]))
    ensures MatchSegment(part) == Some(Segment(w, None))
  {
    assert part[0..|junk|] == junk;
    assert part[|junk|] == w[0];
    RunOver(part, 0, junk, NonWord);
    RunOver(part, |junk|, w, Word);
  }

  /** The pattern is not anchored: characters before the name and after it
      are ignored, so `$foo-bar` reads property `foo`. */
  lemma MatchSkipsAround(junk: string, w: string, tail: string)
    requires AllIn(junk, NonWord) && w != [] && AllIn(w, Word)
    requires tail == [] || (tail[0] != '[' && !IsWordChar(tail[0]))
    ensures MatchSegment(junk + w + tail) == Some(Segment(w, None))
  {
    var part := junk + w + tail;
    assert part[..|junk|] == junk && part[|junk|..|junk| + |w|] == w;
    if tail != [] {
      assert part[|junk| + |w|] == tail[0];
    }
    MatchSkipLayout(part, junk, w);
  }

  /** Where the name, the brackets and the digits sit in `name[digits]`. */
  lemma IndexedSegmentLayout(w: string, d: string)
    ensures var part := w + "[" + d + "]";
      && |part| == |w| + |d| + 2
      && part[|w|] == '[' && part[|w| + 1 + |d|] == ']'
      && part[0..|w|] == w && part[|w| + 1..|w| + 1 + |d|] == d
  {
  }

  /** The bracket group after the name reads the digits' value. */
  lemma BracketIndexOver(part: string, e: nat, d: string)
    requires e + |d| + 2 <= |part|
    requires d != [] && AllIn(d, Digit)
    requires part[e] == '[' && part[e + 1 + |d|] == ']'
    requires part[e + 1..e + 1 + |d|] == d
    ensures BracketIndexAt(part, e) == Some(DigitsValue(d))
  {
    assert !InClass(part[e + 1 + |d|], Digit);
    RunOver(part, e + 1, d, Digit);
    var n := RunFrom(part, e + 1, Digit);
    assert n == |d| && part[e + 1 + n] == ']';
  }

  /** The pattern over a segment laid out as a name, `[`, digits and `]`. */
  lemma MatchIndexedLayout(part: string, w: string, d: string)
    requires w != [] && AllIn(w, Word)
    requires d != [] && AllIn(d, Digit)
    requires |part| == |w| + |d| + 2
    requires part[|w|] == '[' && part[|w| + 1 + |d|] == ']'
    requires part[0..|w|] == w && part[|w| + 1..|w| + 1 + |d|] == d
    ensures MatchSegment(part) == Some(Segment(w, Some(DigitsValue(d))))
  {
    RunFromExact(part, 0, 0, NonWord);
    RunOver(part, 0, w, Word);
    BracketIndexOver(part, |w|, d);
  }

  /** `name[digits]` is captured as the name and the digits' value. */
  lemma MatchIndexedSegment(w: string, d: string)
    requires w != [] && AllIn(w, Word)
    requires d != [] && AllIn(d, Digit)
    ensures MatchSegment(w + "[" + d + "]") == Some(Segment(w, Some(DigitsValue(d))))
  {
    IndexedSegmentLayout(w, d);
    MatchIndexedLayout(w + "[" + d + "]", w, d);
  }

  // ---------------------------------------------------------------------
  // Property access `cur[key]`
  // ---------------------------------------------------------------------

  /** `key` is an array index as JavaScript writes it: digits without a
      leading zero, or `0` itself. */
  predicate CanonicalIndex(key: string) {
    key != [] && AllIn(key, Digit) && (key[0] != '0' || |key| == 1)
  }

  /** `items[n]`: the element, or `undefined` past the end. */
  function Element(items: seq<Json>, n: nat): (r: Option<Json>)
    ensures r.Some? <==> n < |items|
    ensures r.Some? ==> r.value == items[n]
  {
    if n < |items| then Some(items[n]) else None
  }

  /** `cur[key]` on a value that is not `null`: an own key of an object, an
      index or `length` of an array or a string (a string's element is the
      one-character string). Every other property is absent. */
  function Property(cur: Json, key: string): Option<Json> {
    match cur
    case Obj(fields) => if key in fields then Some(fields[key]) else None
    case Arr(items) =>
      if CanonicalIndex(key) then Element(items, DigitsValue(key))
      else if key == "length" then Some(Num(|items| as real))
      else None
    case Str(s) =>
      if CanonicalIndex(key) && DigitsValue(key) < |s| then Some(Str([s[DigitsValue(key)]]))
      else if key == "length" then Some(Num(|s| as real))
      else None
    case _ => None
  }

  /** `Array.isArray(v) ? v[n] : undefined`. */
  function ArrayElement(v: Option<Json>, n: nat): Option<Json> {
    if v.Some? && v.value.Arr? then Element(v.value.items, n) else None
  }

  /** One iteration of the loop, on a value that is not `null`. */
  function Step(cur: Json, part: string): Option<Json> {
    match MatchSegment(part)
    case Some(seg) =>
      var v := Property(cur, seg.name);
      if seg.index.Some? then ArrayElement(v, seg.index.value) else v
    case None =>
      if part != [] && AllIn(part, Digit) then
        (if cur.Arr? then Element(cur.items, DigitsValue(part)) else None)
      else
        Property(cur, part)
  }

  /** The loop over the remaining segments: it stops with `undefined` at a
      `null` or `undefined` value that still has a segment to apply. */
  function Walk(cur: Option<Json>, parts: seq<string>): Option<Json>
    decreases |parts|
  {
    if parts == [] then cur
    else if cur.None? || cur.value.Null? then None
    else Walk(Step(cur.value, parts[0]), parts[1..])
  }

  /** `getByPath(obj, path)`. */
  function PathValue(obj: Json, path: string): Option<Json> {
    if path == [] then None else Walk(Some(obj), Split(path))
  }

  /** The loop of `getByPath`: `cur` is reassigned segment by segment and the
      method returns `undefined` as soon as it meets `null` or `undefined`. */
  method GetByPath(obj: Json, path: string) returns (r: Option<Json>)
    ensures r == PathValue(obj, path)
  {
    if path == [] {
      return None;
    }
    var parts := Split(path);
    var cur := Some(obj);
    for i := 0 to |parts|
      invariant Walk(cur, parts[i..]) == Walk(Some(obj), parts)
    {
      if cur.None? || cur.value.Null? {
        return None;
      }
      assert parts[i..][1..] == parts[i + 1..];
      cur := Step(cur.value, parts[i]);
    }
    assert parts[|parts|..] == [];
    return cur;
  }

  // ---------------------------------------------------------------------
  // What the lookup promises
  // ---------------------------------------------------------------------

  /** Walking a path in two stretches is walking it in one. */
  lemma {:induction false} WalkConcat(cur: Option<Json>, p: seq<string>, q: seq<string>)
    ensures Walk(cur, p + q) == Walk(Walk(cur, p), q)
    decreases |p|
  {
    if p == [] {
      assert p + q == q;
    } else if cur.None? || cur.value.Null? {
      assert (p + q)[0] == p[0];
    } else {
      WalkConcat(Step(cur.value, p[0]), p[1..], q);
      assert (p + q)[1..] == p[1..] + q;
    }
  }

  /** Meeting `null` or `undefined` before the last segment ends the lookup
      with `undefined`, whatever the remaining segments are. */
  lemma NullStops(obj: Json, p: seq<string>, q: seq<string>)
    requires q != []
    requires Walk(Some(obj), p) == None || Walk(Some(obj), p) == Some(Null)
    ensures Walk(Some(obj), p + q) == None
  {
    WalkConcat(Some(obj), p, q);
  }

  /** The empty path finds nothing, even on a value; a one-segment path is a
      single step, so a final `null` is returned as `null`. */
  lemma PathValueBasics(obj: Json, part: string)
    ensures PathValue(obj, "") == None
    ensures '.' !in part && part != [] ==> PathValue(obj, part) == Step(obj, part)
  {
    if '.' !in part && part != [] {
      SplitJoin([part]);
      assert Join([part]) == part;
      assert Walk(Some(obj), [part]) == Walk(Step(obj, part), []);
    }
  }

  /** A plain word segment, digits included, is a property lookup: `0` reads
      key `"0"` of an object as well as element 0 of an array. */
  lemma PlainSegmentLookup(cur: Json, w: string)
    requires w != [] && AllIn(w, Word)
    ensures Step(cur, w) == Property(cur, w)
  {
    MatchWordSegment(w);
  }

  /** `name[i]` reads property `name` and then element `i` of it when it is
      an array; anything else gives `undefined`. */
  lemma IndexedSegmentLookup(cur: Json, w: string, d: string)
    requires w != [] && AllIn(w, Word)
    requires d != [] && AllIn(d, Digit)
    ensures Step(cur, w + "[" + d + "]")
         == (match Property(cur, w)
             case Some(Arr(items)) => Element(items, DigitsValue(d))
             case _ => None)
  {
    MatchIndexedSegment(w, d);
  }

  /** The segments of the path the OpenAI-style providers read the reply
      from, `choices.0.message.content`. */
  const ReplySegments: seq<string> := ["choices", "0", "message", "content"]

  /** `'choices.0.message.content'`. */
  const ReplyPath: string := Join(ReplySegments)

  lemma ReplyPathSegments()
    ensures Split(ReplyPath) == ReplySegments
    ensures ReplyPath == "choices.0.message.content"
  {
    SplitJoin(ReplySegments);
  }

  /** Walking a plain word segment is a property lookup followed by the
      rest of the walk. */
  lemma WalkPlainSegment(cur: Json, w: string, rest: seq<string>)
    requires w != [] && AllIn(w, Word) && !cur.Null?
    ensures Walk(Some(cur), [w] + rest) == Walk(Property(cur, w), rest)
  {
    PlainSegmentLookup(cur, w);
    assert ([w] + rest)[1..] == rest;
  }

  lemma ReplySegmentsAreWords()
    ensures forall i :: 0 <= i < |ReplySegments| ==>
      ReplySegments[i] != [] && AllIn(ReplySegments[i], Word)
  {
  }

  /** The last segment reads `content` of the message. */
  lemma ReplyTailMessage(msg: map<string, Json>)
    requires "content" in msg
    ensures Walk(Some(Obj(msg)), ReplySegments[3..]) == Some(msg["content"])
  {
    var s := ReplySegments;
    ReplySegmentsAreWords();
    assert s[3..] == [s[3]] + [];
    WalkPlainSegment(Obj(msg), s[3], []);
  }

  /** The third segment reads `message` of the choice. */
  lemma ReplyTailChoice(choice: map<string, Json>, msg: map<string, Json>)
    requires "message" in choice && choice["message"] == Obj(msg)
    requires "content" in msg
    ensures Walk(Some(Obj(choice)), ReplySegments[2..]) == Some(msg["content"])
  {
    var s := ReplySegments;
    ReplySegmentsAreWords();
    assert s[2..] == [s[2]] + s[3..];
    WalkPlainSegment(Obj(choice), s[2], s[3..]);
    ReplyTailMessage(msg);
  }

  /** The segment `0` reads the first element of the `choices` array. */
  lemma ReplyTailChoices(items: seq<Json>, choice: map<string, Json>, msg: map<string, Json>)
    requires |items| >= 1 && items[0] == Obj(choice)
    requires "message" in choice && choice["message"] == Obj(msg)
    requires "content" in msg
    ensures Walk(Some(Arr(items)), ReplySegments[1..]) == Some(msg["content"])
  {
    var s := ReplySegments;
    ReplySegmentsAreWords();
    assert s[1..] == [s[1]] + s[2..];
    assert CanonicalIndex(s[1]) && DigitsValue(s[1]) == 0;
    WalkPlainSegment(Arr(items), s[1], s[2..]);
    ReplyTailChoice(choice, msg);
  }

  /** Reading the reply path is walking its four segments. */
  lemma ReplyPathWalk(response: Json)
    ensures PathValue(response, ReplyPath) == Walk(Some(response), ReplySegments)
  {
    ReplyPathSegments();
  }

  /** The first segment reads `choices` of the response. */
  lemma ReplyHead(top: map<string, Json>)
    requires "choices" in top
    ensures Walk(Some(Obj(top)), ReplySegments) == Walk(Some(top["choices"]), ReplySegments[1..])
  {
    var s := ReplySegments;
    ReplySegmentsAreWords();
    assert s == [s[0]] + s[1..];
    WalkPlainSegment(Obj(top), s[0], s[1..]);
  }

  /** On an OpenAI-style response the reply path finds the first choice's
      `message.content`, whatever its value and whatever other keys the
      response, the choice and the message carry (`id`, `usage`, `index`,
      `role`, `finish_reason`, ...). */
  lemma ReplyPathLookup(top: map<string, Json>, items: seq<Json>, choice: map<string, Json>,
                        msg: map<string, Json>)
    requires "choices" in top && top["choices"] == Arr(items)
    requires |items| >= 1 && items[0] == Obj(choice)
    requires "message" in choice && choice["message"] == Obj(msg)
    requires "content" in msg
    ensures PathValue(Obj(top), ReplyPath) == Some(msg["content"])
  {
    ReplyPathWalk(Obj(top));
    ReplyHead(top);
    ReplyTailChoices(items, choice, msg);
  }
}
