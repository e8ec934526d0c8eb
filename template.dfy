/** `substituteTemplate` (src/lib/providers.js): one global, left-to-right
    `String.prototype.replace` with the pattern `\{\{\s*(\w+)\s*\}\}` and a
    replacer function, so replacement values are inserted literally. */
module Template {
  import opened Text
  import opened Optional

  /** A placeholder match: the captured name and the number of characters the
      whole match `{{ name }}` covers. */
  datatype Placeholder = Placeholder(name: string, length: nat)

  /** `s` holds `{{` at position `i`. */
  predicate OpensAt(s: string, i: int) {
    0 <= i && i + 1 < |s| && s[i] == '{' && s[i + 1] == '{'
  }

  /** The match of `\{\{\s*(\w+)\s*\}\}` that starts at position `i` of `t`, if
      there is one. The character classes involved are disjoint, so the
      greedy runs never need to give characters back. */
  function PlaceholderAt(t: string, i: nat): (m: Option<Placeholder>)
    ensures m.Some? ==> 5 <= m.value.length && i + m.value.length <= |t|
  {
    if OpensAt(t, i) then NameAt(t, i, i + 2 + RunFrom(t, i + 2, Space)) else None
  }

  /** The rest of the match once `{{` and the spaces after it are consumed:
      the name starts at `a`. */
  function NameAt(t: string, i: nat, a: nat): (m: Option<Placeholder>)
    requires i + 2 <= a
    ensures m.Some? ==> 5 <= m.value.length && i + m.value.length <= |t|
  {
    var n := RunFrom(t, a, Word);
    if n > 0 then CloseAt(t, i, a, n, a + n + RunFrom(t, a + n, Space)) else None
  }

  /** The closing `}}` expected at `c`, after the name `t[a..a + n]` and the
      spaces after it. */
  function CloseAt(t: string, i: nat, a: nat, n: nat, c: nat): (m: Option<Placeholder>)
    requires i + 2 <= a && 0 < n && a + n <= c
    ensures m.Some? ==> 5 <= m.value.length && i + m.value.length <= |t|
  {
    if c + 1 < |t| && t[c] == '}' && t[c + 1] == '}' then
      Some(Placeholder(t[a..a + n], c + 2 - i))
    else
      None
  }

  /** The replacer: an own key of `variables` gives its value, any other
      name the empty string. */
  function VariableValue(variables: map<string, string>, name: string): string {
    if name in variables then variables[name] else ""
  }

  /** `substituteTemplate(template, variables)`: scanning left to right, at
      a placeholder emit its variable's value and resume after the match,
      else copy one character. The emitted value is never scanned again. */
  function Substitute(template: string, variables: map<string, string>): string
    decreases |template|
  {
    if template == [] then []
    else
      match PlaceholderAt(template, 0)
      case Some(p) => VariableValue(variables, p.name) + Substitute(template[p.length..], variables)
      case None => [template[0]] + Substitute(template[1..], variables)
  }

  /** Literal text containing no `{{` and not ending in `{`: no match can
      start inside it, whatever follows it. */
  predicate InertText(s: string) {
    && (forall i :: 0 <= i < |s| ==> !OpensAt(s, i))
    && (s == [] || s[|s| - 1] != '{')
  }

  /** The first character of inert text never starts a match, and what
      remains of it is inert again. */
  lemma InertFirstStep(a: string, b: string)
    requires InertText(a) && a != []
    ensures PlaceholderAt(a + b, 0).None?
    ensures (a + b)[0] == a[0] && (a + b)[1..] == a[1..] + b
    ensures InertText(a[1..])
  {
    var t := a + b;
    assert t[0] == a[0];
    if 1 < |a| {
      assert t[1] == a[1] && !OpensAt(a, 0);
    }
    assert t[1..] == a[1..] + b;
    assert forall i :: 0 <= i < |a[1..]| ==> (OpensAt(a[1..], i) ==> OpensAt(a, i + 1));
  }

  /** Inert literal text is copied unchanged whatever follows it. */
  lemma {:induction false} SubstituteInertPrefix(a: string, b: string, variables: map<string, string>)
    requires InertText(a)
    ensures Substitute(a + b, variables) == a + Substitute(b, variables)
    decreases |a|
  {
    if a == [] {
      assert a + b == b;
    } else {
      var t := a + b;
      InertFirstStep(a, b);
      SubstituteInertPrefix(a[1..], b, variables);
      var s := Substitute(b, variables);
      assert Substitute(t, variables) == [a[0]] + (a[1..] + s);
      ConcatRegroup(a[0], a[1..], s);
      assert a == [a[0]] + a[1..];
    }
  }

  /** A template in which the pattern matches nowhere is returned unchanged,
      including those whose `{{` never completes a placeholder (`{{}}`,
      `{{ a-b }}`, `{{ a }`). */
  lemma {:induction false} SubstituteNoMatch(t: string, variables: map<string, string>)
    requires forall i :: 0 <= i <= |t| ==> PlaceholderAt(t[i..], 0).None?
    ensures Substitute(t, variables) == t
    decreases |t|
  {
    if t != [] {
      assert t[0..] == t;
      forall i | 0 <= i <= |t[1..]|
        ensures PlaceholderAt(t[1..][i..], 0).None?
      {
        assert t[1..][i..] == t[i + 1..];
      }
      SubstituteNoMatch(t[1..], variables);
      assert t == [t[0]] + t[1..];
    }
  }

  /** Text at whose positions no match starts, even with what follows it in
      view, is copied unchanged in front of whatever the rest substitutes to
      (`{{}} {{model}}`, `{{{model}}}`). */
  lemma {:induction false} SubstituteNoMatchPrefix(a: string, b: string, variables: map<string, string>)
    requires forall i :: 0 <= i < |a| ==> PlaceholderAt((a + b)[i..], 0).None?
    ensures Substitute(a + b, variables) == a + Substitute(b, variables)
    decreases |a|
  {
    if a == [] {
      assert a + b == b;
    } else {
      var t := a + b;
      assert t[0..] == t;
      assert t[1..] == a[1..] + b;
      forall i | 0 <= i < |a[1..]|
        ensures PlaceholderAt((a[1..] + b)[i..], 0).None?
      {
        assert (a[1..] + b)[i..] == t[i + 1..];
      }
      SubstituteNoMatchPrefix(a[1..], b, variables);
      var s := Substitute(b, variables);
      assert Substitute(t, variables) == [a[0]] + (a[1..] + s);
      ConcatRegroup(a[0], a[1..], s);
      assert a == [a[0]] + a[1..];
    }
  }

  /** Literal text containing no `{{` and not ending in `{` is returned
      unchanged. */
  lemma SubstituteInert(t: string, variables: map<string, string>)
    requires InertText(t)
    ensures Substitute(t, variables) == t
  {
    SubstituteInertPrefix(t, [], variables);
    assert t + [] == t;
  }

  /** The text of a placeholder with its inner padding. */
  function PlaceholderText(before: string, name: string, after: string): string {
    "{{" + before + name + after + "}}"
  }

  /** Where the parts of a placeholder text sit in it. */
  lemma PlaceholderTextLayout(before: string, name: string, after: string, rest: string)
    ensures var t := PlaceholderText(before, name, after) + rest;
      var a := 2 + |before|;
      var c := a + |name|;
      var e := c + |after|;
      && e + 2 <= |t|
      && t[0] == '{' && t[1] == '{' && t[e] == '}' && t[e + 1] == '}'
      && t[2..a] == before && t[a..c] == name && t[c..e] == after
  {
  }

  /** The pattern over text laid out as `{{`, spaces, a name, spaces and `}}`. */
  lemma PlaceholderAtLayout(t: string, before: string, name: string, after: string)
    requires AllIn(before, Space) && AllIn(after, Space)
    requires name != [] && AllIn(name, Word)
    requires 2 + |before| + |name| + |after| + 2 <= |t|
    requires t[0] == '{' && t[1] == '{'
    requires t[2..2 + |before|] == before
    requires t[2 + |before|..2 + |before| + |name|] == name
    requires t[2 + |before| + |name|..2 + |before| + |name| + |after|] == after
    requires t[2 + |before| + |name| + |after|] == '}'
    requires t[2 + |before| + |name| + |after| + 1] == '}'
    ensures PlaceholderAt(t, 0) == Some(Placeholder(name, |before| + |name| + |after| + 4))
  {
    var a := 2 + |before|;
    var c := a + |name|;
    var e := c + |after|;
    assert t[a] == name[0] && t[c] == (if after == [] then '}' else after[0]);
    SpaceNotWord(name[0]);
    RunOver(t, 2, before, Space);
    if after != [] {
      SpaceNotWord(after[0]);
    }
    RunOver(t, a, name, Word);
    RunOver(t, c, after, Space);
    assert CloseAt(t, 0, a, |name|, e) == Some(Placeholder(name, e + 2));
  }

  /** The pattern matches a placeholder text at the front of any string,
      capturing exactly its name. */
  lemma PlaceholderAtText(before: string, name: string, after: string, rest: string)
    requires AllIn(before, Space) && AllIn(after, Space)
    requires name != [] && AllIn(name, Word)
    ensures PlaceholderAt(PlaceholderText(before, name, after) + rest, 0)
         == Some(Placeholder(name, |before| + |name| + |after| + 4))
  {
    PlaceholderTextLayout(before, name, after, rest);
    PlaceholderAtLayout(PlaceholderText(before, name, after) + rest, before, name, after);
  }

  /** Text that opens with `{{` and has `}}` at `e` is placeholder text
      around its three inner stretches. */
  lemma PlaceholderTextSplit(t: string, a: nat, c: nat, e: nat)
    requires 2 <= a <= c <= e && e + 2 <= |t|
    requires t[0] == '{' && t[1] == '{' && t[e] == '}' && t[e + 1] == '}'
    ensures t[..e + 2] == PlaceholderText(t[2..a], t[a..c], t[c..e])
  {
    assert t[..2] == "{{" && t[e..e + 2] == "}}";
    assert t[..e + 2] == t[..2] + t[2..a] + t[a..c] + t[c..e] + t[e..e + 2];
  }

  /** Where a match at the front of `t` ends its runs: spaces from 2 to `a`,
      the name from `a` to `c`, spaces from `c` to `e`, then `}}`. */
  lemma PlaceholderAtRuns(t: string, a: nat, c: nat, e: nat)
    requires PlaceholderAt(t, 0).Some?
    requires a == 2 + RunFrom(t, 2, Space)
    requires c == a + RunFrom(t, a, Word)
    requires e == c + RunFrom(t, c, Space)
    ensures 2 <= a < c <= e && e + 2 <= |t|
    ensures PlaceholderAt(t, 0) == Some(Placeholder(t[a..c], e + 2))
    ensures t[0] == '{' && t[1] == '{' && t[e] == '}' && t[e + 1] == '}'
  {
    assert OpensAt(t, 0);
    assert PlaceholderAt(t, 0) == NameAt(t, 0, a);
    assert c > a;
    assert NameAt(t, 0, a) == CloseAt(t, 0, a, c - a, e);
  }

  /** The three runs, read as slices, are in their classes. */
  lemma PaddedNameRuns(t: string, a: nat, c: nat, e: nat)
    requires 2 <= a <= c <= e <= |t|
    requires a == 2 + RunFrom(t, 2, Space)
    requires c == a + RunFrom(t, a, Word)
    requires e == c + RunFrom(t, c, Space)
    ensures AllIn(t[2..a], Space) && AllIn(t[a..c], Word) && AllIn(t[c..e], Space)
  {
    RunSlice(t, 2, Space);
    RunSlice(t, a, Word);
    RunSlice(t, c, Space);
  }

  /** Conversely, every match at the front of a text is placeholder text:
      `{{`, a run of `\s`, a non-empty run of `\w` that is the captured name,
      a run of `\s` and `}}`. */
  lemma PlaceholderAtShape(t: string)
    requires PlaceholderAt(t, 0).Some?
    ensures var m := PlaceholderAt(t, 0).value;
      exists before, after ::
        && AllIn(before, Space) && AllIn(after, Space)
        && m.name != [] && AllIn(m.name, Word)
        && m.length == |before| + |m.name| + |after| + 4 <= |t|
        && t[..m.length] == PlaceholderText(before, m.name, after)
  {
    var a := 2 + RunFrom(t, 2, Space);
    var c := a + RunFrom(t, a, Word);
    var e := c + RunFrom(t, c, Space);
    PlaceholderAtRuns(t, a, c, e);
    PaddedNameRuns(t, a, c, e);
    PlaceholderTextSplit(t, a, c, e);
    var before, after := t[2..a], t[c..e];
    assert |before| == a - 2 && |after| == e - c;
  }

  /** A placeholder at the front is replaced by its variable's value (the
      empty string for an unknown name) and scanning resumes right after the
      closing braces: the inserted value is not re-scanned. */
  lemma SubstitutePlaceholder(before: string, name: string, after: string, rest: string,
                              variables: map<string, string>)
    requires AllIn(before, Space) && AllIn(after, Space)
    requires name != [] && AllIn(name, Word)
    ensures Substitute(PlaceholderText(before, name, after) + rest, variables)
         == VariableValue(variables, name) + Substitute(rest, variables)
  {
    PlaceholderAtText(before, name, after, rest);
    var x := PlaceholderText(before, name, after);
    assert (x + rest)[|x|..] == rest;
  }

  /** A template viewed as literal text and placeholders. */
  datatype Piece =
    | Literal(text: string)
    | Variable(before: string, name: string, after: string)

  predicate WellFormedPiece(p: Piece) {
    match p
    case Literal(text) => InertText(text)
    case Variable(before, name, after) =>
      AllIn(before, Space) && name != [] && AllIn(name, Word) && AllIn(after, Space)
  }

  function PieceText(p: Piece): string {
    match p
    case Literal(text) => text
    case Variable(before, name, after) => PlaceholderText(before, name, after)
  }

  /** The template text the pieces spell out. */
  function Render(pieces: seq<Piece>): string {
    if pieces == [] then [] else PieceText(pieces[0]) + Render(pieces[1..])
  }

  /** The intended result: literal text kept, each placeholder replaced by
      its variable's value. */
  function Fill(pieces: seq<Piece>, variables: map<string, string>): string {
    if pieces == [] then []
    else
      (match pieces[0]
       case Literal(text) => text
       case Variable(_, name, _) => VariableValue(variables, name))
      + Fill(pieces[1..], variables)
  }

  /** Substitution over a template made of literal text and placeholders
      yields the literal text unchanged with each placeholder filled in. */
  lemma {:induction false} SubstituteRendered(pieces: seq<Piece>, variables: map<string, string>)
    requires forall i :: 0 <= i < |pieces| ==> WellFormedPiece(pieces[i])
    ensures Substitute(Render(pieces), variables) == Fill(pieces, variables)
  {
    if pieces != [] {
      SubstituteRendered(pieces[1..], variables);
      match pieces[0]
      case Literal(text) =>
        SubstituteInertPrefix(text, Render(pieces[1..]), variables);
      case Variable(before, name, after) =>
        SubstitutePlaceholder(before, name, after, Render(pieces[1..]), variables);
    }
  }

  /** The body template the generic protocol uses when none is configured,
      as literal text and one placeholder. */
  const DefaultBodyPieces: seq<Piece> :=
    [Literal("{\"messages\":"), Variable("", "messages_json", ""), Literal("}")]

  /** The body template the generic protocol uses when none is configured. */
  const DefaultBodyTemplate: string := Render(DefaultBodyPieces)

  lemma DefaultBodyTemplateText()
    ensures DefaultBodyTemplate == "{\"messages\":{{messages_json}}}"
  {
  }

  /** A placeholder between two literal pieces is filled in place. */
  lemma FillAroundVariable(left: string, before: string, name: string, after: string, right: string,
                           variables: map<string, string>)
    ensures Fill([Literal(left), Variable(before, name, after), Literal(right)], variables)
         == left + VariableValue(variables, name) + right
  {
    var pieces := [Literal(left), Variable(before, name, after), Literal(right)];
    assert Fill(pieces[2..], variables) == right;
    assert Fill(pieces[1..], variables) == VariableValue(variables, name) + right;
  }

  /** With the default template the body is the serialized conversation
      wrapped as `{"messages":...}`, whatever text the value contains. */
  lemma DefaultBodyFilled(variables: map<string, string>)
    ensures Substitute(DefaultBodyTemplate, variables)
         == "{\"messages\":" + VariableValue(variables, "messages_json") + "}"
  {
    SubstituteRendered(DefaultBodyPieces, variables);
    FillAroundVariable("{\"messages\":", "", "messages_json", "", "}", variables);
  }
}
