/** `renderTemplate` of the sequence worker: ten global replacements, in the
    order address, city, state, zip, price, arv, dom, beds, baths, sqft, of a
    `{{field}}` token by the property's column (`""` when the column is null,
    the decimal rendering for the numeric columns).

    The main result, `RenderIsSubstitution`, says that on a template made of
    plain text, known tokens and unknown `{{name}}` tokens, the chain of
    replacements is the same as substituting every known token at once and
    leaving everything else verbatim. */
module Template {
  import opened Base
  import opened Domain

  /** `s.replace(/tok/g, v)` for a literal token: leftmost, non-overlapping matches, scanned left to right. */
  function ReplaceAll(s: string, tok: string, v: string): string
    requires |tok| > 0
    decreases |s|
  {
    if |s| < |tok| then s
    else if s[..|tok|] == tok then v + ReplaceAll(s[|tok|..], tok, v)
    else [s[0]] + ReplaceAll(s[1..], tok, v)
  }

  /** The placeholder names, in the order the replacements are applied. */
  const FieldNames: seq<string> :=
    ["address", "city", "state", "zip", "price", "arv", "dom", "beds", "baths", "sqft"]

  const FieldCount: nat := 10

  function Token(name: string): string {
    "{{" + name + "}}"
  }

  /** `x?.toString() ?? ""` on a numeric column. */
  function NumberText(x: Option<int>): string {
    if x.Some? then IntToString(x.value) else ""
  }

  /** The text that replaces the k-th placeholder. */
  function FieldText(p: PropertyRow, k: nat): string
    requires k < FieldCount
  {
    if k == 0 then p.address.GetOr("")
    else if k == 1 then p.city.GetOr("")
    else if k == 2 then p.state.GetOr("")
    else if k == 3 then p.zip.GetOr("")
    else if k == 4 then NumberText(p.listPrice)
    else if k == 5 then NumberText(p.arv)
    else if k == 6 then NumberText(p.dom)
    else if k == 7 then NumberText(p.beds)
    else if k == 8 then NumberText(p.baths)
    else NumberText(p.sqft)
  }

  /** The replacements for placeholders k, k+1, ..., 9, applied in that order. */
  function ReplaceFrom(s: string, p: PropertyRow, k: nat): string
    requires k <= FieldCount
    decreases FieldCount - k
  {
    if k == FieldCount then s
    else ReplaceFrom(ReplaceAll(s, Token(FieldNames[k]), FieldText(p, k)), p, k + 1)
  }

  /** `renderTemplate(template, property)`; `(template || "")` is the identity on a string. */
  function RenderTemplate(template: string, p: PropertyRow): string {
    ReplaceFrom(template, p, 0)
  }

  // ---------------------------------------------------------------------
  // Facts about one replacement
  // ---------------------------------------------------------------------

  lemma MatchAtChar(s: string, i: int, t: string, k: int)
    requires MatchAt(s, i, t) && 0 <= k < |t|
    ensures s[i + k] == t[k]
  {
    assert s[i..i + |t|][k] == t[k];
  }

  /** Where the token does not start at the front, its first character passes through. */
  lemma ReplaceAllPassesHead(s: string, tok: string, v: string)
    requires |tok| > 0 && |tok| <= |s| && !MatchAt(s, 0, tok)
    ensures ReplaceAll(s, tok, v) == [s[0]] + ReplaceAll(s[1..], tok, v)
  {
    assert s[0..|tok|] == s[..|tok|];
  }

  /** When no occurrence of the token starts inside `x`, the replacement passes `x` through verbatim. */
  lemma {:induction false} ReplaceAllSkips(x: string, y: string, tok: string, v: string)
    requires |tok| > 0
    requires forall i :: 0 <= i < |x| ==> !MatchAt(x + y, i, tok)
    ensures ReplaceAll(x + y, tok, v) == x + ReplaceAll(y, tok, v)
  {
    if x == [] {
      assert x + y == y;
    } else if |x + y| < |tok| {
      assert ReplaceAll(y, tok, v) == y;
    } else {
      var s := x + y;
      assert !MatchAt(s, 0, tok);
      ReplaceAllPassesHead(s, tok, v);
      NoMatchInTail(x, y, tok);
      ReplaceAllSkips(x[1..], y, tok, v);
      assert x == [x[0]] + x[1..];
    }
  }

  /** Dropping the first character of `x` keeps the token from starting inside what is left of it. */
  lemma NoMatchInTail(x: string, y: string, tok: string)
    requires x != []
    requires forall i :: 0 <= i < |x| ==> !MatchAt(x + y, i, tok)
    ensures (x + y)[1..] == x[1..] + y
    ensures forall i :: 0 <= i < |x[1..]| ==> !MatchAt(x[1..] + y, i, tok)
  {
    var s := x + y;
    assert s[1..] == x[1..] + y;
    forall i | 0 <= i < |x[1..]| ensures !MatchAt(x[1..] + y, i, tok) {
      assert !MatchAt(s, i + 1, tok);
    }
  }

  /** A token at the front is replaced, and the scan resumes after it. */
  lemma ReplaceAllAtToken(tok: string, y: string, v: string)
    requires |tok| > 0
    ensures ReplaceAll(tok + y, tok, v) == v + ReplaceAll(y, tok, v)
  {
    assert (tok + y)[..|tok|] == tok;
    assert (tok + y)[|tok|..] == y;
  }

  /** A string with no occurrence of the token comes back unchanged. */
  lemma ReplaceAllAbsent(s: string, tok: string, v: string)
    requires |tok| > 0 && !Includes(s, tok)
    ensures ReplaceAll(s, tok, v) == s
  {
    forall i | 0 <= i < |s| ensures !MatchAt(s + "", i, tok) {
      assert s + "" == s;
    }
    ReplaceAllSkips(s, "", tok, v);
    assert s + "" == s;
  }

  /** A template that holds none of the ten placeholders is sent verbatim. */
  lemma {:induction false} RenderVerbatim(s: string, p: PropertyRow, k: nat)
    requires k <= FieldCount
    requires forall j :: k <= j < FieldCount ==> !Includes(s, Token(FieldNames[j]))
    ensures ReplaceFrom(s, p, k) == s
    decreases FieldCount - k
  {
    if k < FieldCount {
      ReplaceAllAbsent(s, Token(FieldNames[k]), FieldText(p, k));
      RenderVerbatim(s, p, k + 1);
    }
  }

  // ---------------------------------------------------------------------
  // Placeholders
  // ---------------------------------------------------------------------

  predicate NoOpenBrace(s: string) {
    forall i :: 0 <= i < |s| ==> s[i] != '{'
  }

  predicate BraceFree(s: string) {
    forall i :: 0 <= i < |s| ==> s[i] != '{' && s[i] != '}'
  }

  /** `{{name}}` with no brace inside the name. */
  predicate IsPlaceholder(t: string) {
    && |t| >= 4
    && t[0] == '{' && t[1] == '{' && t[|t| - 2] == '}' && t[|t| - 1] == '}'
    && forall i :: 2 <= i < |t| - 2 ==> t[i] != '{' && t[i] != '}'
  }

  lemma TokenIsPlaceholder(name: string)
    requires BraceFree(name)
    ensures IsPlaceholder(Token(name))
  {
    var t := Token(name);
    forall i | 2 <= i < |t| - 2 ensures t[i] != '{' && t[i] != '}' {
      assert t[i] == name[i - 2];
    }
  }

  lemma TokenInjective(a: string, b: string)
    requires Token(a) == Token(b)
    ensures a == b
  {
    assert a == Token(a)[2..|Token(a)| - 2];
    assert b == Token(b)[2..|Token(b)| - 2];
  }

  lemma FieldNamesBraceFree(k: nat)
    requires k < FieldCount
    ensures BraceFree(FieldNames[k])
  {
    var n := FieldNames[k];
    forall i | 0 <= i < |n| ensures n[i] != '{' && n[i] != '}' {
      assert 'a' <= n[i] <= 'z';
    }
  }

  lemma FieldNamesDistinct(j: nat, k: nat)
    requires j < FieldCount && k < FieldCount && j != k
    ensures FieldNames[j] != FieldNames[k]
  {
  }

  /** No occurrence of a token starts in a string without `{`. */
  lemma NoMatchInPlainText(x: string, y: string, tok: string)
    requires |tok| > 0 && tok[0] == '{' && NoOpenBrace(x)
    ensures forall i :: 0 <= i < |x| ==> !MatchAt(x + y, i, tok)
  {
    forall i | 0 <= i < |x| ensures !MatchAt(x + y, i, tok) {
      if MatchAt(x + y, i, tok) {
        MatchAtChar(x + y, i, tok, 0);
      }
    }
  }

  /** No occurrence of one placeholder starts inside a different placeholder. */
  lemma NoMatchInOtherPlaceholder(a: string, y: string, b: string)
    requires IsPlaceholder(a) && IsPlaceholder(b) && a != b
    ensures forall i :: 0 <= i < |a| ==> !MatchAt(a + y, i, b)
  {
    var s := a + y;
    forall i | 0 <= i < |a| ensures !MatchAt(s, i, b) {
      if MatchAt(s, i, b) {
        MatchAtChar(s, i, b, 0);
        MatchAtChar(s, i, b, 1);
        if i == 0 {
          if |b| <= |a| {
            MatchAtChar(s, 0, b, |b| - 1);
            MatchAtChar(s, 0, b, |b| - 2);
          } else {
            MatchAtChar(s, 0, b, |a| - 1);
            MatchAtChar(s, 0, b, |a| - 2);
          }
        }
      }
    }
  }

  // ---------------------------------------------------------------------
  // The template as segments
  // ---------------------------------------------------------------------

  /** A template read as plain text, known placeholders (by index) and other `{{name}}` tokens. */
  datatype Segment = Text(text: string) | Field(k: nat) | Unknown(name: string)

  predicate WellFormedSegment(g: Segment) {
    match g
    case Text(t) => NoOpenBrace(t)
    case Field(k) => k < FieldCount
    case Unknown(n) => BraceFree(n) && n !in FieldNames
  }

  predicate WellFormed(segs: seq<Segment>) {
    forall i :: 0 <= i < |segs| ==> WellFormedSegment(segs[i])
  }

  /** The text of the segments once the placeholders below `done` have been replaced. */
  function Flatten(segs: seq<Segment>, p: PropertyRow, done: nat): string
    requires WellFormed(segs)
  {
    if segs == [] then ""
    else
      var head := match segs[0]
        case Text(t) => t
        case Field(k) => if k < done then FieldText(p, k) else Token(FieldNames[k])
        case Unknown(n) => Token(n);
      head + Flatten(segs[1..], p, done)
  }

  /** The values of the string columns hold no `{` (the numeric ones never do). */
  predicate PlainValues(p: PropertyRow) {
    forall k :: 0 <= k < FieldCount ==> NoOpenBrace(FieldText(p, k))
  }

  lemma NumberTextPlain(x: Option<int>)
    ensures NoOpenBrace(NumberText(x))
  {
    if x.Some? {
      var n := x.value;
      var d := NatToString(if n < 0 then -n else n);
      assert forall i :: 0 <= i < |d| ==> IsDigit(d[i]);
    }
  }

  lemma PlainValuesFromColumns(p: PropertyRow)
    requires NoOpenBrace(p.address.GetOr("")) && NoOpenBrace(p.city.GetOr(""))
    requires NoOpenBrace(p.state.GetOr("")) && NoOpenBrace(p.zip.GetOr(""))
    ensures PlainValues(p)
  {
    NumberTextPlain(p.listPrice);
    NumberTextPlain(p.arv);
    NumberTextPlain(p.dom);
    NumberTextPlain(p.beds);
    NumberTextPlain(p.baths);
    NumberTextPlain(p.sqft);
  }

  /** One replacement step turns placeholder `j` into its value and touches nothing else. */
  lemma {:induction false} ReplaceStep(segs: seq<Segment>, p: PropertyRow, j: nat)
    requires WellFormed(segs) && PlainValues(p) && j < FieldCount
    ensures ReplaceAll(Flatten(segs, p, j), Token(FieldNames[j]), FieldText(p, j)) == Flatten(segs, p, j + 1)
  {
    if segs != [] {
      var tok := Token(FieldNames[j]);
      var v := FieldText(p, j);
      FieldNamesBraceFree(j);
      TokenIsPlaceholder(FieldNames[j]);
      var rest := Flatten(segs[1..], p, j);
      assert WellFormed(segs[1..]) by {
        forall i | 0 <= i < |segs[1..]| ensures WellFormedSegment(segs[1..][i]) {
          assert segs[1..][i] == segs[i + 1];
        }
      }
      ReplaceStep(segs[1..], p, j);
      assert WellFormedSegment(segs[0]);
      match segs[0]
      case Text(t) =>
        NoMatchInPlainText(t, rest, tok);
        ReplaceAllSkips(t, rest, tok, v);
      case Field(k) =>
        if k < j {
          NoMatchInPlainText(FieldText(p, k), rest, tok);
          ReplaceAllSkips(FieldText(p, k), rest, tok, v);
        } else if k == j {
          ReplaceAllAtToken(tok, rest, v);
        } else {
          FieldNamesBraceFree(k);
          TokenIsPlaceholder(FieldNames[k]);
          FieldNamesDistinct(j, k);
          if Token(FieldNames[k]) == tok {
            TokenInjective(FieldNames[k], FieldNames[j]);
          }
          NoMatchInOtherPlaceholder(Token(FieldNames[k]), rest, tok);
          ReplaceAllSkips(Token(FieldNames[k]), rest, tok, v);
        }
      case Unknown(n) =>
        TokenIsPlaceholder(n);
        if Token(n) == tok {
          TokenInjective(n, FieldNames[j]);
        }
        NoMatchInOtherPlaceholder(Token(n), rest, tok);
        ReplaceAllSkips(Token(n), rest, tok, v);
    }
  }

  lemma {:induction false} ReplaceFromFlatten(segs: seq<Segment>, p: PropertyRow, j: nat)
    requires WellFormed(segs) && PlainValues(p) && j <= FieldCount
    ensures ReplaceFrom(Flatten(segs, p, j), p, j) == Flatten(segs, p, FieldCount)
    decreases FieldCount - j
  {
    if j < FieldCount {
      ReplaceStep(segs, p, j);
      ReplaceFromFlatten(segs, p, j + 1);
    }
  }

  /** Rendering substitutes every known placeholder by its column's text (`""` for a null column) and
      leaves plain text and unknown `{{name}}` tokens verbatim, as one simultaneous substitution would,
      whenever neither the text nor the values contain `{`. */
  lemma RenderIsSubstitution(segs: seq<Segment>, p: PropertyRow)
    requires WellFormed(segs) && PlainValues(p)
    ensures RenderTemplate(Flatten(segs, p, 0), p) == Flatten(segs, p, FieldCount)
  {
    ReplaceFromFlatten(segs, p, 0);
  }

  /** The chain is not one simultaneous substitution: a placeholder's value is itself run through
      every later replacement. */
  lemma ValueReplacedAgain(p: PropertyRow, k: nat)
    requires k < FieldCount
    ensures ReplaceFrom(Token(FieldNames[k]), p, k) == ReplaceFrom(FieldText(p, k), p, k + 1)
  {
    var tok, v := Token(FieldNames[k]), FieldText(p, k);
    ReplaceAllAtToken(tok, "", v);
    assert tok + "" == tok && v + "" == v;
  }

  /** From the city's replacement on, `{{city}}` becomes the city. */
  lemma CityTokenRendered(p: PropertyRow)
    requires p.city == Some("Austin")
    ensures ReplaceFrom("{{city}}", p, 1) == "Austin"
  {
    ValueReplacedAgain(p, 1);
    assert Token(FieldNames[1]) == "{{city}}" && FieldText(p, 1) == "Austin";
    forall j | 2 <= j < FieldCount ensures !Includes("Austin", Token(FieldNames[j])) {
      NoMatchInPlainText("Austin", "", Token(FieldNames[j]));
      assert "Austin" + "" == "Austin";
    }
    RenderVerbatim("Austin", p, 2);
  }

  /** An address holding `{{city}}` is sent with the city in its place. */
  lemma AddressHoldingCityToken(p: PropertyRow)
    requires p.address == Some("{{city}}") && p.city == Some("Austin")
    ensures RenderTemplate("{{address}}", p) == "Austin"
  {
    ValueReplacedAgain(p, 0);
    assert Token(FieldNames[0]) == "{{address}}" && FieldText(p, 0) == "{{city}}";
    CityTokenRendered(p);
  }

  /** A null column renders as the empty string. */
  lemma NullFieldIsEmpty(p: PropertyRow, k: nat)
    requires k < FieldCount
    requires k == 0 ==> p.address.None?
    requires k == 1 ==> p.city.None?
    requires k == 2 ==> p.state.None?
    requires k == 3 ==> p.zip.None?
    requires k == 4 ==> p.listPrice.None?
    requires k == 5 ==> p.arv.None?
    requires k == 6 ==> p.dom.None?
    requires k == 7 ==> p.beds.None?
    requires k == 8 ==> p.baths.None?
    requires k == 9 ==> p.sqft.None?
    ensures FieldText(p, k) == ""
  {
  }

  /** The text of a two-segment template. */
  lemma FlattenPair(a: Segment, b: Segment, p: PropertyRow, done: nat)
    requires WellFormedSegment(a) && WellFormedSegment(b)
    ensures WellFormed([a]) && WellFormed([b]) && WellFormed([a, b])
    ensures Flatten([a, b], p, done) == Flatten([a], p, done) + Flatten([b], p, done)
  {
    assert [a, b][1..] == [b];
    assert [b][1..] == [a][1..] == [];
  }

  const HelloCity: seq<Segment> := [Text("Hello "), Field(1)]

  /** The segments of "Hello {{city}}" are well formed. */
  lemma HelloCityWellFormed()
    ensures WellFormed(HelloCity)
  {
    assert NoOpenBrace("Hello ");
  }

  /** The segments of "Hello {{city}}" spell the template before any replacement. */
  lemma HelloCityTemplate(p: PropertyRow)
    ensures WellFormed(HelloCity) && Flatten(HelloCity, p, 0) == "Hello {{city}}"
  {
    HelloCityWellFormed();
    FlattenPair(Text("Hello "), Field(1), p, 0);
    assert [Field(1)][1..] == [Text("Hello ")][1..] == [];
  }

  /** With every placeholder replaced, the segments spell "Hello " and the city. */
  lemma HelloCityRendered(p: PropertyRow)
    requires p.city == Some("Austin")
    ensures WellFormed(HelloCity) && Flatten(HelloCity, p, FieldCount) == "Hello Austin"
  {
    HelloCityWellFormed();
    FlattenPair(Text("Hello "), Field(1), p, FieldCount);
    assert [Field(1)][1..] == [Text("Hello ")][1..] == [];
  }

  /** "Hello {{city}}" for a property in Austin whose other string columns are null renders as
      "Hello Austin". */
  lemma RenderHelloCity(p: PropertyRow)
    requires p.city == Some("Austin")
    requires p.address.None? && p.state.None? && p.zip.None?
    ensures RenderTemplate("Hello {{city}}", p) == "Hello Austin"
  {
    HelloCityTemplate(p);
    HelloCityRendered(p);
    PlainValuesFromColumns(p);
    RenderIsSubstitution(HelloCity, p);
  }
}
