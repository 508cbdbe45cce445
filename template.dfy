/**
 * Notification templates: the worker's `readTemplate` rewrites every
 * `{name}` token (a '{', one or more characters that are neither '{' nor
 * '}', a '}') into the value stored under `name`, or into nothing when that
 * value is missing or empty. The rewrite is a single left-to-right pass, as
 * a global regular-expression replace is: text a token produced is never
 * scanned again. Reading the template file is an effect of the worker; here
 * the template text is an input.
 */
module Template {

  /** The template variables (every value the worker passes is a string). */
  type Data = map<string, string>

  /** A token's inner text: at least one character, none of them a brace. */
  predicate IsName(n: string) {
    n != [] && '{' !in n && '}' !in n
  }

  /** `data[name] || ''`: a missing key and an empty value both give "". */
  function Value(data: Data, name: string): string {
    if name in data && data[name] != "" then data[name] else ""
  }

  /** The index of the first brace of `s`, or |s| when it has none. */
  function FirstBrace(s: string): (k: nat)
    ensures k <= |s|
    ensures k < |s| ==> s[k] == '{' || s[k] == '}'
    ensures forall i :: 0 <= i < k ==> s[i] != '{' && s[i] != '}'
  {
    if s == [] || s[0] == '{' || s[0] == '}' then 0 else 1 + FirstBrace(s[1..])
  }

  /**
   * The length of the token that starts `t`, or 0 when no token starts
   * there: after the '{' the pattern takes non-brace characters up to the
   * first brace, and that brace must be a '}' with at least one character
   * before it.
   */
  function TokenAt(t: string): (len: nat)
    ensures len == 0 || (3 <= len <= |t| && t[0] == '{' && t[len - 1] == '}' && IsName(t[1..len - 1]))
  {
    if t == [] || t[0] != '{' then 0
    else
      var k := FirstBrace(t[1..]);
      if 0 < k && 1 + k < |t| && t[1 + k] == '}' then k + 2 else 0
  }

  /** `String(template).replace(/{[^{}]+}/g, key => data[key without braces] || '')`. */
  function Render(t: string, data: Data): string
    decreases |t|
  {
    if t == [] then []
    else
      var n := TokenAt(t);
      if n == 0 then [t[0]] + Render(t[1..], data)
      else Value(data, t[1..n - 1]) + Render(t[n..], data)
  }

  /** A template split into literal characters and placeholders. */
  datatype Piece = Literal(c: char) | Placeholder(name: string)

  /** The pieces of a template, in the order the pass meets them. */
  function Pieces(t: string): (ps: seq<Piece>)
    ensures forall i :: 0 <= i < |ps| && ps[i].Placeholder? ==> IsName(ps[i].name)
    decreases |t|
  {
    if t == [] then []
    else
      var n := TokenAt(t);
      if n == 0 then [Literal(t[0])] + Pieces(t[1..])
      else [Placeholder(t[1..n - 1])] + Pieces(t[n..])
  }

  /** The template text the pieces were cut from. */
  function Unparse(ps: seq<Piece>): string {
    if ps == [] then []
    else (match ps[0] case Literal(c) => [c] case Placeholder(n) => "{" + n + "}") + Unparse(ps[1..])
  }

  /** Each literal stays as it is and each placeholder becomes its value. */
  function Expand(ps: seq<Piece>, data: Data): string {
    if ps == [] then []
    else (match ps[0] case Literal(c) => [c] case Placeholder(n) => Value(data, n)) + Expand(ps[1..], data)
  }

  /** Cutting a template into pieces loses nothing: putting them back gives the template. */
  lemma {:induction false} PiecesRoundTrip(t: string)
    ensures Unparse(Pieces(t)) == t
    decreases |t|
  {
    if t != [] {
      var n := TokenAt(t);
      if n == 0 {
        var p := Literal(t[0]);
        assert Pieces(t) == [p] + Pieces(t[1..]);
        PiecesRoundTrip(t[1..]);
        UnparseCons(p, Pieces(t[1..]));
        assert [t[0]] + t[1..] == t;
      } else {
        var p := Placeholder(t[1..n - 1]);
        assert Pieces(t) == [p] + Pieces(t[n..]);
        PiecesRoundTrip(t[n..]);
        UnparseCons(p, Pieces(t[n..]));
        TokenSplit(t, n);
      }
    }
  }

  lemma TokenSplit(t: string, n: nat)
    requires 2 <= n <= |t| && t[0] == '{' && t[n - 1] == '}'
    ensures t == "{" + t[1..n - 1] + "}" + t[n..]
  {
    assert t == t[..1] + t[1..n - 1] + t[n - 1..n] + t[n..];
  }

  lemma UnparseCons(p: Piece, ps: seq<Piece>)
    ensures Unparse([p] + ps) == (match p case Literal(c) => [c] case Placeholder(n) => "{" + n + "}") + Unparse(ps)
  {
    assert ([p] + ps)[1..] == ps;
  }

  /** The rewrite replaces each placeholder by its value and copies every other character. */
  lemma {:induction false} RenderIsExpand(t: string, data: Data)
    ensures Render(t, data) == Expand(Pieces(t), data)
    decreases |t|
  {
    if t != [] {
      var n := TokenAt(t);
      if n == 0 { RenderIsExpand(t[1..], data); } else { RenderIsExpand(t[n..], data); }
    }
  }

  /** The first brace after a name is the one that follows it. */
  lemma {:induction false} FirstBraceAfterName(n: string, rest: string)
    requires '{' !in n && '}' !in n
    ensures FirstBrace(n + "}" + rest) == |n|
  {
    if n != [] {
      assert (n + "}" + rest)[1..] == n[1..] + "}" + rest;
      FirstBraceAfterName(n[1..], rest);
    }
  }

  /** A token at the front is recognised whole. */
  lemma TokenAtName(n: string, rest: string)
    requires IsName(n)
    ensures TokenAt("{" + n + "}" + rest) == |n| + 2
  {
    var t := "{" + n + "}" + rest;
    assert t[1..] == n + "}" + rest;
    FirstBraceAfterName(n, rest);
  }

  /**
   * A token becomes its value (nothing when missing or empty) and the pass
   * resumes after the token: the value itself is not scanned again.
   */
  lemma RenderToken(n: string, rest: string, data: Data)
    requires IsName(n)
    ensures Render("{" + n + "}" + rest, data) == Value(data, n) + Render(rest, data)
  {
    var t := "{" + n + "}" + rest;
    TokenAtName(n, rest);
    assert t[1..|n| + 1] == n;
    assert t[|n| + 2..] == rest;
  }

  /** "{}" is not a token: both braces are copied. */
  lemma RenderEmptyBraces(rest: string, data: Data)
    ensures Render("{}" + rest, data) == "{}" + Render(rest, data)
  {
    RenderOpenBeforeClose(rest, data);
    RenderCloseBrace(rest, data);
    BracesJoin(Render(rest, data));
  }

  lemma BracesJoin(s: string)
    ensures "{" + ("}" + s) == "{}" + s
  {
  }

  /** A '{' directly followed by '}' is copied. */
  lemma RenderOpenBeforeClose(rest: string, data: Data)
    ensures Render("{}" + rest, data) == "{" + Render("}" + rest, data)
  {
    var t := "{}" + rest;
    assert t[1..] == "}" + rest;
    assert FirstBrace(t[1..]) == 0;
  }

  /** A '}' is copied. */
  lemma RenderCloseBrace(rest: string, data: Data)
    ensures Render("}" + rest, data) == "}" + Render(rest, data)
  {
    assert ("}" + rest)[1..] == rest;
  }

  /** A '{' directly followed by another '{' is copied and the pass moves on to the second. */
  lemma RenderDoubleOpen(rest: string, data: Data)
    requires rest != [] && rest[0] == '{'
    ensures Render("{" + rest, data) == "{" + Render(rest, data)
  {
    var t := "{" + rest;
    assert t[1..] == rest;
    assert TokenAt(t) == 0;
  }

  /** Text with no '{' is returned unchanged. */
  lemma {:induction false} RenderWithoutOpen(t: string, data: Data)
    requires '{' !in t
    ensures Render(t, data) == t
    decreases |t|
  {
    if t != [] {
      RenderWithoutOpen(t[1..], data);
      assert [t[0]] + t[1..] == t;
    }
  }

  /** Text with no '}', such as an unmatched '{', is returned unchanged. */
  lemma {:induction false} RenderWithoutClose(t: string, data: Data)
    requires '}' !in t
    ensures Render(t, data) == t
    decreases |t|
  {
    if t != [] {
      assert TokenAt(t) == 0;
      RenderWithoutClose(t[1..], data);
      assert [t[0]] + t[1..] == t;
    }
  }

  /**
   * Two tokens in a row: the first becomes its value and the second, whose
   * name is missing, disappears.
   */
  lemma RenderMissingRemoved(a: string, b: string, data: Data)
    requires IsName(a) && IsName(b) && b !in data
    ensures Render("{" + a + "}{" + b + "}", data) == Value(data, a)
  {
    var t := "{" + a + "}{" + b + "}";
    var u := "{" + b + "}";
    assert t == "{" + a + "}" + u;
    RenderToken(a, u, data);
    assert u == "{" + b + "}" + "";
    RenderToken(b, "", data);
  }
}
