/** The rewrite of named placeholders into positional ones that the query generator applies
    to a statement's text (`hartex-database-typedsql`, `src/codegen/queries.rs`): for the
    i-th placeholder name (counting from 0), every `:name` becomes `$(i+1)`, one name after
    the other. */
module CodegenRewrite {
  import opened Strings

  /** `format!(":{placeholder}")`. */
  function Pattern(name: string): string {
    ":" + name
  }

  /** `format!("${}", k)`. */
  function Position(k: nat): (r: string)
    ensures ':' !in r && |r| > 0 && r[0] == '$'
  {
    "$" + NatToString(k)
  }

  /** The text after the first `k` names have been replaced. */
  function RewriteUpTo(raw: string, names: seq<string>, k: nat): string
    requires k <= |names|
  {
    if k == 0 then raw
    else ReplaceAll(RewriteUpTo(raw, names, k - 1), Pattern(names[k - 1]), Position(k))
  }

  /** The rewrite loop: `rawstr = rawstr.replace(":{placeholder}", "${i + 1}")` for every
      placeholder in order. */
  method RewritePlaceholders(raw: string, names: seq<string>) returns (rawstr: string)
    ensures rawstr == RewriteUpTo(raw, names, |names|)
  {
    rawstr := raw;
    var i := 0;
    while i < |names|
      invariant 0 <= i <= |names|
      invariant rawstr == RewriteUpTo(raw, names, i)
    {
      rawstr := ReplaceAll(rawstr, Pattern(names[i]), Position(i + 1));
      i := i + 1;
    }
  }

  // ---------------------------------------------------------------------------------------
  // What the rewrite achieves

  /** The characters a placeholder name is made of. */
  predicate IsNameChar(c: char) {
    'a' <= c <= 'z' || 'A' <= c <= 'Z' || '0' <= c <= '9' || c == '_'
  }

  predicate IsName(s: string) {
    |s| > 0 && forall i :: 0 <= i < |s| ==> IsNameChar(s[i])
  }

  predicate IsPrefix(a: string, b: string) {
    |a| <= |b| && b[..|a|] == a
  }

  /** No placeholder name is a prefix of another. */
  predicate PrefixFree(names: seq<string>) {
    forall a, b :: 0 <= a < |names| && 0 <= b < |names| && a != b ==> !IsPrefix(names[a], names[b])
  }

  predicate AllNames(names: seq<string>) {
    forall i :: 0 <= i < |names| ==> IsName(names[i])
  }

  /** A statement text as a template: literal text and occurrences of placeholders, each
      given by its position in the placeholder list. */
  datatype Piece = Text(text: string) | Param(index: nat)

  /** A piece may follow a placeholder: it does not continue the placeholder's name. */
  predicate Separates(p: Piece) {
    p.Param? || (p.text != [] && !IsNameChar(p.text[0]))
  }

  /** The literal text holds no `:`, every placeholder is in the list, and whatever follows
      a placeholder ends its name, as the SQL tokenizer requires. */
  predicate WellFormedTemplate(ps: seq<Piece>, names: seq<string>) {
    (forall i :: 0 <= i < |ps| && ps[i].Text? ==> ':' !in ps[i].text)
    && (forall i :: 0 <= i < |ps| && ps[i].Param? ==> ps[i].index < |names|)
    && (forall i :: 0 <= i < |ps| - 1 && ps[i].Param? ==> Separates(ps[i + 1]))
  }

  predicate InRange(ps: seq<Piece>, names: seq<string>) {
    forall i :: 0 <= i < |ps| && ps[i].Param? ==> ps[i].index < |names|
  }

  /** The template with the first `k` names in positional form and the others in named
      form. */
  function Render(ps: seq<Piece>, names: seq<string>, k: nat): string
    requires InRange(ps, names)
  {
    if ps == [] then []
    else
      (match ps[0]
       case Text(t) => t
       case Param(j) => if j < k then Position(j + 1) else Pattern(names[j]))
      + Render(ps[1..], names, k)
  }

  /** Reference definition of the intended result: every placeholder in positional form. */
  function Positional(ps: seq<Piece>): string {
    if ps == [] then []
    else
      (match ps[0] case Text(t) => t case Param(j) => Position(j + 1))
      + Positional(ps[1..])
  }

  lemma WellFormedTail(ps: seq<Piece>, names: seq<string>)
    requires ps != [] && WellFormedTemplate(ps, names)
    ensures WellFormedTemplate(ps[1..], names)
  {
    forall i | 0 <= i < |ps[1..]| - 1 && ps[1..][i].Param? ensures Separates(ps[1..][i + 1]) {
      assert ps[1..][i] == ps[i + 1] && ps[1..][i + 1] == ps[i + 2];
    }
  }

  /** A rendering that starts with a separating piece does not start with a name
      character. */
  lemma RenderStartsSeparated(ps: seq<Piece>, names: seq<string>, k: nat)
    requires ps != [] && InRange(ps, names) && Separates(ps[0])
    ensures Render(ps, names, k) != [] && !IsNameChar(Render(ps, names, k)[0])
  {
    if ps[0].Param? {
      var j := ps[0].index;
      if j >= k {
        assert Pattern(names[j])[0] == ':';
      }
    }
  }

  /** `:y` does not occur at the start of `:x` followed by a non-name character when `y`
      is not a prefix of `x`. */
  lemma OtherPlaceholderMismatch(x: string, y: string, rest: string)
    requires IsName(x) && IsName(y) && !IsPrefix(y, x)
    requires rest == [] || !IsNameChar(rest[0])
    requires |Pattern(x) + rest| >= |Pattern(y)|
    ensures (Pattern(x) + rest)[..|Pattern(y)|] != Pattern(y)
  {
    var s := Pattern(x) + rest;
    var pat := Pattern(y);
    if |y| <= |x| {
      assert s[1..|pat|] == x[..|y|];
      assert s[..|pat|][1..] == s[1..|pat|] && pat[1..] == y;
    } else {
      assert s[1 + |x|] == rest[0];
      assert pat[1 + |x|] == y[|x|];
      assert s[..|pat|][1 + |x|] == s[1 + |x|];
    }
  }

  /** An occurrence of another placeholder is not touched by the replacement of `:y`
      when neither name is a prefix of the other, and the scan resumes after it. */
  lemma OtherPlaceholderKept(x: string, y: string, rest: string, rep: string)
    requires IsName(x) && IsName(y) && !IsPrefix(y, x)
    requires rest == [] || !IsNameChar(rest[0])
    ensures ReplaceAll(Pattern(x) + rest, Pattern(y), rep) == Pattern(x) + ReplaceAll(rest, Pattern(y), rep)
  {
    var s := Pattern(x) + rest;
    var pat := Pattern(y);
    if |s| < |pat| {
      assert |rest| < |pat|;
    } else {
      OtherPlaceholderMismatch(x, y, rest);
      assert ReplaceAll(s, pat, rep) == [s[0]] + ReplaceAll(s[1..], pat, rep);
      assert s[0] == ':' && s[1..] == x + rest;
      assert ':' !in x by {
        assert forall i :: 0 <= i < |x| ==> IsNameChar(x[i]);
      }
      ReplaceSkipsFree(x, rest, pat, rep);
      assert Pattern(x) + ReplaceAll(rest, pat, rep) == [':'] + (x + ReplaceAll(rest, pat, rep));
    }
  }

  /** Replacing the k-th name turns exactly its occurrences into `$(k+1)`. */
  lemma {:induction false} RewriteStep(ps: seq<Piece>, names: seq<string>, k: nat)
    requires AllNames(names) && PrefixFree(names) && WellFormedTemplate(ps, names)
    requires k < |names|
    ensures ReplaceAll(Render(ps, names, k), Pattern(names[k]), Position(k + 1)) == Render(ps, names, k + 1)
    decreases |ps|
  {
    if ps != [] {
      WellFormedTail(ps, names);
      RewriteStep(ps[1..], names, k);
      RewriteHead(ps, names, k);
    }
  }

  /** The step for the first piece, given the step for the others. */
  lemma RewriteHead(ps: seq<Piece>, names: seq<string>, k: nat)
    requires AllNames(names) && PrefixFree(names) && WellFormedTemplate(ps, names)
    requires k < |names| && ps != []
    requires ReplaceAll(Render(ps[1..], names, k), Pattern(names[k]), Position(k + 1)) == Render(ps[1..], names, k + 1)
    ensures ReplaceAll(Render(ps, names, k), Pattern(names[k]), Position(k + 1)) == Render(ps, names, k + 1)
  {
    var rest := Render(ps[1..], names, k);
    var pat := Pattern(names[k]);
    var rep := Position(k + 1);
    assert pat[0] == ':';
    match ps[0]
    case Text(t) =>
      assert ':' !in t;
      ReplaceSkipsFree(t, rest, pat, rep);
    case Param(j) =>
      if j < k {
        ReplaceSkipsFree(Position(j + 1), rest, pat, rep);
      } else if j == k {
        ReplaceAtMatch(rest, pat, rep);
      } else {
        if |ps| > 1 {
          assert Separates(ps[1]);
          RenderStartsSeparated(ps[1..], names, k);
        }
        assert !IsPrefix(names[k], names[j]);
        OtherPlaceholderKept(names[j], names[k], rest, rep);
      }
  }

  lemma {:induction false} RewriteProgress(ps: seq<Piece>, names: seq<string>, k: nat)
    requires AllNames(names) && PrefixFree(names) && WellFormedTemplate(ps, names)
    requires k <= |names|
    ensures RewriteUpTo(Render(ps, names, 0), names, k) == Render(ps, names, k)
  {
    if k > 0 {
      RewriteProgress(ps, names, k - 1);
      RewriteStep(ps, names, k - 1);
    }
  }

  lemma {:induction false} RenderAllPositional(ps: seq<Piece>, names: seq<string>)
    requires InRange(ps, names)
    ensures Render(ps, names, |names|) == Positional(ps)
  {
    if ps != [] {
      assert InRange(ps[1..], names) by {
        forall i | 0 <= i < |ps[1..]| && ps[1..][i].Param? ensures ps[1..][i].index < |names| {
          assert ps[1..][i] == ps[i + 1];
        }
      }
      RenderAllPositional(ps[1..], names);
    }
  }

  /** When no placeholder name is a prefix of another, the rewrite turns every `:name` of
      the statement into `$k`, where `k` is the name's 1-based position in the list, and
      changes nothing else. */
  lemma RewriteIsPositional(ps: seq<Piece>, names: seq<string>)
    requires AllNames(names) && PrefixFree(names) && WellFormedTemplate(ps, names)
    ensures RewriteUpTo(Render(ps, names, 0), names, |names|) == Positional(ps)
  {
    RewriteProgress(ps, names, |names|);
    RenderAllPositional(ps, names);
  }

  /** Without that condition the rewrite is not positional: with the names `a` and `ab`
      (the iteration order of a `BTreeSet`), `:ab` becomes `$1b` instead of `$2`. */
  lemma PrefixNamesCollide()
    ensures RewriteUpTo(":ab", ["a", "ab"], 2) == "$1b"
  {
    assert NatToString(1) == "1";
    var once := RewriteUpTo(":ab", ["a", "ab"], 1);
    assert ":ab" == Pattern("a") + "b";
    ReplaceAtMatch("b", Pattern("a"), Position(1));
    assert once == "$1b";
    assert "$1b"[..3] != ":ab" by { assert "$1b"[0] != ':'; }
    assert ReplaceAll("$1b", ":ab", Position(2)) == "$1b";
  }
}
