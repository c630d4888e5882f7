/** `PlaceholderVisitor` (`hartex-database-typedsql`, `src/visitor.rs`): an AST visitor that
    records the names of the placeholders of a statement, without their sigil, without
    duplicates and in order of first appearance. */
module TypedSqlVisitor {
  import opened SqlAst

  /** `std::ops::ControlFlow<()>`. */
  datatype ControlFlow = Continue | Break

  /** The expression is `Expr::Value(Value::Placeholder(_))`. */
  predicate IsPlaceholder(e: Expr) {
    e.Value? && e.val.Placeholder?
  }

  /** `sqlparser` keeps the sigil of every placeholder, so its text is never empty; the
      visitor's `&ph[1..]` relies on this. */
  predicate SigilPresent(e: Expr) {
    IsPlaceholder(e) ==> |e.val.text| > 0
  }

  predicate AllSigilsPresent(es: seq<Expr>) {
    forall i :: 0 <= i < |es| ==> SigilPresent(es[i])
  }

  /** The recorded name of a placeholder: its text without the first character. */
  function Name(e: Expr): (name: string)
    requires IsPlaceholder(e) && SigilPresent(e)
    ensures e.val.text == [e.val.text[0]] + name
  {
    e.val.text[1..]
  }

  predicate NoDuplicates(s: seq<string>) {
    forall i, j :: 0 <= i < j < |s| ==> s[i] != s[j]
  }

  /** The effect of one `pre_visit_expr` call on the recorded list. */
  function Step(names: seq<string>, e: Expr): (r: seq<string>)
    requires SigilPresent(e)
    ensures !IsPlaceholder(e) ==> r == names
    ensures IsPlaceholder(e) ==> Name(e) in r && (r == names || (Name(e) !in names && r == names + [Name(e)]))
  {
    if IsPlaceholder(e) && Name(e) !in names then names + [Name(e)] else names
  }

  /** The recorded list after visiting `es` in order, starting from `start`. */
  function Collect(start: seq<string>, es: seq<Expr>): seq<string>
    requires AllSigilsPresent(es)
  {
    if es == [] then start else Step(Collect(start, es[..|es| - 1]), es[|es| - 1])
  }

  /** Reference definition: the names of all placeholders visited, with repetitions. */
  function Names(es: seq<Expr>): (r: seq<string>)
    requires AllSigilsPresent(es)
    ensures |r| <= |es|
  {
    if es == [] then []
    else
      var e := es[|es| - 1];
      Names(es[..|es| - 1]) + (if IsPlaceholder(e) then [Name(e)] else [])
  }

  /** The position of the first occurrence of an element. */
  function FirstIndex(xs: seq<string>, x: string): (k: nat)
    requires x in xs
    ensures k < |xs| && xs[k] == x && x !in xs[..k]
  {
    if xs[0] == x then 0 else 1 + FirstIndex(xs[1..], x)
  }

  /** Visiting only appends: the list before a visit is a prefix of the list after it. */
  lemma {:induction false} CollectExtends(start: seq<string>, es: seq<Expr>)
    requires AllSigilsPresent(es)
    ensures start <= Collect(start, es)
  {
    if es != [] {
      CollectExtends(start, es[..|es| - 1]);
    }
  }

  /** The list never holds a name twice. */
  lemma {:induction false} CollectNoDuplicates(start: seq<string>, es: seq<Expr>)
    requires AllSigilsPresent(es) && NoDuplicates(start)
    ensures NoDuplicates(Collect(start, es))
  {
    if es != [] {
      CollectNoDuplicates(start, es[..|es| - 1]);
    }
  }

  /** The recorded names are exactly the initial ones and the stripped names of the
      placeholders visited. */
  lemma {:induction false} CollectMembers(start: seq<string>, es: seq<Expr>, x: string)
    requires AllSigilsPresent(es)
    ensures x in Collect(start, es) <==> x in start || x in Names(es)
  {
    if es != [] {
      CollectMembers(start, es[..|es| - 1], x);
    }
  }

  lemma FirstIndexInPrefix(xs: seq<string>, ys: seq<string>, x: string)
    requires x in xs
    ensures FirstIndex(xs + ys, x) == FirstIndex(xs, x)
  {
    var k := FirstIndex(xs, x);
    var m := FirstIndex(xs + ys, x);
    assert (xs + ys)[..k] == xs[..k];
    assert (xs + ys)[k] == x;
  }

  /** Every name of `r` occurs in `n`, and they appear in `r` in the order of their first
      occurrence in `n`. */
  predicate InFirstAppearanceOrder(r: seq<string>, n: seq<string>) {
    (forall x :: x in r ==> x in n)
    && forall i, j :: 0 <= i < j < |r| ==> FirstIndex(n, r[i]) < FirstIndex(n, r[j])
  }

  /** More names after the recorded ones do not change their order. */
  lemma OrderSurvivesMoreNames(r: seq<string>, n: seq<string>, more: seq<string>)
    requires InFirstAppearanceOrder(r, n)
    ensures InFirstAppearanceOrder(r, n + more)
  {
    forall x | x in r ensures FirstIndex(n + more, x) == FirstIndex(n, x) {
      FirstIndexInPrefix(n, more, x);
    }
  }

  /** A name seen for the first time goes last in both lists. */
  lemma OrderSurvivesNewName(r: seq<string>, n: seq<string>, x: string)
    requires InFirstAppearanceOrder(r, n) && x !in n
    ensures InFirstAppearanceOrder(r + [x], n + [x])
  {
    OrderSurvivesMoreNames(r, n, [x]);
    var r1, n1 := r + [x], n + [x];
    assert FirstIndex(n1, x) == |n| by {
      assert n1[|n|] == x;
      assert n1[..|n|] == n;
    }
    forall i, j | 0 <= i < j < |r1| ensures FirstIndex(n1, r1[i]) < FirstIndex(n1, r1[j]) {
      assert r1[i] == r[i];
      if j < |r| {
        assert r1[j] == r[j];
      }
    }
  }

  /** Starting from an empty list, the names appear in the order in which each was first
      visited. */
  lemma {:induction false} CollectFirstAppearanceOrder(es: seq<Expr>)
    requires AllSigilsPresent(es)
    ensures InFirstAppearanceOrder(Collect([], es), Names(es))
  {
    var r := Collect([], es);
    forall x | x in r ensures x in Names(es) { CollectMembers([], es, x); }
    if es != [] {
      var init := es[..|es| - 1];
      var e := es[|es| - 1];
      var r0 := Collect([], init);
      var n0 := Names(init);
      CollectFirstAppearanceOrder(init);
      var more := if IsPlaceholder(e) then [Name(e)] else [];
      assert Names(es) == n0 + more;
      if r != r0 {
        assert r == r0 + [Name(e)] && more == [Name(e)];
        CollectMembers([], init, Name(e));
        OrderSurvivesNewName(r0, n0, Name(e));
      } else {
        OrderSurvivesMoreNames(r0, n0, more);
      }
    }
  }

  /** The visitor's state: the placeholder names recorded so far. */
  class PlaceholderVisitor {
    var placeholders: seq<string>

    /** `PlaceholderVisitor::default()`. */
    constructor()
      ensures placeholders == []
    {
      placeholders := [];
    }

    /** `Visitor::pre_visit_expr`: records a placeholder's name unless it is already
        recorded, and always lets the traversal continue. */
    method PreVisitExpr(e: Expr) returns (flow: ControlFlow)
      requires SigilPresent(e)
      modifies this
      ensures placeholders == Step(old(placeholders), e)
      ensures flow == Continue
    {
      if IsPlaceholder(e) {
        var name := e.val.text[1..];
        if name !in placeholders {
          placeholders := placeholders + [name];
        }
      }
      flow := Continue;
    }
  }

  /** The traversal `sqlparser`'s `Visit` performs on behalf of the visitor: it hands every
      expression to `pre_visit_expr` in order and stops early only on `Break`, which this
      visitor never returns. */
  method Visit(v: PlaceholderVisitor, es: seq<Expr>) returns (flow: ControlFlow)
    requires AllSigilsPresent(es)
    modifies v
    ensures v.placeholders == Collect(old(v.placeholders), es)
    ensures flow == Continue
  {
    var i := 0;
    flow := Continue;
    while i < |es|
      invariant 0 <= i <= |es|
      invariant flow == Continue
      invariant v.placeholders == Collect(old(v.placeholders), es[..i])
    {
      assert es[..i + 1][..i] == es[..i];
      flow := v.PreVisitExpr(es[i]);
      i := i + 1;
    }
    assert es[..|es|] == es;
  }
}
