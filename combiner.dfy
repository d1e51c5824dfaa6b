/**
 * `combine_categories` (app.py, lines 67-69) and the final tab that gathers the stored labels
 * and combines them (app.py, lines 186-198).
 */
module Combiner {
  import opened Wrappers
  import opened Categories

  /** Python truthiness of an argument of `filter(None, ...)`: None and "" are dropped. */
  predicate Truthy(o: Option<Category>) {
    o.Some? && o.value.Text() != ""
  }

  /** Python's filter with no predicate: the truthy arguments, in their order. */
  function Present(cats: seq<Option<Category>>): (xs: seq<Category>)
    ensures |xs| <= |cats|
    ensures forall c :: c in xs <==> Some(c) in cats && c.Text() != ""
  {
    if cats == [] then []
    else (if Truthy(cats[0]) then [cats[0].value] else []) + Present(cats[1..])
  }

  lemma {:induction false} PresentAppend(a: seq<Option<Category>>, b: seq<Option<Category>>)
    ensures Present(a + b) == Present(a) + Present(b)
  {
    if a == [] {
      assert a + b == b;
    } else {
      assert (a + b)[1..] == a[1..] + b;
      PresentAppend(a[1..], b);
    }
  }

  /** One argument filters to itself when truthy and to nothing otherwise; with PresentAppend
   *  this fixes Present on every list, order and repetitions included. */
  lemma PresentSingle(o: Option<Category>)
    ensures Present([o]) == if Truthy(o) then [o.value] else []
  {
    assert [o][1..] == [];
  }

  /** cats[k] holds v, and every truthy argument before it has a lower rank than v. */
  predicate FirstOfRankAt(cats: seq<Option<Category>>, k: nat, v: Category) {
    k < |cats| && cats[k] == Some(v) &&
    forall j :: 0 <= j < k && Truthy(cats[j]) ==> Rank(cats[j].value) < Rank(v)
  }

  lemma FirstOfRankExtend(cats: seq<Option<Category>>, more: seq<Option<Category>>, k: nat, v: Category)
    requires FirstOfRankAt(cats, k, v)
    ensures FirstOfRankAt(cats + more, k, v)
  {
    assert forall j :: 0 <= j <= k ==> (cats + more)[j] == cats[j];
  }

  /** xs[i] has a strictly greater rank than every element before it. */
  predicate OutranksPrefix(xs: seq<Category>, i: int) {
    0 <= i < |xs| && forall j :: 0 <= j < i ==> Rank(xs[j]) < Rank(xs[i])
  }

  /**
   * Python's `max` with the rank as key: it scans left to right and replaces its candidate only
   * by an element of strictly greater rank, so the result is the FIRST element of maximal rank.
   */
  function MaxByRank(xs: seq<Category>): (r: Category)
    requires |xs| > 0
    ensures r in xs
    ensures forall j :: 0 <= j < |xs| ==> Rank(xs[j]) <= Rank(r)
    ensures exists i :: OutranksPrefix(xs, i) && xs[i] == r
    decreases |xs|
  {
    if |xs| == 1 then
      assert OutranksPrefix(xs, 0);
      xs[0]
    else
      var best := MaxByRank(xs[..|xs| - 1]);
      MaxByRankStep(xs, best);
      if Rank(xs[|xs| - 1]) > Rank(best) then xs[|xs| - 1] else best
  }

  /** The scan's step: the last element replaces the candidate only when it outranks it. */
  lemma MaxByRankStep(xs: seq<Category>, best: Category)
    requires |xs| > 1
    requires var init := xs[..|xs| - 1];
      && best in init
      && (forall j :: 0 <= j < |init| ==> Rank(init[j]) <= Rank(best))
      && (exists i :: OutranksPrefix(init, i) && init[i] == best)
    ensures var r := if Rank(xs[|xs| - 1]) > Rank(best) then xs[|xs| - 1] else best;
      && r in xs
      && (forall j :: 0 <= j < |xs| ==> Rank(xs[j]) <= Rank(r))
      && (exists i :: OutranksPrefix(xs, i) && xs[i] == r)
  {
    var init, x := xs[..|xs| - 1], xs[|xs| - 1];
    assert forall j :: 0 <= j < |xs| - 1 ==> xs[j] == init[j];
    if Rank(x) > Rank(best) {
      assert OutranksPrefix(xs, |xs| - 1);
    } else {
      var i :| OutranksPrefix(init, i) && init[i] == best;
      assert OutranksPrefix(xs, i);
    }
  }

  /**
   * `combine_categories(*cats)`: the most severe truthy argument, or the error `max` raises
   * when every argument is None or empty.
   */
  function Combine(cats: seq<Option<Category>>): (r: Result<Category>)
    ensures r.Failure? <==> forall o :: o in cats ==> !Truthy(o)
    ensures r.Failure? ==> r.error == EmptyMax
    ensures r.Success? ==> Some(r.value) in cats && r.value.Text() != ""
    ensures r.Success? ==> forall o :: o in cats && Truthy(o) ==> Rank(o.value) <= Rank(r.value)
  {
    var xs := Present(cats);
    if xs == [] then
      Failure(EmptyMax)
    else
      var r := MaxByRank(xs);
      assert forall o :: o in cats && Truthy(o) ==> o.value in xs;
      Success(r)
  }

  /**
   * Like Python's `max`, the combiner returns the FIRST truthy argument of maximal rank: every
   * truthy argument before it has a strictly lower rank.
   */
  lemma {:induction false} CombineFirstMaximal(cats: seq<Option<Category>>)
    requires Combine(cats).Success?
    ensures exists k :: FirstOfRankAt(cats, k, Combine(cats).value)
    decreases |cats|, 1
  {
    var n := |cats|;
    var init, last := cats[..n - 1], cats[n - 1];
    SplitLast(cats);
    var k := FirstOfRankStep(init, last);
  }

  lemma SplitLast(cats: seq<Option<Category>>)
    requires |cats| > 0
    ensures cats == cats[..|cats| - 1] + [cats[|cats| - 1]]
  {
  }

  /** A witness for CombineFirstMaximal on a shorter list. */
  lemma FirstOfRankIndex(cats: seq<Option<Category>>) returns (k: nat)
    requires Combine(cats).Success?
    ensures FirstOfRankAt(cats, k, Combine(cats).value)
    decreases |cats|, 2
  {
    CombineFirstMaximal(cats);
    k :| FirstOfRankAt(cats, k, Combine(cats).value);
  }

  /** One more argument: where the first argument of maximal rank now sits. */
  lemma FirstOfRankStep(init: seq<Option<Category>>, last: Option<Category>) returns (k: nat)
    requires Combine(init + [last]).Success?
    ensures FirstOfRankAt(init + [last], k, Combine(init + [last]).value)
    decreases |init| + 1, 0
  {
    if !Truthy(last) {
      CombineSnocFalsy(init, last);
      k := FirstOfRankIndex(init);
      StepKeep(init, last, k);
    } else if Combine(init).Success? && Rank(last.value) <= Rank(Combine(init).value) {
      k := FirstOfRankIndex(init);
      StepKeep(init, last, k);
    } else {
      k := |init|;
      StepNew(init, last);
    }
  }

  /** A last argument that is falsy, or does not outrank the result so far, keeps the result. */
  lemma StepKeep(init: seq<Option<Category>>, last: Option<Category>, k: nat)
    requires Combine(init).Success? && FirstOfRankAt(init, k, Combine(init).value)
    requires !Truthy(last) || Rank(last.value) <= Rank(Combine(init).value)
    ensures FirstOfRankAt(init + [last], k, Combine(init + [last]).value)
  {
    if Truthy(last) {
      CombineSnocTruthy(init, last);
    } else {
      CombineSnocFalsy(init, last);
    }
    FirstOfRankExtend(init, [last], k, Combine(init).value);
  }

  /** A truthy last argument that outranks the result so far becomes the result. */
  lemma StepNew(init: seq<Option<Category>>, last: Option<Category>)
    requires Truthy(last)
    requires Combine(init).Success? ==> Rank(Combine(init).value) < Rank(last.value)
    ensures FirstOfRankAt(init + [last], |init|, Combine(init + [last]).value)
  {
    CombineSnocTruthy(init, last);
    FirstOfRankLast(init, last.value);
  }

  /** A falsy last argument changes nothing. */
  lemma CombineSnocFalsy(init: seq<Option<Category>>, last: Option<Category>)
    requires !Truthy(last)
    ensures Combine(init + [last]) == Combine(init)
  {
    PresentAppend(init, [last]);
    PresentSingle(last);
    assert Present(init + [last]) == Present(init);
    CombineOfSamePresent(init + [last], init);
  }

  /** A truthy last argument wins exactly when it outranks the result so far. */
  lemma CombineSnocTruthy(init: seq<Option<Category>>, last: Option<Category>)
    requires Truthy(last)
    ensures Combine(init + [last]) == Success(
      if Combine(init).Failure? || Rank(Combine(init).value) < Rank(last.value) then last.value
      else Combine(init).value)
  {
    PresentAppend(init, [last]);
    PresentSingle(last);
    var xs := Present(init + [last]);
    assert xs == Present(init) + [last.value];
    assert xs[..|xs| - 1] == Present(init);
  }

  /** A truthy last argument that outranks every truthy argument before it. */
  lemma FirstOfRankLast(init: seq<Option<Category>>, v: Category)
    requires v.Text() != ""
    requires Combine(init).Success? ==> Rank(Combine(init).value) < Rank(v)
    ensures FirstOfRankAt(init + [Some(v)], |init|, v)
  {
    var cats := init + [Some(v)];
    forall j | 0 <= j < |init| && Truthy(cats[j]) ensures Rank(cats[j].value) < Rank(v) {
      assert cats[j] == init[j] && init[j] in init;
    }
  }

  /** An argument that is None or empty can be inserted anywhere without changing the result. */
  lemma {:induction false} CombineIgnoresFalsy(a: seq<Option<Category>>, o: Option<Category>, b: seq<Option<Category>>)
    requires !Truthy(o)
    ensures Combine(a + [o] + b) == Combine(a + b)
  {
    assert Present(a + [o] + b) == Present(a + b) by {
      PresentAppend(a + [o], b);
      PresentAppend(a, [o]);
      PresentAppend(a, b);
      assert Present([o]) == [] by {
        assert [o][1..] == [];
      }
    }
    CombineOfSamePresent(a + [o] + b, a + b);
  }

  /** The combiner sees its arguments only through `filter(None, ...)`. */
  lemma CombineOfSamePresent(a: seq<Option<Category>>, b: seq<Option<Category>>)
    requires Present(a) == Present(b)
    ensures Combine(a) == Combine(b)
  {
  }

  /** A single label combines to itself. */
  lemma CombineSingle(c: Category)
    requires c.Text() != ""
    ensures Combine([Some(c)]) == Success(c)
  {
  }

  /** With no arguments `max` raises. */
  lemma CombineEmpty()
    ensures Combine([]) == Failure(EmptyMax)
  {
  }

  /** Every argument is None or one of the three labels the categorizer produces. */
  predicate AllKnown(cats: seq<Option<Category>>) {
    forall o :: o in cats && o.Some? ==> o.value.Known()
  }

  /**
   * Over the three labels, the result is a reference "worst label present": High if any
   * argument is High, otherwise Intermediate if any is, otherwise Low if any is.
   */
  lemma CombineKnownIsWorst(cats: seq<Option<Category>>)
    requires AllKnown(cats)
    ensures Combine(cats) ==
      if Some(High) in cats then Success(High)
      else if Some(Intermediate) in cats then Success(Intermediate)
      else if Some(Low) in cats then Success(Low)
      else Failure(EmptyMax)
  {
    var r := Combine(cats);
    if r.Success? {
      assert r.value.Known();
      if Some(High) in cats {
        assert Truthy(Some(High));
      } else if Some(Intermediate) in cats {
        assert Truthy(Some(Intermediate));
      }
    } else {
      assert !Truthy(Some(High)) || Some(High) !in cats;
    }
  }

  /**
   * Over the three labels, the result depends only on which labels occur: not on the order
   * of the arguments, their repetitions or the None entries among them.
   */
  lemma CombineDependsOnlyOnMembers(a: seq<Option<Category>>, b: seq<Option<Category>>)
    requires AllKnown(a)
    requires forall o :: o in a <==> o in b
    ensures Combine(a) == Combine(b)
  {
    CombineKnownIsWorst(a);
    CombineKnownIsWorst(b);
  }

  /** What the final tab shows: the request to compute a component, or the overall label and its class. */
  datatype FinalView = Incomplete | Verdict(category: Category, cssClass: string)

  /** The list the final tab collects: the three stored slots in tab order, without the empty ones. */
  function Collected(baseCat: Option<Category>, lipidCat: Option<Category>, metaCat: Option<Category>)
    : (s: seq<Option<Category>>)
    ensures |s| <= 3
    ensures forall o :: o in s <==> o.Some? && (o == baseCat || o == lipidCat || o == metaCat)
  {
    (if baseCat.Some? then [baseCat] else [])
    + (if lipidCat.Some? then [lipidCat] else [])
    + (if metaCat.Some? then [metaCat] else [])
  }

  /** The final tab: combine the stored labels only when at least one was stored. */
  function FinalTab(baseCat: Option<Category>, lipidCat: Option<Category>, metaCat: Option<Category>)
    : (r: Result<FinalView>)
    ensures r == Success(Incomplete) <==> baseCat.None? && lipidCat.None? && metaCat.None?
    ensures r.Success? && r.value.Verdict? ==> r.value.cssClass == ColorClass(r.value.category)
  {
    var collected := Collected(baseCat, lipidCat, metaCat);
    if |collected| > 0 then
      match Combine(collected)
      case Success(c) => Success(Verdict(c, ColorClass(c)))
      case Failure(e) => Failure(e)
    else
      assert baseCat !in collected;
      Success(Incomplete)
  }

  /** Dropping None before the call changes nothing: the combiner drops it anyway. */
  lemma FinalTabCombinesAllSlots(baseCat: Option<Category>, lipidCat: Option<Category>, metaCat: Option<Category>)
    requires baseCat.Some? || lipidCat.Some? || metaCat.Some?
    ensures FinalTab(baseCat, lipidCat, metaCat) ==
      match Combine([baseCat, lipidCat, metaCat])
      case Success(c) => Success(Verdict(c, ColorClass(c)))
      case Failure(e) => Failure(e)
  {
    var collected := Collected(baseCat, lipidCat, metaCat);
    var all := [baseCat, lipidCat, metaCat];
    var bs, ls, ms := (if baseCat.Some? then [baseCat] else []), (if lipidCat.Some? then [lipidCat] else []), (if metaCat.Some? then [metaCat] else []);
    assert Present(all) == Present([baseCat]) + Present([lipidCat]) + Present([metaCat]) by {
      assert all == [baseCat] + [lipidCat] + [metaCat];
      PresentAppend([baseCat] + [lipidCat], [metaCat]);
      PresentAppend([baseCat], [lipidCat]);
    }
    assert Present(collected) == Present(bs) + Present(ls) + Present(ms) by {
      assert collected == bs + ls + ms;
      PresentAppend(bs + ls, ms);
      PresentAppend(bs, ls);
    }
    assert Present(bs) == Present([baseCat]);
    assert Present(ls) == Present([lipidCat]);
    assert Present(ms) == Present([metaCat]);
    CombineOfSamePresent(collected, all);
    assert |collected| > 0 by {
      if baseCat.Some? { assert baseCat in collected; }
      else if lipidCat.Some? { assert lipidCat in collected; }
      else { assert metaCat in collected; }
    }
  }

  /**
   * When every stored label came from the categorizer, the final tab never reaches `max` with
   * nothing to compare, and its verdict is the worst stored label.
   */
  lemma FinalTabOfKnownLabels(baseCat: Option<Category>, lipidCat: Option<Category>, metaCat: Option<Category>)
    requires baseCat.Some? ==> baseCat.value.Known()
    requires lipidCat.Some? ==> lipidCat.value.Known()
    requires metaCat.Some? ==> metaCat.value.Known()
    ensures FinalTab(baseCat, lipidCat, metaCat).Success?
    ensures var slots := [baseCat, lipidCat, metaCat];
      FinalTab(baseCat, lipidCat, metaCat) ==
        if Some(High) in slots then Success(Verdict(High, "risk-high"))
        else if Some(Intermediate) in slots then Success(Verdict(Intermediate, "risk-mid"))
        else if Some(Low) in slots then Success(Verdict(Low, "risk-low"))
        else Success(Incomplete)
  {
    var slots := [baseCat, lipidCat, metaCat];
    assert AllKnown(slots);
    CombineKnownIsWorst(slots);
    if baseCat.Some? || lipidCat.Some? || metaCat.Some? {
      FinalTabCombinesAllSlots(baseCat, lipidCat, metaCat);
      assert Some(High) in slots || Some(Intermediate) in slots || Some(Low) in slots;
    }
  }
}
