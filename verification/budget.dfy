/** Expense arithmetic shared by the expenses screen and the dashboard:
    numeric coercion, two-decimal rounding, totals, per-category totals with
    their legacy English labels, remaining budget and progress. */
module Budget {
  import opened Wrappers
  import opened Model
  import Collections

  /** `Number(x) || 0`: a value that is not a number becomes 0; every number,
      negative ones included, is kept as it is. */
  function OrZero(n: Numeric): (r: real)
    ensures n.NaN? ==> r == 0.0
    ensures n.Num? ==> r == n.value
  {
    if TruthyNumber(n) then n.value else 0.0
  }

  /** A whole number of cents. */
  predicate IsCents(x: real) {
    (x * 100.0).Floor as real == x * 100.0
  }

  /** Whole cents nearest to `y >= 0` reais, halves rounded up. */
  function CentsHalfUp(y: real): (n: int)
    requires y >= 0.0
    ensures 0 <= n
    ensures (n as real) <= y * 100.0 + 0.5 < (n as real) + 1.0
  {
    (y * 100.0 + 0.5).Floor
  }

  lemma CentsAreCents(n: int)
    ensures IsCents((n as real) / 100.0)
  {
    assert (n as real) / 100.0 * 100.0 == n as real;
  }

  /** `parseFloat(x.toFixed(2))` on exact reals: the nearest multiple of
      0.01, halves rounded away from zero. */
  function Round2(x: real): (r: real)
    ensures IsCents(r)
    ensures -0.005 <= r - x <= 0.005
    ensures x >= 0.0 ==> r >= 0.0
  {
    if x >= 0.0 then
      var n := CentsHalfUp(x);
      CentsAreCents(n);
      (n as real) / 100.0
    else
      var n := CentsHalfUp(-x);
      CentsAreCents(-n);
      ((-n) as real) / 100.0
  }

  /** Amounts already in whole cents are not moved by rounding. */
  lemma Round2KeepsCents(x: real)
    requires IsCents(x)
    ensures Round2(x) == x
  {
    var n := (x * 100.0).Floor;
    if x >= 0.0 {
      assert (x * 100.0 + 0.5).Floor == n;
    } else {
      assert ((-x) * 100.0).Floor == -n;
      assert ((-x) * 100.0 + 0.5).Floor == -n;
    }
  }

  /** Rounding twice is rounding once. */
  lemma Round2Idempotent(x: real)
    ensures Round2(Round2(x)) == Round2(x)
  {
    Round2KeepsCents(Round2(x));
  }

  // ---- Totals ---------------------------------------------------------

  /** `expenses.reduce((acc, e) => acc + e.amount, 0)`. */
  function TotalSpent(es: seq<Expense>): (r: real)
    ensures (forall i :: 0 <= i < |es| ==> es[i].amount >= 0.0) ==> r >= 0.0
  {
    if |es| == 0 then 0.0 else es[0].amount + TotalSpent(es[1..])
  }

  /** The total of two lists is the sum of their totals. */
  lemma {:induction false} TotalSpentConcat(a: seq<Expense>, b: seq<Expense>)
    ensures TotalSpent(a + b) == TotalSpent(a) + TotalSpent(b)
  {
    if |a| == 0 {
      assert a + b == b;
    } else {
      assert (a + b)[1..] == a[1..] + b;
      TotalSpentConcat(a[1..], b);
    }
  }

  /** Sum of the amounts of the expenses whose id is `id`. */
  function TotalWithId(es: seq<Expense>, id: string): real {
    if |es| == 0 then 0.0
    else (if es[0].id == id then es[0].amount else 0.0) + TotalWithId(es[1..], id)
  }

  /** Deleting by id takes exactly the deleted expenses' amounts off the
      total. */
  lemma {:induction false} TotalAfterRemove(es: seq<Expense>, id: string)
    ensures TotalSpent(Collections.RemoveById(es, ExpenseId, id)) == TotalSpent(es) - TotalWithId(es, id)
  {
    if |es| > 0 {
      TotalAfterRemove(es[1..], id);
      if es[0].id != id {
        assert Collections.RemoveById(es, ExpenseId, id)
            == [es[0]] + Collections.RemoveById(es[1..], ExpenseId, id);
        TotalSpentConcat([es[0]], Collections.RemoveById(es[1..], ExpenseId, id));
      }
    }
  }

  // ---- Categories -----------------------------------------------------

  /** The seven expense categories, named by their current labels. */
  datatype Category = Alimentacao | Transporte | Compras | Lazer | Hospedagem | Voo | Outros

  /** Display order of the summary. */
  const Categories: seq<Category> := [Alimentacao, Transporte, Compras, Lazer, Hospedagem, Voo, Outros]

  function Label(c: Category): string {
    match c
    case Alimentacao => "Alimentação"
    case Transporte => "Transporte"
    case Compras => "Compras"
    case Lazer => "Lazer"
    case Hospedagem => "Hospedagem"
    case Voo => "Voo"
    case Outros => "Outros"
  }

  /** The one English label each category was stored under by older data. */
  function LegacyLabel(c: Category): string {
    match c
    case Alimentacao => "Food"
    case Transporte => "Transport"
    case Compras => "Shopping"
    case Lazer => "Activity"
    case Hospedagem => "Accommodation"
    case Voo => "Flight"
    case Outros => "Other"
  }

  /** An expense counts towards `c` when its stored label is exactly `c`'s
      label or exactly `c`'s legacy label (case-sensitive). */
  predicate IsLabelOf(text: string, c: Category) {
    text == Label(c) || text == LegacyLabel(c)
  }

  /** The category a stored label belongs to, if any. */
  function CategoryOf(text: string): (r: Option<Category>)
    ensures forall c :: IsLabelOf(text, c) <==> r == Some(c)
  {
    if text == "Alimentação" || text == "Food" then Some(Alimentacao)
    else if text == "Transporte" || text == "Transport" then Some(Transporte)
    else if text == "Compras" || text == "Shopping" then Some(Compras)
    else if text == "Lazer" || text == "Activity" then Some(Lazer)
    else if text == "Hospedagem" || text == "Accommodation" then Some(Hospedagem)
    else if text == "Voo" || text == "Flight" then Some(Voo)
    else if text == "Outros" || text == "Other" then Some(Outros)
    else None
  }

  /** Sum of the amounts of the expenses counted towards `c`. */
  function CategoryTotal(es: seq<Expense>, c: Category): (r: real)
    ensures (forall i :: 0 <= i < |es| ==> es[i].amount >= 0.0) ==> 0.0 <= r <= TotalSpent(es)
    ensures (forall i :: 0 <= i < |es| ==> !IsLabelOf(es[i].category, c)) ==> r == 0.0
  {
    if |es| == 0 then 0.0
    else (if IsLabelOf(es[0].category, c) then es[0].amount else 0.0) + CategoryTotal(es[1..], c)
  }

  /** Sum of the amounts of the expenses no category counts. */
  function UncategorisedTotal(es: seq<Expense>): real {
    if |es| == 0 then 0.0
    else (if CategoryOf(es[0].category).None? then es[0].amount else 0.0) + UncategorisedTotal(es[1..])
  }

  /** Sum of the category totals over `cs`. */
  function TotalOver(es: seq<Expense>, cs: seq<Category>): real {
    if |cs| == 0 then 0.0 else CategoryTotal(es, cs[0]) + TotalOver(es, cs[1..])
  }

  ghost predicate Distinct(cs: seq<Category>) {
    forall i, j :: 0 <= i < j < |cs| ==> cs[i] != cs[j]
  }

  /** Adding one expense in front adds its amount to the total over `cs`
      once if its category is among `cs`, and not at all otherwise. */
  lemma {:induction false} TotalOverCons(e: Expense, rest: seq<Expense>, cs: seq<Category>)
    requires Distinct(cs)
    ensures TotalOver([e] + rest, cs)
         == TotalOver(rest, cs)
            + (if CategoryOf(e.category).Some? && CategoryOf(e.category).value in cs then e.amount else 0.0)
  {
    if |cs| > 0 {
      assert ([e] + rest)[1..] == rest;
      assert Distinct(cs[1..]) by {
        forall i, j | 0 <= i < j < |cs[1..]| ensures cs[1..][i] != cs[1..][j] {
          assert cs[1..][i] == cs[i + 1] && cs[1..][j] == cs[j + 1];
        }
      }
      TotalOverCons(e, rest, cs[1..]);
      if CategoryOf(e.category) == Some(cs[0]) {
        assert cs[0] !in cs[1..];
      }
    }
  }

  /** Every expense is counted by at most one category, so the overall total
      is the sum of the seven category totals plus whatever carries no
      known label. */
  lemma {:induction false} TotalSplitsByCategory(es: seq<Expense>)
    ensures TotalSpent(es) == TotalOver(es, Categories) + UncategorisedTotal(es)
  {
    if |es| == 0 {
      assert TotalOver(es, Categories) == 0.0 by {
        TotalOverEmpty(Categories);
      }
    } else {
      var e := es[0];
      assert es == [e] + es[1..];
      TotalOverCons(e, es[1..], Categories);
      TotalSplitsByCategory(es[1..]);
      match CategoryOf(e.category)
      case None =>
      case Some(c) =>
        CategoryListed(c);
    }
  }

  /** Every category appears in the list the screen walks. */
  lemma CategoryListed(c: Category)
    ensures c in Categories
  {
    match c
    case Alimentacao => assert Categories[0] == c;
    case Transporte => assert Categories[1] == c;
    case Compras => assert Categories[2] == c;
    case Lazer => assert Categories[3] == c;
    case Hospedagem => assert Categories[4] == c;
    case Voo => assert Categories[5] == c;
    case Outros => assert Categories[6] == c;
  }

  lemma {:induction false} TotalOverEmpty(cs: seq<Category>)
    ensures TotalOver([], cs) == 0.0
  {
    if |cs| > 0 {
      TotalOverEmpty(cs[1..]);
    }
  }

  /** The category chips: `(category, total)` for every category, in display
      order, whose total is not zero. */
  function CategorySummary(es: seq<Expense>): (r: seq<(Category, real)>)
    ensures forall i :: 0 <= i < |r| ==> r[i].1 == CategoryTotal(es, r[i].0) && r[i].1 != 0.0
    ensures forall c :: CategoryTotal(es, c) != 0.0 <==> (c, CategoryTotal(es, c)) in r
    ensures Ascending(Firsts(r))
  {
    var r := SummaryOver(es, Categories);
    CategoriesAscending();
    SummaryOverAscending(es, Categories);
    assert forall c :: CategoryTotal(es, c) != 0.0 ==> (c, CategoryTotal(es, c)) in r by {
      forall c | CategoryTotal(es, c) != 0.0
        ensures (c, CategoryTotal(es, c)) in r
      {
        CategoryListed(c);
      }
    }
    r
  }

  function SummaryOver(es: seq<Expense>, cs: seq<Category>): (r: seq<(Category, real)>)
    ensures forall i :: 0 <= i < |r| ==> r[i].0 in cs && r[i].1 == CategoryTotal(es, r[i].0) && r[i].1 != 0.0
    ensures forall c :: c in cs && CategoryTotal(es, c) != 0.0 ==> (c, CategoryTotal(es, c)) in r
  {
    if |cs| == 0 then []
    else
      var t := CategoryTotal(es, cs[0]);
      (if t == 0.0 then [] else [(cs[0], t)]) + SummaryOver(es, cs[1..])
  }

  /** Position of a category in the display order. */
  function Rank(c: Category): nat {
    match c
    case Alimentacao => 0
    case Transporte => 1
    case Compras => 2
    case Lazer => 3
    case Hospedagem => 4
    case Voo => 5
    case Outros => 6
  }

  /** Strictly increasing display positions: no category twice, and in
      display order. */
  predicate Ascending(cs: seq<Category>) {
    forall i, j :: 0 <= i < j < |cs| ==> Rank(cs[i]) < Rank(cs[j])
  }

  /** The categories of a summary, in summary order. */
  function Firsts(r: seq<(Category, real)>): (cs: seq<Category>)
    ensures |cs| == |r| && forall i :: 0 <= i < |r| ==> cs[i] == r[i].0
  {
    if |r| == 0 then [] else [r[0].0] + Firsts(r[1..])
  }

  /** Walking the categories in display order yields a summary in display
      order, each category at most once. */
  lemma {:induction false} SummaryOverAscending(es: seq<Expense>, cs: seq<Category>)
    requires Ascending(cs)
    ensures Ascending(Firsts(SummaryOver(es, cs)))
  {
    if |cs| > 0 {
      var tail := SummaryOver(es, cs[1..]);
      AscendingTail(cs);
      SummaryOverAscending(es, cs[1..]);
      var t := CategoryTotal(es, cs[0]);
      if t != 0.0 {
        assert Firsts([(cs[0], t)] + tail) == [cs[0]] + Firsts(tail);
        HeadBelowSummary(es, cs);
        AscendingCons(cs[0], Firsts(tail));
      } else {
        assert SummaryOver(es, cs) == tail;
      }
    }
  }

  lemma AscendingTail(cs: seq<Category>)
    requires Ascending(cs) && |cs| > 0
    ensures Ascending(cs[1..])
    ensures forall x :: x in cs[1..] ==> Rank(cs[0]) < Rank(x)
  {
    forall i, j | 0 <= i < j < |cs[1..]| ensures Rank(cs[1..][i]) < Rank(cs[1..][j]) {
      assert cs[1..][i] == cs[i + 1] && cs[1..][j] == cs[j + 1];
    }
    forall x | x in cs[1..] ensures Rank(cs[0]) < Rank(x) {
      var k :| 0 <= k < |cs[1..]| && cs[1..][k] == x;
      assert cs[k + 1] == x;
    }
  }

  lemma HeadBelowSummary(es: seq<Expense>, cs: seq<Category>)
    requires |cs| > 0
    requires forall x :: x in cs[1..] ==> Rank(cs[0]) < Rank(x)
    ensures forall x :: x in Firsts(SummaryOver(es, cs[1..])) ==> Rank(cs[0]) < Rank(x)
  {
    var tail := SummaryOver(es, cs[1..]);
    forall x | x in Firsts(tail) ensures Rank(cs[0]) < Rank(x) {
      var j :| 0 <= j < |Firsts(tail)| && Firsts(tail)[j] == x;
      assert tail[j].0 in cs[1..];
    }
  }

  lemma AscendingCons(c: Category, cs: seq<Category>)
    requires Ascending(cs)
    requires forall x :: x in cs ==> Rank(c) < Rank(x)
    ensures Ascending([c] + cs)
  {
    var r := [c] + cs;
    forall i, j | 0 <= i < j < |r| ensures Rank(r[i]) < Rank(r[j]) {
      assert r[j] == cs[j - 1];
      if i > 0 {
        assert r[i] == cs[i - 1];
      }
    }
  }

  /** The display order lists the categories by rank. */
  lemma CategoriesAscending()
    ensures Ascending(Categories)
  {
    forall i | 0 <= i < |Categories| ensures Rank(Categories[i]) == i {
    }
  }

  // ---- Budget ---------------------------------------------------------

  /** `budget - totalExpenses`, not clamped: negative exactly when the trip
      is over budget, which the dashboard shows in red. */
  function RemainingBudget(budget: real, es: seq<Expense>): (r: real)
    ensures r < 0.0 <==> TotalSpent(es) > budget
    ensures r >= budget <==> TotalSpent(es) <= 0.0
  {
    budget - TotalSpent(es)
  }

  /** Deleting expenses gives back exactly their amounts. */
  lemma RemainingAfterRemove(budget: real, es: seq<Expense>, id: string)
    ensures RemainingBudget(budget, Collections.RemoveById(es, ExpenseId, id))
         == RemainingBudget(budget, es) + TotalWithId(es, id)
  {
    TotalAfterRemove(es, id);
  }

  /** Percentage of the budget spent, capped at 100; 0 when the budget is
      not positive. */
  function Progress(budget: real, es: seq<Expense>): (r: real)
    ensures r <= 100.0
    ensures budget <= 0.0 ==> r == 0.0
    ensures budget > 0.0 ==> (r == 100.0 <==> TotalSpent(es) >= budget)
    ensures budget > 0.0 && TotalSpent(es) >= 0.0 ==> r >= 0.0
    ensures budget > 0.0 && TotalSpent(es) < budget ==> r * budget == 100.0 * TotalSpent(es)
  {
    if budget > 0.0 then
      var pct := TotalSpent(es) / budget * 100.0;
      PercentVsWhole(TotalSpent(es), budget);
      assert TotalSpent(es) / budget * budget == TotalSpent(es);
      if pct < 100.0 then pct else 100.0
    else 0.0
  }

  lemma PercentVsWhole(part: real, whole: real)
    requires whole > 0.0
    ensures part / whole * 100.0 >= 100.0 <==> part >= whole
    ensures part >= 0.0 ==> part / whole * 100.0 >= 0.0
  {
    assert part / whole * whole == part;
  }

  /** Spending more never lowers the progress bar. */
  lemma ProgressMonotone(budget: real, a: seq<Expense>, b: seq<Expense>)
    requires TotalSpent(a) <= TotalSpent(b)
    ensures Progress(budget, a) <= Progress(budget, b)
  {
    if budget > 0.0 {
      PercentMonotone(TotalSpent(a), TotalSpent(b), budget);
    }
  }

  lemma PercentMonotone(x: real, y: real, whole: real)
    requires whole > 0.0 && x <= y
    ensures x / whole * 100.0 <= y / whole * 100.0
  {
    var qx, qy := x / whole, y / whole;
    assert qx * whole == x && qy * whole == y;
  }

  /** An expense stored under "Alimentação" and one under its legacy label
      "Food" both count towards the food total; a transport expense does
      not. */
  lemma LegacyLabelExample()
    ensures var es := [Expense("1", "Jantar", 30.0, "", "Alimentação", None, None, None, None),
                       Expense("2", "Lunch", 20.0, "", "Food", None, None, None, None),
                       Expense("3", "Metrô", 5.0, "", "Transporte", None, None, None, None)];
            CategoryTotal(es, Alimentacao) == 50.0 && CategoryTotal(es, Transporte) == 5.0
  {
    var es := [Expense("1", "Jantar", 30.0, "", "Alimentação", None, None, None, None),
               Expense("2", "Lunch", 20.0, "", "Food", None, None, None, None),
               Expense("3", "Metrô", 5.0, "", "Transporte", None, None, None, None)];
    assert es[1..] == [es[1], es[2]];
    assert es[1..][1..] == [es[2]];
    assert es[1..][1..][1..] == [];
  }

  /** Overspending shows as a negative remainder: a budget of 1000 with
      1200 spent leaves -200. */
  lemma OverspendExample()
    ensures var es := [Expense("1", "Hotel", 700.0, "", "Hospedagem", None, None, None, None),
                       Expense("2", "Voo", 500.0, "", "Voo", None, None, None, None)];
            RemainingBudget(1000.0, es) == -200.0 && Progress(1000.0, es) == 100.0
  {
    var es := [Expense("1", "Hotel", 700.0, "", "Hospedagem", None, None, None, None),
               Expense("2", "Voo", 500.0, "", "Voo", None, None, None, None)];
    assert es[1..] == [es[1]];
    assert es[1..][1..] == [];
  }
}
