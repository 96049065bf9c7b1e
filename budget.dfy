/**
 * The budget screen: two in-memory lists of categories (expenses and
 * income), seeded with fixed names, edited through a dialog, and summed
 * into a total for display. A lock flag gates editing and deleting.
 */
module Budget {
  import opened Wrappers
  import opened JavaLang

  /** One row of either list: a label and an amount held in a Java `int`. */
  datatype Category = Category(name: string, amount: Int32)

  /** The two lists the screen keeps; their handlers mirror each other. */
  datatype ListKind = Expenses | Incomes {
    function Other(): ListKind
    {
      if Expenses? then Incomes else Expenses
    }
  }

  const ExpenseDefaults: seq<string> :=
    ["Ăn tiệm", "Sinh hoạt", "Đi lại", "Trang phục", "Hưởng thụ", "Con cái", "Hiếu hỉ", "Nhà cửa"]
  const IncomeDefaults: seq<string> := ["Lương", "Thưởng", "Đầu tư", "Khác"]

  /** The categories named by `names`, in order, each with amount 0. */
  function Seeded(names: seq<string>): seq<Category>
  {
    seq(|names|, k requires 0 <= k < |names| => Category(names[k], 0))
  }

  /** The exact (unbounded) sum of the amounts. */
  function Sum(s: seq<Category>): int
  {
    if s == [] then 0 else Sum(s[..|s| - 1]) + s[|s| - 1].amount
  }

  /** The list with the element at `i` taken out (`List.remove(int)`). */
  function Removed(s: seq<Category>, i: nat): seq<Category>
    requires i < |s|
  {
    s[..i] + s[i + 1..]
  }

  /** The amount the save button stores: the parsed text, or 0 where `Integer.parseInt` throws. */
  function ParsedAmount(text: string): (r: Int32)
    ensures ParseInt(text) == Some(r) || (ParseInt(text) == None && r == 0)
  {
    match ParseInt(text)
    case Some(v) => v
    case None => 0
  }

  // ---------------------------------------------------------------------
  // Properties of the specification functions
  // ---------------------------------------------------------------------

  lemma {:induction false} SumConcat(a: seq<Category>, b: seq<Category>)
    ensures Sum(a + b) == Sum(a) + Sum(b)
  {
    if b == [] {
      assert a + b == a;
    } else {
      var last := |b| - 1;
      assert (a + b)[..|a + b| - 1] == a + b[..last];
      SumConcat(a, b[..last]);
    }
  }

  /** Freshly seeded lists total 0. */
  lemma {:induction false} SumSeeded(names: seq<string>)
    ensures Sum(Seeded(names)) == 0
  {
    if names != [] {
      var last := |names| - 1;
      assert Seeded(names)[..last] == Seeded(names[..last]);
      SumSeeded(names[..last]);
    }
  }

  /** Appending a category adds its amount to the exact total. */
  lemma {:induction false} SumAppended(s: seq<Category>, c: Category)
    ensures Sum(s + [c]) == Sum(s) + c.amount
  {
    assert (s + [c])[..|s|] == s;
  }

  /** Removing a category takes exactly its amount off the exact total. */
  lemma {:induction false} SumRemoved(s: seq<Category>, i: nat)
    requires i < |s|
    ensures Sum(Removed(s, i)) == Sum(s) - s[i].amount
  {
    var pre, rest := s[..i], s[i + 1..];
    assert s == pre + ([s[i]] + rest);
    assert Removed(s, i) == pre + rest;
    SumConcat(pre, [s[i]] + rest);
    SumConcat([s[i]], rest);
    SumConcat(pre, rest);
    assert Sum([s[i]]) == s[i].amount by {
      assert [s[i]][..0] == [];
    }
  }

  /** Replacing a category swaps its old amount for the new one in the exact total. */
  lemma {:induction false} SumReplaced(s: seq<Category>, i: nat, c: Category)
    requires i < |s|
    ensures Sum(s[i := c]) == Sum(s) - s[i].amount + c.amount
  {
    var pre, rest := s[..i], s[i + 1..];
    assert s[i := c] == pre + ([c] + rest);
    assert s == pre + ([s[i]] + rest);
    SumConcat(pre, [c] + rest);
    SumConcat(pre, [s[i]] + rest);
    SumConcat([c], rest);
    SumConcat([s[i]], rest);
    assert Sum([c]) == c.amount by {
      assert [c][..0] == [];
    }
    assert Sum([s[i]]) == s[i].amount by {
      assert [s[i]][..0] == [];
    }
  }

  /** Removal keeps every other category, in the same relative order. */
  lemma RemovedKeepsOrder(s: seq<Category>, i: nat)
    requires i < |s|
    ensures |Removed(s, i)| == |s| - 1
    ensures forall j :: 0 <= j < i ==> Removed(s, i)[j] == s[j]
    ensures forall j :: i <= j < |s| - 1 ==> Removed(s, i)[j] == s[j + 1]
    ensures multiset(Removed(s, i)) + multiset{s[i]} == multiset(s)
  {
    assert s == s[..i] + [s[i]] + s[i + 1..];
  }

  /** Re-saving the edit dialog with the amount it was pre-filled with keeps that amount. */
  lemma ParsedAmountOfValueOf(a: Int32)
    ensures ParsedAmount(ValueOf(a)) == a
  {
    ParseValueOf(a);
  }

  /** An empty amount field, or one holding only a sign, is saved as 0. */
  lemma ParsedAmountOfEmptyOrSign()
    ensures ParsedAmount("") == 0 && ParsedAmount("-") == 0 && ParsedAmount("+") == 0
  {
  }

  /** Text with a character that is neither a digit nor a leading sign is saved as 0 instead of being rejected. */
  lemma ParsedAmountOfNonNumber(text: string, k: nat)
    requires k < |text| && !IsDigit(text[k])
    requires k > 0 || (text[0] != '-' && text[0] != '+')
    ensures ParsedAmount(text) == 0
  {
    ParseIntRejectsNonDigit(text, k);
  }

  /** A well-formed amount too large for an `int` is saved as 0, not wrapped or clamped. */
  lemma ParsedAmountOutOfRange(n: nat)
    requires n > MaxInt
    ensures ParsedAmount(NatToString(n)) == 0
    ensures n > 0 - MinInt ==> ParsedAmount("-" + NatToString(n)) == 0
  {
    ParseIntRejectsOutOfRange(n);
  }

  // ---------------------------------------------------------------------
  // The screen's state
  // ---------------------------------------------------------------------

  class Ledger {
    var expenses: seq<Category>
    var incomes: seq<Category>
    var isUnlocked: bool

    function List(kind: ListKind): seq<Category>
      reads this
    {
      match kind
      case Expenses => expenses
      case Incomes => incomes
    }

    /** Screen creation: both lists seeded with their defaults, editing locked. */
    constructor ()
      ensures expenses == Seeded(ExpenseDefaults)
      ensures incomes == Seeded(IncomeDefaults)
      ensures !isUnlocked
    {
      var seeded := [];
      for i := 0 to |ExpenseDefaults|
        invariant seeded == Seeded(ExpenseDefaults[..i])
      {
        seeded := seeded + [Category(ExpenseDefaults[i], 0)];
      }
      expenses := seeded;
      seeded := [];
      for i := 0 to |IncomeDefaults|
        invariant seeded == Seeded(IncomeDefaults[..i])
      {
        seeded := seeded + [Category(IncomeDefaults[i], 0)];
      }
      incomes := seeded;
      isUnlocked := false;
    }

    /** The lock button: flips the flag and touches neither list. */
    method ToggleLock()
      modifies this
      ensures isUnlocked == !old(isUnlocked)
      ensures expenses == old(expenses) && incomes == old(incomes)
    {
      isUnlocked := !isUnlocked;
    }

    /** Saving the add dialog: appends one category; allowed whether or not the screen is locked. */
    method Add(kind: ListKind, name: string, amountText: string)
      modifies this
      ensures List(kind) == old(List(kind)) + [Category(name, ParsedAmount(amountText))]
      ensures List(kind.Other()) == old(List(kind.Other()))
      ensures isUnlocked == old(isUnlocked)
    {
      var amount := ParsedAmount(amountText);
      if kind == Expenses {
        expenses := expenses + [Category(name, amount)];
      } else {
        incomes := incomes + [Category(name, amount)];
      }
    }

    /**
     * Tapping row `index` and saving the edit dialog: replaces that row's
     * name and amount. The tap opens the dialog only while unlocked.
     */
    method Edit(kind: ListKind, index: nat, name: string, amountText: string)
      requires index < |List(kind)|
      modifies this
      ensures List(kind) == if old(isUnlocked)
                            then old(List(kind))[index := Category(name, ParsedAmount(amountText))]
                            else old(List(kind))
      ensures List(kind.Other()) == old(List(kind.Other()))
      ensures isUnlocked == old(isUnlocked)
    {
      if isUnlocked {
        var amount := ParsedAmount(amountText);
        if kind == Expenses {
          expenses := expenses[index := Category(name, amount)];
        } else {
          incomes := incomes[index := Category(name, amount)];
        }
      }
    }

    /**
     * Long-pressing row `index` and confirming: removes that row. The long
     * press opens the confirmation only while unlocked.
     */
    method Remove(kind: ListKind, index: nat)
      requires index < |List(kind)|
      modifies this
      ensures List(kind) == if old(isUnlocked) then Removed(old(List(kind)), index) else old(List(kind))
      ensures List(kind.Other()) == old(List(kind.Other()))
      ensures isUnlocked == old(isUnlocked)
    {
      if isUnlocked {
        if kind == Expenses {
          expenses := Removed(expenses, index);
        } else {
          incomes := Removed(incomes, index);
        }
      }
    }

    /** The total shown under a list: the amounts summed in an `int` accumulator. */
    method Total(kind: ListKind) returns (total: Int32)
      ensures total == Wrap(Sum(List(kind)))
      ensures MinInt <= Sum(List(kind)) <= MaxInt ==> total == Sum(List(kind))
    {
      var items := List(kind);
      total := 0;
      for i := 0 to |items|
        invariant total == Wrap(Sum(items[..i]))
      {
        assert items[..i + 1][..i] == items[..i];
        WrapAbsorbs(Sum(items[..i]), items[i].amount);
        total := AddInt(total, items[i].amount);
      }
      assert items[..|items|] == items;
    }
  }
}
